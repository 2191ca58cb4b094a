/** Coordinated structural candidates, as they pass through aggregation and dispatch. */
module Candidates {
  import opened Options
  import opened Floats
  import opened Sequences

  datatype Op =
    | RemoveSynapse(fromUuid: string, toUuid: string)
    | AddSynapse(fromUuid: string, toUuid: string, weight: Float)
    | AddNeuron(uuid: string, neuronType: string, squash: string, bias: Float, insertBefore: Option<string>)
    | RemoveNeuron(uuid: string)
    | ChangeSquash(uuid: string, squash: string)
    | SetBias(uuid: string, bias: Float)
    | SetWeight(fromUuid: string, toUuid: string, weight: Float)

  /** `note` stands for the comment and the attached remedies, which no step here reads. */
  datatype Candidate = Candidate(operations: seq<Op>, gain: Float, note: string)

  function GainOf(c: Candidate): Float {
    c.gain
  }

  /** No operation carries a non-finite parameter. */
  predicate FiniteOps(c: Candidate) {
    forall i | 0 <= i < |c.operations| :: FiniteOp(c.operations[i])
  }

  predicate FiniteOp(op: Op) {
    match op
    case AddSynapse(_, _, weight) => weight.Finite?
    case SetWeight(_, _, weight) => weight.Finite?
    case AddNeuron(_, _, _, bias, _) => bias.Finite?
    case SetBias(_, bias) => bias.Finite?
    case RemoveSynapse(_, _) => true
    case RemoveNeuron(_) => true
    case ChangeSquash(_, _) => true
  }

  predicate FiniteGain(c: Candidate) {
    c.gain.Finite?
  }

  /** The neuron an operation acts on: the synapse's end, or the neuron itself. */
  function OpTarget(op: Op): string {
    match op
    case RemoveSynapse(_, toUuid) => toUuid
    case AddSynapse(_, toUuid, _) => toUuid
    case SetWeight(_, toUuid, _) => toUuid
    case AddNeuron(uuid, _, _, _, _) => uuid
    case RemoveNeuron(uuid) => uuid
    case ChangeSquash(uuid, _) => uuid
    case SetBias(uuid, _) => uuid
  }

  /** What is kept, and how much of it, does not depend on the order. */
  lemma RetainPermuted(a: seq<Candidate>, b: seq<Candidate>, keep: Candidate -> bool)
    requires multiset(a) == multiset(b)
    ensures multiset(Retain(a, keep)) == multiset(Retain(b, keep)) && |Retain(a, keep)| == |Retain(b, keep)|
  {
    hide Retain;
    RetainMultiset(a, keep);
    RetainMultiset(b, keep);
    assert multiset(Retain(a, keep)) == multiset(Retain(b, keep));
    SameLength(Retain(a, keep), Retain(b, keep));
  }
}
