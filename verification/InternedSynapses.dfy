/** Synapse sets and weight maps keyed by interned ids, against those keyed by strings. */
module InternedSynapses {
  import opened Options
  import opened Floats
  import opened Sequences
  import opened Interning

  datatype Synapse = Synapse(fromUuid: string, toUuid: string, weight: Float)

  datatype Creature = Creature(input: nat, neurons: seq<string>, synapses: seq<Synapse>)

  function Digits(n: nat): string {
    if n < 10 then ["0123456789"[n]] else Digits(n / 10) + ["0123456789"[n % 10]]
  }

  function InputName(i: nat): string {
    "input-" + Digits(i)
  }

  function InputNames(n: nat): seq<string> {
    if n == 0 then [] else InputNames(n - 1) + [InputName(n - 1)]
  }

  function EndsOf(ss: seq<Synapse>): seq<string> {
    if ss == [] then [] else EndsOf(ss[..|ss| - 1]) + [ss[|ss| - 1].fromUuid, ss[|ss| - 1].toUuid]
  }

  /** Every name a builder interns, in its order. */
  function NamesOf(c: Creature): seq<string> {
    InputNames(c.input) + c.neurons + EndsOf(c.synapses)
  }

  /** The index a builder leaves behind. */
  function TableOf(c: Creature): Table {
    InternAll(EMPTY, NamesOf(c))
  }

  // The string-keyed builders and lookup.

  function SynapseSet(ss: seq<Synapse>): set<(string, string)> {
    set i | 0 <= i < |ss| :: (ss[i].fromUuid, ss[i].toUuid)
  }

  /** A later synapse between the same neurons overwrites the weight. */
  function SynapseWeights(ss: seq<Synapse>): map<(string, string), Float> {
    if ss == [] then map[]
    else
      var s := ss[|ss| - 1];
      SynapseWeights(ss[..|ss| - 1])[(s.fromUuid, s.toUuid) := s.weight]
  }

  /** The synapse leads from the first neuron of the query to the second. */
  predicate Leads(s: Synapse, q: (string, string)) {
    s.fromUuid == q.0 && s.toUuid == q.1
  }

  lemma SynapseSetMeans(ss: seq<Synapse>, q: (string, string))
    ensures q in SynapseSet(ss) <==> exists i :: 0 <= i < |ss| && Leads(ss[i], q)
  {
    if i :| 0 <= i < |ss| && (ss[i].fromUuid, ss[i].toUuid) == q {
      assert Leads(ss[i], q);
    }
  }

  /** The weight between two neurons is that of the last synapse that leads from one to the other. */
  lemma {:induction false} SynapseWeightsMean(ss: seq<Synapse>, q: (string, string)) returns (last: nat)
    ensures q in SynapseWeights(ss) <==> exists i :: 0 <= i < |ss| && Leads(ss[i], q)
    ensures q in SynapseWeights(ss) ==>
      && last < |ss| && Leads(ss[last], q) && SynapseWeights(ss)[q] == ss[last].weight
      && forall i | last < i < |ss| :: !Leads(ss[i], q)
  {
    last := 0;
    if ss != [] {
      var before := ss[..|ss| - 1];
      if Leads(ss[|ss| - 1], q) {
        last := |ss| - 1;
      } else {
        last := SynapseWeightsMean(before, q);
        if i :| 0 <= i < |before| && Leads(before[i], q) {
          assert Leads(ss[i], q);
        }
        if i :| 0 <= i < |ss| && Leads(ss[i], q) {
          assert Leads(before[i], q);
        }
      }
    }
  }

  /** The lookup counts the queries that some synapse answers. */
  lemma LookupCounts(ss: seq<Synapse>, queries: seq<(string, string)>)
    ensures LookupSynapses(SynapseSet(ss), queries) ==
      |(set k: nat | k < |queries| && exists i :: 0 <= i < |ss| && Leads(ss[i], queries[k]))|
  {
    hide SynapseSet, Leads;
    RetainPlaces(queries, InSet(SynapseSet(ss)));
    var answered := set k: nat | k < |queries| && exists i :: 0 <= i < |ss| && Leads(ss[i], queries[k]);
    forall k: nat ensures k in Places(queries, InSet(SynapseSet(ss))) <==> k in answered {
      if k < |queries| {
        SynapseSetMeans(ss, queries[k]);
      }
    }
    assert Places(queries, InSet(SynapseSet(ss))) == answered;
  }

  /** The value of a decimal digit, by its place among the characters. */
  function ValueOf(digit: char): int {
    digit as int - '0' as int
  }

  /** The number that decimal digits stand for. */
  function NumberOf(digits: string): int {
    if digits == "" then 0 else 10 * NumberOf(digits[..|digits| - 1]) + ValueOf(digits[|digits| - 1])
  }

  lemma DigitMeans(n: nat)
    requires n < 10
    ensures |Digits(n)| == 1 && ValueOf(Digits(n)[0]) == n
  {
    assert "0123456789"[0] == '0' && "0123456789"[1] == '1' && "0123456789"[2] == '2' && "0123456789"[3] == '3';
    assert "0123456789"[4] == '4' && "0123456789"[5] == '5' && "0123456789"[6] == '6' && "0123456789"[7] == '7';
    assert "0123456789"[8] == '8' && "0123456789"[9] == '9';
  }

  lemma DigitsStep(n: nat)
    requires n >= 10
    ensures Digits(n) == Digits(n / 10) + Digits(n % 10)
  {
  }

  lemma NumberOfStep(digits: string, last: string)
    requires |last| == 1
    ensures NumberOf(digits + last) == 10 * NumberOf(digits) + ValueOf(last[0])
  {
    hide ValueOf;
    assert (digits + last)[..|digits + last| - 1] == digits;
  }

  /** The digits of a number stand for it, and only zero begins with a zero. */
  lemma {:induction false} DigitsMean(n: nat)
    ensures Digits(n) != "" && NumberOf(Digits(n)) == n
    ensures forall i | 0 <= i < |Digits(n)| :: 0 <= ValueOf(Digits(n)[i]) < 10
    ensures n > 0 ==> ValueOf(Digits(n)[0]) != 0
  {
    hide Digits, NumberOf, ValueOf;
    DigitMeans(n % 10);
    if n >= 10 {
      DigitsMean(n / 10);
      DigitsStep(n);
      NumberOfStep(Digits(n / 10), Digits(n % 10));
    } else {
      NumberOfStep("", Digits(n));
      NumberOfNothing();
      assert "" + Digits(n) == Digits(n);
    }
  }

  lemma NumberOfNothing()
    ensures NumberOf("") == 0
  {
  }

  /** Which name is interned at which place: the inputs, the neurons, then both ends of each synapse. */
  lemma NamesInOrder(c: Creature)
    ensures |NamesOf(c)| == c.input + |c.neurons| + 2 * |c.synapses|
    ensures forall i | 0 <= i < c.input :: NamesOf(c)[i] == "input-" + Digits(i)
    ensures forall i | 0 <= i < |c.neurons| :: NamesOf(c)[c.input + i] == c.neurons[i]
    ensures forall i | 0 <= i < |c.synapses| ::
      && NamesOf(c)[c.input + |c.neurons| + 2 * i] == c.synapses[i].fromUuid
      && NamesOf(c)[c.input + |c.neurons| + 2 * i + 1] == c.synapses[i].toUuid
  {
    hide Digits, InputNames, EndsOf;
    InputNamesInOrder(c.input);
    EndsInOrder(c.synapses);
  }

  lemma {:induction false} InputNamesInOrder(n: nat)
    ensures |InputNames(n)| == n && forall i | 0 <= i < n :: InputNames(n)[i] == "input-" + Digits(i)
  {
    hide Digits;
    if n > 0 {
      InputNamesInOrder(n - 1);
      assert InputNames(n) == InputNames(n - 1) + [InputName(n - 1)];
    }
  }

  lemma {:induction false} EndsInOrder(ss: seq<Synapse>)
    ensures |EndsOf(ss)| == 2 * |ss|
    ensures forall i | 0 <= i < |ss| :: EndsOf(ss)[2 * i] == ss[i].fromUuid && EndsOf(ss)[2 * i + 1] == ss[i].toUuid
  {
    if ss != [] {
      EndsInOrder(ss[..|ss| - 1]);
    }
  }

  function InSet(pairs: set<(string, string)>): ((string, string)) -> bool {
    q => q in pairs
  }

  function LookupSynapses(pairs: set<(string, string)>, queries: seq<(string, string)>): nat {
    |Retain(queries, InSet(pairs))|
  }

  // The interned builders and lookup.

  predicate Known(t: Table, q: (string, string)) {
    q.0 in t.ids && q.1 in t.ids
  }

  predicate AllKnown(t: Table, ss: seq<Synapse>) {
    forall i | 0 <= i < |ss| :: Known(t, (ss[i].fromUuid, ss[i].toUuid))
  }

  function IdOf(t: Table, uuid: string): nat {
    if uuid in t.ids then t.ids[uuid] else 0
  }

  function Ids(t: Table, q: (string, string)): (nat, nat) {
    (IdOf(t, q.0), IdOf(t, q.1))
  }

  function InternedSet(t: Table, ss: seq<Synapse>): set<(nat, nat)> {
    set i | 0 <= i < |ss| :: Ids(t, (ss[i].fromUuid, ss[i].toUuid))
  }

  function InternedWeights(t: Table, ss: seq<Synapse>): map<(nat, nat), Float> {
    if ss == [] then map[]
    else
      var s := ss[|ss| - 1];
      InternedWeights(t, ss[..|ss| - 1])[Ids(t, (s.fromUuid, s.toUuid)) := s.weight]
  }

  function InInternedSet(pairs: set<(nat, nat)>, t: Table): ((string, string)) -> bool {
    (q: (string, string)) => Known(t, q) && Ids(t, q) in pairs
  }

  function LookupInterned(pairs: set<(nat, nat)>, t: Table, queries: seq<(string, string)>): nat {
    |Retain(queries, InInternedSet(pairs, t))|
  }

  /** Interns every neuron of the creature. */
  method PreIntern(index: NeuronIndex, c: Creature)
    requires index.View() == EMPTY
    modifies index
    ensures index.View() == InternAll(EMPTY, InputNames(c.input) + c.neurons)
  {
    for i := 0 to c.input
      invariant index.View() == InternAll(EMPTY, InputNames(i))
    {
      InternAllAppend(EMPTY, InputNames(i), InputName(i));
      var id := index.Intern(InputName(i));
    }
    var inputs := InputNames(c.input);
    assert inputs + c.neurons[..0] == inputs;
    for i := 0 to |c.neurons|
      invariant index.View() == InternAll(EMPTY, inputs + c.neurons[..i])
    {
      assert inputs + c.neurons[..i + 1] == inputs + c.neurons[..i] + [c.neurons[i]];
      InternAllAppend(EMPTY, inputs + c.neurons[..i], c.neurons[i]);
      var id := index.Intern(c.neurons[i]);
    }
    assert c.neurons[..|c.neurons|] == c.neurons;
  }

  /** Interns both ends of a synapse. */
  method InternEnds(index: NeuronIndex, s: Synapse) returns (ids: (nat, nat))
    modifies index
    ensures index.View() == InternAll(old(index.View()), [s.fromUuid, s.toUuid])
    ensures ids == Ids(index.View(), (s.fromUuid, s.toUuid))
  {
    ghost var before := index.View();
    InternAllAppend(before, [], s.fromUuid);
    InternAllAppend(before, [s.fromUuid], s.toUuid);
    assert [] + [s.fromUuid] == [s.fromUuid] && [s.fromUuid] + [s.toUuid] == [s.fromUuid, s.toUuid];
    var f := index.Intern(s.fromUuid);
    var t := index.Intern(s.toUuid);
    ids := (f, t);
  }

  lemma {:induction false} InternAllTwice(t: Table, a: seq<string>, b: seq<string>)
    ensures InternAll(t, a + b) == InternAll(InternAll(t, a), b)
  {
    if b == [] {
      assert a + b == a;
    } else {
      InternAllTwice(t, a, b[..|b| - 1]);
      assert a + b == a + b[..|b| - 1] + [b[|b| - 1]];
      InternAllAppend(t, a + b[..|b| - 1], b[|b| - 1]);
    }
  }

  lemma EndsAppend(before: seq<string>, ss: seq<Synapse>, s: Synapse)
    ensures InternAll(EMPTY, before + EndsOf(ss + [s]))
         == InternAll(InternAll(EMPTY, before + EndsOf(ss)), [s.fromUuid, s.toUuid])
  {
    assert (ss + [s])[..|ss + [s]| - 1] == ss;
    assert before + EndsOf(ss + [s]) == (before + EndsOf(ss)) + [s.fromUuid, s.toUuid];
    InternAllTwice(EMPTY, before + EndsOf(ss), [s.fromUuid, s.toUuid]);
  }

  /** Interning more names changes nothing about synapses that are already interned. */
  lemma {:induction false} IdsStay(t: Table, names: seq<string>, ss: seq<Synapse>)
    requires AllKnown(t, ss)
    ensures AllKnown(InternAll(t, names), ss)
    ensures InternedSet(InternAll(t, names), ss) == InternedSet(t, ss)
    ensures InternedWeights(InternAll(t, names), ss) == InternedWeights(t, ss)
  {
    hide InternAll;
    IdsNeverChange(t, names);
    var after := InternAll(t, names);
    forall i | 0 <= i < |ss|
      ensures Known(after, (ss[i].fromUuid, ss[i].toUuid))
      ensures Ids(after, (ss[i].fromUuid, ss[i].toUuid)) == Ids(t, (ss[i].fromUuid, ss[i].toUuid))
    {
      assert Known(t, (ss[i].fromUuid, ss[i].toUuid));
    }
    if ss != [] {
      IdsStay(t, names, ss[..|ss| - 1]);
    }
  }

  lemma BuildStep(t: Table, ss: seq<Synapse>, s: Synapse)
    requires AllKnown(t, ss)
    ensures var after := InternAll(t, [s.fromUuid, s.toUuid]);
      var ids := Ids(after, (s.fromUuid, s.toUuid));
      && AllKnown(after, ss + [s])
      && InternedSet(after, ss + [s]) == InternedSet(t, ss) + {ids}
      && InternedWeights(after, ss + [s]) == InternedWeights(t, ss)[ids := s.weight]
  {
    hide InternAll, InternedSet, InternedWeights, Ids;
    var ends := [s.fromUuid, s.toUuid];
    IdsStay(t, ends, ss);
    IdsNeverChange(t, ends);
    assert s.fromUuid in ends && s.toUuid in ends;
    SetAppend(InternAll(t, ends), ss, s);
    WeightsAppend(InternAll(t, ends), ss, s);
  }

  lemma WeightsAppend(t: Table, ss: seq<Synapse>, s: Synapse)
    ensures InternedWeights(t, ss + [s]) == InternedWeights(t, ss)[Ids(t, (s.fromUuid, s.toUuid)) := s.weight]
  {
    hide Ids;
    assert (ss + [s])[..|ss + [s]| - 1] == ss;
  }

  lemma SetAppend(t: Table, ss: seq<Synapse>, s: Synapse)
    ensures InternedSet(t, ss + [s]) == InternedSet(t, ss) + {Ids(t, (s.fromUuid, s.toUuid))}
  {
    hide Ids;
    var all := ss + [s];
    assert forall i | 0 <= i < |ss| :: all[i] == ss[i];
    assert all[|ss|] == s;
    forall p ensures p in InternedSet(t, all) <==> p in InternedSet(t, ss) + {Ids(t, (s.fromUuid, s.toUuid))} {
    }
  }

  /** Interns every neuron, then collects the interned ends of every synapse. */
  method BuildExistingSynapsesInterned(c: Creature) returns (pairs: set<(nat, nat)>, index: NeuronIndex)
    ensures fresh(index) && index.View() == TableOf(c)
    ensures pairs == InternedSet(TableOf(c), c.synapses)
  {
    hide InternAll, InternedSet, InternedWeights, Ids;
    index := new NeuronIndex();
    PreIntern(index, c);
    ghost var names := InputNames(c.input) + c.neurons;
    pairs := {};
    NothingInterned(index.View());
    assert names + EndsOf([]) == names;
    for i := 0 to |c.synapses|
      invariant fresh(index)
      invariant index.View() == InternAll(EMPTY, names + EndsOf(c.synapses[..i]))
      invariant AllKnown(index.View(), c.synapses[..i])
      invariant pairs == InternedSet(index.View(), c.synapses[..i])
    {
      assert c.synapses[..i + 1] == c.synapses[..i] + [c.synapses[i]];
      EndsAppend(names, c.synapses[..i], c.synapses[i]);
      BuildStep(index.View(), c.synapses[..i], c.synapses[i]);
      var ids := InternEnds(index, c.synapses[i]);
      pairs := pairs + {ids};
    }
    assert c.synapses[..|c.synapses|] == c.synapses;
  }

  /** The same for the weights; a later synapse between the same neurons overwrites. */
  method BuildSynapseWeightsInterned(c: Creature) returns (weights: map<(nat, nat), Float>, index: NeuronIndex)
    ensures fresh(index) && index.View() == TableOf(c)
    ensures weights == InternedWeights(TableOf(c), c.synapses)
  {
    hide InternAll, InternedSet, InternedWeights, Ids;
    index := new NeuronIndex();
    PreIntern(index, c);
    ghost var names := InputNames(c.input) + c.neurons;
    weights := map[];
    NothingInterned(index.View());
    assert names + EndsOf([]) == names;
    for i := 0 to |c.synapses|
      invariant fresh(index)
      invariant index.View() == InternAll(EMPTY, names + EndsOf(c.synapses[..i]))
      invariant AllKnown(index.View(), c.synapses[..i])
      invariant weights == InternedWeights(index.View(), c.synapses[..i])
    {
      assert c.synapses[..i + 1] == c.synapses[..i] + [c.synapses[i]];
      EndsAppend(names, c.synapses[..i], c.synapses[i]);
      BuildStep(index.View(), c.synapses[..i], c.synapses[i]);
      var ids := InternEnds(index, c.synapses[i]);
      weights := weights[ids := c.synapses[i].weight];
    }
    assert c.synapses[..|c.synapses|] == c.synapses;
  }

  lemma NothingInterned(t: Table)
    ensures InternedSet(t, []) == {} && InternedWeights(t, []) == map[]
  {
  }

  lemma {:induction false} EverythingIsKnown(c: Creature)
    ensures AllKnown(TableOf(c), c.synapses)
  {
    hide InternAll;
    IdsNeverChange(EMPTY, NamesOf(c));
    forall i | 0 <= i < |c.synapses|
      ensures Known(TableOf(c), (c.synapses[i].fromUuid, c.synapses[i].toUuid))
    {
      EndsHold(c.synapses, i);
      assert c.synapses[i].fromUuid in NamesOf(c) && c.synapses[i].toUuid in NamesOf(c);
    }
  }

  lemma {:induction false} EndsHold(ss: seq<Synapse>, i: nat)
    requires i < |ss|
    ensures ss[i].fromUuid in EndsOf(ss) && ss[i].toUuid in EndsOf(ss)
  {
    var last := [ss[|ss| - 1].fromUuid, ss[|ss| - 1].toUuid];
    if i < |ss| - 1 {
      EndsHold(ss[..|ss| - 1], i);
    } else {
      assert last[0] in last && last[1] in last;
    }
  }

  /** The filter loop of the interned lookup. */
  method LookupSynapsesInterned(pairs: set<(nat, nat)>, index: NeuronIndex, queries: seq<(string, string)>)
    returns (count: nat)
    ensures count == LookupInterned(pairs, index.View(), queries)
  {
    count := 0;
    for i := 0 to |queries|
      invariant count == |Retain(queries[..i], InInternedSet(pairs, index.View()))|
    {
      assert queries[..i + 1] == queries[..i] + [queries[i]];
      RetainAppend(queries[..i], [queries[i]], InInternedSet(pairs, index.View()));
      assert [queries[i]][1..] == [];
      var (f, t) := (GetId(index.View(), queries[i].0), GetId(index.View(), queries[i].1));
      if f.Some? && t.Some? {
        if (f.value, t.value) in pairs {
          count := count + 1;
        }
      }
    }
    assert queries[..|queries|] == queries;
  }

  // Exactly when the interned builders answer like the string ones, for any number of names.

  /** Two names of the table that share an id. */
  predicate Alias(t: Table, u: string, v: string) {
    u in t.ids && v in t.ids && t.ids[u] == t.ids[v]
  }

  /** Names share an id exactly when their places differ by a multiple of 2^32. */
  lemma AliasesAreCongruent(t: Table, i: nat, j: nat)
    requires Consistent(t) && i < |t.uuids| && j < |t.uuids|
    ensures Alias(t, t.uuids[i], t.uuids[j]) <==> i % U32_RANGE == j % U32_RANGE
  {
  }

  /** Replacing one end of a synapse by a name that shares its id gives the ends of a synapse. */
  predicate ClosedUnderAliases(t: Table, ss: seq<Synapse>) {
    && (forall i, v | 0 <= i < |ss| && v in t.ids ::
          Alias(t, ss[i].fromUuid, v) ==> (v, ss[i].toUuid) in SynapseSet(ss))
    && (forall i, v | 0 <= i < |ss| && v in t.ids ::
          Alias(t, ss[i].toUuid, v) ==> (ss[i].fromUuid, v) in SynapseSet(ss))
  }

  /** Found by its ids alone: the ends share those of a synapse, without being the ends of one. */
  predicate FalseHit(t: Table, ss: seq<Synapse>, q: (string, string)) {
    q !in SynapseSet(ss) && exists i :: 0 <= i < |ss| && Alias(t, ss[i].fromUuid, q.0) && Alias(t, ss[i].toUuid, q.1)
  }

  function IsFalseHit(t: Table, ss: seq<Synapse>): ((string, string)) -> bool {
    q => FalseHit(t, ss, q)
  }

  lemma FoundByIds(t: Table, ss: seq<Synapse>, q: (string, string))
    requires AllKnown(t, ss)
    ensures InInternedSet(InternedSet(t, ss), t)(q) <==> q in SynapseSet(ss) || FalseHit(t, ss, q)
  {
    if Known(t, q) && Ids(t, q) in InternedSet(t, ss) {
      var k :| 0 <= k < |ss| && Ids(t, (ss[k].fromUuid, ss[k].toUuid)) == Ids(t, q);
      assert Known(t, (ss[k].fromUuid, ss[k].toUuid));
      assert Alias(t, ss[k].fromUuid, q.0) && Alias(t, ss[k].toUuid, q.1);
    }
    if q in SynapseSet(ss) {
      var k :| 0 <= k < |ss| && (ss[k].fromUuid, ss[k].toUuid) == q;
      assert Known(t, (ss[k].fromUuid, ss[k].toUuid));
    }
    if FalseHit(t, ss, q) {
      var k :| 0 <= k < |ss| && Alias(t, ss[k].fromUuid, q.0) && Alias(t, ss[k].toUuid, q.1);
      assert Ids(t, (ss[k].fromUuid, ss[k].toUuid)) == Ids(t, q);
    }
  }

  lemma {:induction false} RetainEither<T>(s: seq<T>, p: T -> bool, q: T -> bool, either: T -> bool)
    requires forall x :: either(x) <==> p(x) || q(x)
    requires forall x :: !(p(x) && q(x))
    ensures |Retain(s, either)| == |Retain(s, p)| + |Retain(s, q)|
  {
    if s != [] {
      RetainEither(s[1..], p, q, either);
    }
  }

  /** For every creature, of any size, the interned lookup counts the string lookup's hits and the false ones. */
  lemma InternedLookupAddsFalseHits(c: Creature, queries: seq<(string, string)>)
    ensures LookupInterned(InternedSet(TableOf(c), c.synapses), TableOf(c), queries)
         == LookupSynapses(SynapseSet(c.synapses), queries) + |Retain(queries, IsFalseHit(TableOf(c), c.synapses))|
  {
    hide InternAll, NamesOf, Retain, Known, Ids;
    var (t, ss) := (TableOf(c), c.synapses);
    var found := InInternedSet(InternedSet(t, ss), t);
    EverythingIsKnown(c);
    forall q ensures found(q) <==> InSet(SynapseSet(ss))(q) || IsFalseHit(t, ss)(q) {
      FoundByIds(t, ss, q);
    }
    RetainEither(queries, InSet(SynapseSet(ss)), IsFalseHit(t, ss), found);
  }

  /** Replacing one end, then the other, stays among the synapses. */
  lemma AliasedEndsAreASynapse(t: Table, ss: seq<Synapse>, i: nat, q: (string, string))
    requires ClosedUnderAliases(t, ss) && i < |ss|
    requires Alias(t, ss[i].fromUuid, q.0) && Alias(t, ss[i].toUuid, q.1)
    ensures q in SynapseSet(ss)
  {
    assert (q.0, ss[i].toUuid) in SynapseSet(ss);
    var j :| 0 <= j < |ss| && (ss[j].fromUuid, ss[j].toUuid) == (q.0, ss[i].toUuid);
    assert Alias(t, ss[j].toUuid, q.1);
  }

  /** A synapse set is closed under aliases exactly if it gives no false hit. */
  lemma ClosedHasNoFalseHit(t: Table, ss: seq<Synapse>)
    requires AllKnown(t, ss)
    ensures ClosedUnderAliases(t, ss) <==> forall q :: !FalseHit(t, ss, q)
  {
    if ClosedUnderAliases(t, ss) {
      forall q ensures !FalseHit(t, ss, q) {
        if i :| 0 <= i < |ss| && Alias(t, ss[i].fromUuid, q.0) && Alias(t, ss[i].toUuid, q.1) {
          AliasedEndsAreASynapse(t, ss, i, q);
        }
      }
    }
    if forall q :: !FalseHit(t, ss, q) {
      NoFalseHitIsClosed(t, ss);
    }
  }

  lemma NoFalseHitIsClosed(t: Table, ss: seq<Synapse>)
    requires AllKnown(t, ss) && forall q :: !FalseHit(t, ss, q)
    ensures ClosedUnderAliases(t, ss)
  {
    forall i, v | 0 <= i < |ss| && v in t.ids
      ensures Alias(t, ss[i].fromUuid, v) ==> (v, ss[i].toUuid) in SynapseSet(ss)
      ensures Alias(t, ss[i].toUuid, v) ==> (ss[i].fromUuid, v) in SynapseSet(ss)
    {
      assert Known(t, (ss[i].fromUuid, ss[i].toUuid));
      assert !FalseHit(t, ss, (v, ss[i].toUuid)) && !FalseHit(t, ss, (ss[i].fromUuid, v));
    }
  }

  /** The two lookups count the same for every list of queries exactly if the synapses are closed under aliases. */
  lemma LookupsAgreeExactlyWhenClosed(c: Creature)
    ensures ClosedUnderAliases(TableOf(c), c.synapses) <==>
      forall queries ::
        LookupInterned(InternedSet(TableOf(c), c.synapses), TableOf(c), queries)
          == LookupSynapses(SynapseSet(c.synapses), queries)
  {
    hide InternAll, NamesOf, LookupInterned, LookupSynapses, FalseHit, ClosedUnderAliases, TableOf;
    var (t, ss) := (TableOf(c), c.synapses);
    EverythingIsKnown(c);
    ClosedHasNoFalseHit(t, ss);
    if forall q :: !FalseHit(t, ss, q) {
      forall queries ensures LookupInterned(InternedSet(t, ss), t, queries) == LookupSynapses(SynapseSet(ss), queries) {
        InternedLookupAddsFalseHits(c, queries);
        RetainNothing(queries, IsFalseHit(t, ss));
      }
    } else {
      var q :| FalseHit(t, ss, q);
      InternedLookupAddsFalseHits(c, [q]);
      assert [q][1..] == [];
      assert LookupInterned(InternedSet(t, ss), t, [q]) != LookupSynapses(SynapseSet(ss), [q]);
    }
  }

  lemma {:induction false} RetainNothing<T>(s: seq<T>, keep: T -> bool)
    requires forall i | 0 <= i < |s| :: !keep(s[i])
    ensures Retain(s, keep) == []
  {
    if s != [] {
      RetainNothing(s[1..], keep);
    }
  }

  /** With at most 2^32 names no two share an id. */
  lemma FewNamesAreClosed(c: Creature)
    requires |TableOf(c).uuids| <= U32_RANGE
    ensures ClosedUnderAliases(TableOf(c), c.synapses)
    ensures forall u, v :: Alias(TableOf(c), u, v) ==> u == v
  {
    hide InternAll, NamesOf, TableOf;
    var t := TableOf(c);
    TableIsConsistent(c);
    BijectiveExactlyWithinU32(t);
    forall u, v | Alias(t, u, v) ensures u == v {
      assert GetUuid(t, t.ids[u]) == Some(u) && GetUuid(t, t.ids[v]) == Some(v);
    }
    forall i | 0 <= i < |c.synapses| ensures (c.synapses[i].fromUuid, c.synapses[i].toUuid) in SynapseSet(c.synapses) {
    }
  }

  lemma TableIsConsistent(c: Creature)
    ensures Consistent(TableOf(c))
  {
    ReachableIsConsistent(NamesOf(c));
  }

  /**
   For every creature with at most 2^32 names and every list of queries, duplicates and unknown
   names included, the interned lookup counts what the string lookup counts.
   */
  lemma InternedLookupAgrees(c: Creature, queries: seq<(string, string)>)
    requires |TableOf(c).uuids| <= U32_RANGE
    ensures LookupInterned(InternedSet(TableOf(c), c.synapses), TableOf(c), queries)
         == LookupSynapses(SynapseSet(c.synapses), queries)
  {
    hide TableOf, InternedSet, LookupInterned, LookupSynapses, ClosedUnderAliases;
    FewNamesAreClosed(c);
    LookupsAgreeExactlyWhenClosed(c);
  }

  /** One neuron more than 2^32, and a query finds a synapse that does not exist. */
  lemma OneTooManyGivesAFalseHit(neurons: seq<string>, weight: Float)
    requires |neurons| == U32_RANGE + 1 && forall i, j | 0 <= i < j < |neurons| :: neurons[i] != neurons[j]
    ensures var c := Creature(0, neurons, [Synapse(neurons[0], neurons[1], weight)]);
      FalseHit(TableOf(c), c.synapses, (neurons[U32_RANGE], neurons[1]))
  {
    hide InternAll, TableOf;
    var c := Creature(0, neurons, [Synapse(neurons[0], neurons[1], weight)]);
    NeuronsComeFirst(c);
    OneTooManyWrapsAround(neurons);
    IdsNeverChange(EMPTY, neurons);
    assert neurons[0] in neurons && neurons[1] in neurons && neurons[U32_RANGE] in neurons;
    assert Alias(TableOf(c), c.synapses[0].fromUuid, neurons[U32_RANGE]);
    assert Alias(TableOf(c), c.synapses[0].toUuid, neurons[1]);
  }

  lemma NeuronsComeFirst(c: Creature)
    requires c.input == 0
    ensures var before := InternAll(EMPTY, c.neurons);
      forall u | u in before.ids :: u in TableOf(c).ids && TableOf(c).ids[u] == before.ids[u]
  {
    hide InternAll;
    assert InputNames(0) + c.neurons == c.neurons;
    InternAllTwice(EMPTY, c.neurons, EndsOf(c.synapses));
    IdsNeverChange(InternAll(EMPTY, c.neurons), EndsOf(c.synapses));
  }

  // The weights.

  /** The query finds the same weight, or none, in both maps. */
  predicate SameWeight(t: Table, ss: seq<Synapse>, q: (string, string)) {
    var (strings, interned) := (SynapseWeights(ss), InternedWeights(t, ss));
    && (q in strings <==> Known(t, q) && Ids(t, q) in interned)
    && (q in strings ==> Known(t, q) && Ids(t, q) in interned && strings[q] == interned[Ids(t, q)])
  }

  /** Synapses whose ends share their ids end up with one weight. */
  predicate AliasesShareWeights(t: Table, ss: seq<Synapse>) {
    forall q, r | q in SynapseWeights(ss) && r in SynapseWeights(ss) && Ids(t, q) == Ids(t, r) ::
      SynapseWeights(ss)[q] == SynapseWeights(ss)[r]
  }

  lemma {:induction false} WeightsAreOfSynapses(t: Table, ss: seq<Synapse>)
    ensures SynapseWeights(ss).Keys == SynapseSet(ss)
    ensures InternedWeights(t, ss).Keys == InternedSet(t, ss)
  {
    hide Ids;
    if ss != [] {
      var (before, s) := (ss[..|ss| - 1], ss[|ss| - 1]);
      assert ss == before + [s];
      WeightsAreOfSynapses(t, before);
      SetAppend(t, before, s);
      PairsAppend(before, s);
    }
  }

  lemma PairsAppend(ss: seq<Synapse>, s: Synapse)
    ensures SynapseSet(ss + [s]) == SynapseSet(ss) + {(s.fromUuid, s.toUuid)}
  {
    var all := ss + [s];
    assert forall i | 0 <= i < |ss| :: all[i] == ss[i];
    assert all[|ss|] == s;
    forall p ensures p in SynapseSet(all) <==> p in SynapseSet(ss) + {(s.fromUuid, s.toUuid)} {
    }
  }

  /** An interned weight is the final weight of some synapse with those ids: of the last one. */
  lemma {:induction false} InternedWeightIsOfSynapse(t: Table, ss: seq<Synapse>, ids: (nat, nat))
    returns (r: (string, string))
    requires ids in InternedWeights(t, ss)
    ensures r in SynapseWeights(ss) && Ids(t, r) == ids && SynapseWeights(ss)[r] == InternedWeights(t, ss)[ids]
  {
    hide Ids;
    var (before, s) := (ss[..|ss| - 1], ss[|ss| - 1]);
    r := (s.fromUuid, s.toUuid);
    if Ids(t, r) != ids {
      r := InternedWeightIsOfSynapse(t, before, ids);
    }
  }

  /**
   For every creature, of any size, both weight maps answer every query alike exactly if the
   synapses are closed under aliases and aliased synapses share their final weight.
   */
  lemma WeightsAgreeExactlyWhenClosed(c: Creature)
    ensures (forall q :: SameWeight(TableOf(c), c.synapses, q)) <==>
      ClosedUnderAliases(TableOf(c), c.synapses) && AliasesShareWeights(TableOf(c), c.synapses)
  {
    hide InternAll, NamesOf, TableOf, SynapseWeights, InternedWeights, Ids, FalseHit, ClosedUnderAliases;
    var (t, ss) := (TableOf(c), c.synapses);
    EverythingIsKnown(c);
    WeightsAreOfSynapses(t, ss);
    ClosedHasNoFalseHit(t, ss);
    forall q ensures SameWeight(t, ss, q) ==> !FalseHit(t, ss, q) {
      FoundByIds(t, ss, q);
      HitIsNoSynapse(t, ss, q);
    }
    if ClosedUnderAliases(t, ss) && AliasesShareWeights(t, ss) {
      forall q ensures SameWeight(t, ss, q) {
        FoundByIds(t, ss, q);
        if q in SynapseWeights(ss) {
          var r := InternedWeightIsOfSynapse(t, ss, Ids(t, q));
        }
      }
    }
    if forall q :: SameWeight(t, ss, q) {
      forall q, r | q in SynapseWeights(ss) && r in SynapseWeights(ss) && Ids(t, q) == Ids(t, r)
        ensures SynapseWeights(ss)[q] == SynapseWeights(ss)[r]
      {
        assert SameWeight(t, ss, q) && SameWeight(t, ss, r);
      }
    }
  }

  lemma HitIsNoSynapse(t: Table, ss: seq<Synapse>, q: (string, string))
    ensures FalseHit(t, ss, q) ==> q !in SynapseSet(ss)
  {
  }

  /** For every query, the interned weights hold the weight of the string map, last one winning. */
  lemma InternedWeightsAgree(c: Creature, q: (string, string))
    requires |TableOf(c).uuids| <= U32_RANGE
    ensures var (t, strings) := (TableOf(c), SynapseWeights(c.synapses));
      var interned := InternedWeights(t, c.synapses);
      && (q in strings <==> Known(t, q) && Ids(t, q) in interned)
      && (q in strings ==> strings[q] == interned[Ids(t, q)])
  {
    hide InternAll, NamesOf, TableOf, SynapseWeights, InternedWeights, ClosedUnderAliases;
    var (t, ss) := (TableOf(c), c.synapses);
    FewNamesAreClosed(c);
    EverythingIsKnown(c);
    WeightsAreOfSynapses(t, ss);
    forall p, r | p in SynapseWeights(ss) && r in SynapseWeights(ss) && Ids(t, p) == Ids(t, r) ensures p == r {
      FoundByIds(t, ss, p);
      FoundByIds(t, ss, r);
      assert Alias(t, p.0, r.0) && Alias(t, p.1, r.1);
    }
    WeightsAgreeExactlyWhenClosed(c);
    assert SameWeight(t, ss, q);
  }
}
