/** What one append call writes: the records `append_to_handle` builds from a batch. */
module RecordBatches {
  import opened Options

  datatype Neuron = Neuron(uuid: string, neuronType: string)
  datatype Creature = Creature(neurons: seq<Neuron>)

  /** One neuron's measurement; the numeric payload is copied through unread. */
  datatype NeuronData = NeuronData(neuronUuid: string, payload: int)
  datatype Batch = Batch(obsIndex: nat, neuronData: seq<NeuronData>, inputs: seq<int>)

  datatype Source = FromNeuron(uuid: string) | FromInput(index: nat)
  datatype Record = Record(obsIndex: nat, source: Source, payload: int)

  /** The first neuron carrying `uuid`, as `iter().find` returns it. */
  function FindNeuron(neurons: seq<Neuron>, uuid: string): (r: Option<Neuron>)
  {
    if neurons == [] then None
    else if neurons[0].uuid == uuid then Some(neurons[0])
    else FindNeuron(neurons[1..], uuid)
  }

  /** A measurement is recorded when its neuron exists and is not an input neuron. */
  predicate IsRecorded(creature: Creature, data: NeuronData)
  {
    var found := FindNeuron(creature.neurons, data.neuronUuid);
    found.Some? && found.value.neuronType != "input"
  }

  function NeuronRecords(creature: Creature, obsIndex: nat, data: seq<NeuronData>): seq<Record>
  {
    if data == [] then []
    else
      (if IsRecorded(creature, data[0])
       then [Record(obsIndex, FromNeuron(data[0].neuronUuid), data[0].payload)] else [])
      + NeuronRecords(creature, obsIndex, data[1..])
  }

  function BatchRecords(creature: Creature, batch: Batch): seq<Record>
  {
    NeuronRecords(creature, batch.obsIndex, batch.neuronData)
    + seq(|batch.inputs|, i requires 0 <= i < |batch.inputs| =>
        Record(batch.obsIndex, FromInput(i), batch.inputs[i]))
  }

  function RecordCount(creature: Creature, batch: Batch): nat
  {
    |BatchRecords(creature, batch)|
  }

  function TotalCount(creature: Creature, batches: seq<Batch>): nat
  {
    if batches == [] then 0
    else RecordCount(creature, batches[0]) + TotalCount(creature, batches[1..])
  }

  function AllRecords(creature: Creature, batches: seq<Batch>): seq<Record>
  {
    if batches == [] then []
    else BatchRecords(creature, batches[0]) + AllRecords(creature, batches[1..])
  }

  /** The creature has a hidden or output neuron, as `start_session` demands. */
  predicate HasNonInputNeuron(creature: Creature)
  {
    exists i :: 0 <= i < |creature.neurons| && creature.neurons[i].neuronType != "input"
  }

  /** Positions of the measurements that are recorded. */
  ghost function RecordedPositions(creature: Creature, data: seq<NeuronData>): set<nat>
  {
    set i: nat | i < |data| && IsRecorded(creature, data[i])
  }

  lemma {:induction false} NeuronRecordsCount(creature: Creature, obsIndex: nat, data: seq<NeuronData>)
    ensures |NeuronRecords(creature, obsIndex, data)| == |RecordedPositions(creature, data)|
  {
    hide IsRecorded, RecordedPositions;
    if data == [] {
      NothingRecorded(creature);
    } else {
      NeuronRecordsCount(creature, obsIndex, data[1..]);
      PositionsShift(creature, data);
      ShiftedSize(RecordedPositions(creature, data[1..]));
    }
  }

  lemma NothingRecorded(creature: Creature)
    ensures RecordedPositions(creature, []) == {}
  {
  }

  /** The recorded positions are the first, if recorded, and those of the rest, one further on. */
  lemma PositionsShift(creature: Creature, data: seq<NeuronData>)
    requires data != []
    ensures RecordedPositions(creature, data)
         == Shifted(RecordedPositions(creature, data[1..])) + (if IsRecorded(creature, data[0]) then {0} else {})
  {
    hide IsRecorded, Shifted;
    var later := Shifted(RecordedPositions(creature, data[1..]));
    forall i: nat | i > 0 ensures i in RecordedPositions(creature, data) <==> i in later {
      assert i < |data| ==> data[1..][i - 1] == data[i];
      assert i in later <==> (i - 1) in RecordedPositions(creature, data[1..]);
    }
  }

  /** Every member moved up by one. */
  ghost function Shifted(s: set<nat>): (r: set<nat>)
    ensures 0 !in r
    ensures forall i: nat | i > 0 :: i in r <==> (i - 1) in s
  {
    set i | i in s :: i + 1
  }

  lemma {:induction false} ShiftedSize(s: set<nat>)
    ensures |Shifted(s)| == |s|
  {
    hide Shifted;
    if x :| x in s {
      ShiftedSize(s - {x});
      ShiftedWithout(s, x);
    } else {
      NothingShifted(s);
    }
  }

  lemma NothingShifted(s: set<nat>)
    requires s == {}
    ensures Shifted(s) == {}
  {
  }

  lemma ShiftedWithout(s: set<nat>, x: nat)
    requires x in s
    ensures x + 1 in Shifted(s) && Shifted(s - {x}) == Shifted(s) - {x + 1}
  {
  }

  /** A batch counts its recorded (known, non-input) measurements plus its inputs. */
  lemma RecordCountMeaning(creature: Creature, batch: Batch)
    ensures RecordCount(creature, batch)
         == |RecordedPositions(creature, batch.neuronData)| + |batch.inputs|
  {
    NeuronRecordsCount(creature, batch.obsIndex, batch.neuronData);
  }

  lemma {:induction false} AllRecordsLength(creature: Creature, batches: seq<Batch>)
    ensures |AllRecords(creature, batches)| == TotalCount(creature, batches)
  {
    if batches != [] {
      AllRecordsLength(creature, batches[1..]);
    }
  }

  // What the records of a batch are, in terms of the measurements and inputs themselves.

  /** The first neuron of the creature with this uuid exists and is not an input. */
  predicate Recordable(creature: Creature, uuid: string)
  {
    exists i :: (
      && 0 <= i < |creature.neurons| && creature.neurons[i].uuid == uuid
      && creature.neurons[i].neuronType != "input"
      && forall h | 0 <= h < i :: creature.neurons[h].uuid != uuid)
  }

  /** The positions of the measurements of recordable neurons, in order. */
  ghost predicate RecordablePlaces(creature: Creature, data: seq<NeuronData>, places: seq<nat>)
  {
    && (forall k | 0 <= k < |places| :: places[k] < |data|)
    && (forall h, k | 0 <= h < k < |places| :: places[h] < places[k])
    && (forall j: nat | j < |data| :: j in places <==> Recordable(creature, data[j].neuronUuid))
  }

  /**
   First one record for each measurement at these places, with its own uuid and payload, then
   one for each input, with its number and value; all with the batch's observation index.
   */
  ghost predicate RecordedAt(batch: Batch, places: seq<nat>, records: seq<Record>)
  {
    && |records| == |places| + |batch.inputs|
    && (forall k | 0 <= k < |places| ::
          places[k] < |batch.neuronData| &&
          records[k] == Record(batch.obsIndex, FromNeuron(batch.neuronData[places[k]].neuronUuid),
                               batch.neuronData[places[k]].payload))
    && (forall i | 0 <= i < |batch.inputs| ::
          records[|places| + i] == Record(batch.obsIndex, FromInput(i), batch.inputs[i]))
  }

  ghost predicate RecordsOf(creature: Creature, batch: Batch, records: seq<Record>)
  {
    exists places :: RecordablePlaces(creature, batch.neuronData, places) && RecordedAt(batch, places, records)
  }

  lemma {:induction false} FoundIsFirst(neurons: seq<Neuron>, uuid: string)
    ensures var found := FindNeuron(neurons, uuid);
      && (found.Some? ==> exists i :: (
            && 0 <= i < |neurons| && neurons[i].uuid == uuid && found.value == neurons[i]
            && forall h | 0 <= h < i :: neurons[h].uuid != uuid))
      && (found.None? ==> forall i | 0 <= i < |neurons| :: neurons[i].uuid != uuid)
  {
    if neurons != [] && neurons[0].uuid != uuid {
      FoundIsFirst(neurons[1..], uuid);
      var found := FindNeuron(neurons[1..], uuid);
      if found.Some? {
        var i :| 0 <= i < |neurons[1..]| && neurons[1..][i].uuid == uuid && found.value == neurons[1..][i]
          && forall h | 0 <= h < i :: neurons[1..][h].uuid != uuid;
        FirstShifts(neurons, uuid, i);
      } else {
        forall i | 0 <= i < |neurons| ensures neurons[i].uuid != uuid {
          assert i == 0 || neurons[i] == neurons[1..][i - 1];
        }
      }
    }
  }

  lemma FirstShifts(neurons: seq<Neuron>, uuid: string, i: nat)
    requires neurons != [] && neurons[0].uuid != uuid && i < |neurons| - 1
    requires forall h | 0 <= h < i :: neurons[1..][h].uuid != uuid
    ensures neurons[i + 1] == neurons[1..][i] && forall h | 0 <= h < i + 1 :: neurons[h].uuid != uuid
  {
    forall h | 0 <= h < i + 1 ensures neurons[h].uuid != uuid {
      assert h == 0 || neurons[h] == neurons[1..][h - 1];
    }
  }

  lemma RecordedIsRecordable(creature: Creature, data: NeuronData)
    ensures IsRecorded(creature, data) <==> Recordable(creature, data.neuronUuid)
  {
    hide FindNeuron;
    FoundIsFirst(creature.neurons, data.neuronUuid);
  }

  /** The neuron records are those of the recordable measurements, in order. */
  lemma {:induction false} NeuronRecordsPlaces(creature: Creature, obsIndex: nat, data: seq<NeuronData>)
    returns (places: seq<nat>)
    ensures RecordablePlaces(creature, data, places) && |NeuronRecords(creature, obsIndex, data)| == |places|
    ensures forall k | 0 <= k < |places| :: (
      && places[k] < |data|
      && NeuronRecords(creature, obsIndex, data)[k]
           == Record(obsIndex, FromNeuron(data[places[k]].neuronUuid), data[places[k]].payload))
  {
    hide IsRecorded, Recordable;
    if data == [] {
      places := [];
    } else {
      var later := NeuronRecordsPlaces(creature, obsIndex, data[1..]);
      RecordedIsRecordable(creature, data[0]);
      var moved := seq(|later|, k requires 0 <= k < |later| => later[k] + 1);
      places := (if IsRecorded(creature, data[0]) then [0] else []) + moved;
      PlacesShift(creature, data, later, moved, places);
    }
  }

  lemma PlacesShift(creature: Creature, data: seq<NeuronData>, later: seq<nat>, moved: seq<nat>, places: seq<nat>)
    requires data != [] && RecordablePlaces(creature, data[1..], later)
    requires |moved| == |later| && forall k | 0 <= k < |later| :: moved[k] == later[k] + 1
    requires places == (if Recordable(creature, data[0].neuronUuid) then [0] else []) + moved
    ensures RecordablePlaces(creature, data, places)
  {
    hide Recordable;
    forall j: nat | j < |data| ensures j in places <==> Recordable(creature, data[j].neuronUuid) {
      if j > 0 {
        assert data[j] == data[1..][j - 1];
        assert j in places <==> j in moved;
        assert j in moved <==> (j - 1) in later;
      }
    }
  }

  lemma BatchRecordsMean(creature: Creature, batch: Batch)
    ensures RecordsOf(creature, batch, BatchRecords(creature, batch))
  {
    hide NeuronRecords, RecordablePlaces;
    var places := NeuronRecordsPlaces(creature, batch.obsIndex, batch.neuronData);
    assert RecordedAt(batch, places, BatchRecords(creature, batch));
  }

  /** The batch has nothing to record. */
  predicate Unrecorded(creature: Creature, batch: Batch)
  {
    && batch.inputs == []
    && forall j | 0 <= j < |batch.neuronData| :: !Recordable(creature, batch.neuronData[j].neuronUuid)
  }

  lemma UnrecordedMeans(creature: Creature, batch: Batch)
    ensures BatchRecords(creature, batch) == [] <==> Unrecorded(creature, batch)
  {
    hide NeuronRecords, Recordable;
    var places := NeuronRecordsPlaces(creature, batch.obsIndex, batch.neuronData);
    if places != [] {
      assert places[0] in places;
    }
  }

  /** The records of all batches, one batch after the other. */
  ghost predicate RecordsOfAll(creature: Creature, batches: seq<Batch>, records: seq<Record>)
  {
    if batches == [] then records == []
    else exists n: nat :: (
      n <= |records| && RecordsOf(creature, batches[0], records[..n])
      && RecordsOfAll(creature, batches[1..], records[n..]))
  }

  lemma {:induction false} AllRecordsMean(creature: Creature, batches: seq<Batch>)
    ensures RecordsOfAll(creature, batches, AllRecords(creature, batches))
  {
    hide BatchRecords, RecordsOf;
    if batches != [] {
      var first := BatchRecords(creature, batches[0]);
      BatchRecordsMean(creature, batches[0]);
      AllRecordsMean(creature, batches[1..]);
      var all := AllRecords(creature, batches);
      assert all[..|first|] == first && all[|first|..] == AllRecords(creature, batches[1..]);
    }
  }
}
