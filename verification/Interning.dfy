/** The interning index and the interned sets that replace string-keyed ones. */
module Interning {
  import opened Options

  const U32_RANGE: nat := 0x1_0000_0000

  /** The two halves of an index. */
  datatype Table = Table(ids: map<string, nat>, uuids: seq<string>)

  const EMPTY: Table := Table(map[], [])

  /** `len() as u32` truncates. */
  function NextId(t: Table): nat {
    |t.uuids| % U32_RANGE
  }

  function Interned(t: Table, uuid: string): Table {
    if uuid in t.ids then t else Table(t.ids[uuid := NextId(t)], t.uuids + [uuid])
  }

  function InternAll(t: Table, uuids: seq<string>): Table {
    if uuids == [] then t else Interned(InternAll(t, uuids[..|uuids| - 1]), uuids[|uuids| - 1])
  }

  function GetUuid(t: Table, id: nat): Option<string> {
    if id < |t.uuids| then Some(t.uuids[id]) else None
  }

  function GetId(t: Table, uuid: string): Option<nat> {
    if uuid in t.ids then Some(t.ids[uuid]) else None
  }

  /** What every index satisfies, however many strings it holds. */
  predicate Consistent(t: Table) {
    && (forall i | 0 <= i < |t.uuids| :: t.uuids[i] in t.ids && t.ids[t.uuids[i]] == i % U32_RANGE)
    && (forall u | u in t.ids :: u in t.uuids)
    && (forall i, j | 0 <= i < j < |t.uuids| :: t.uuids[i] != t.uuids[j])
  }

  lemma InternIsConsistent(t: Table, uuid: string)
    requires Consistent(t)
    ensures Consistent(Interned(t, uuid))
  {
    var after := Interned(t, uuid);
    forall u | u in after.ids ensures u in after.uuids {
      assert u in t.ids ==> u in t.uuids;
    }
  }

  lemma {:induction false} ReachableIsConsistent(uuids: seq<string>)
    ensures Consistent(InternAll(EMPTY, uuids))
  {
    if uuids != [] {
      ReachableIsConsistent(uuids[..|uuids| - 1]);
      InternIsConsistent(InternAll(EMPTY, uuids[..|uuids| - 1]), uuids[|uuids| - 1]);
    }
  }

  /** The two directions undo each other, and the ids are exactly `0..len`. */
  predicate Bijective(t: Table) {
    && (forall u | u in t.ids :: t.ids[u] < |t.uuids| && GetUuid(t, t.ids[u]) == Some(u))
    && (forall i | 0 <= i < |t.uuids| :: GetId(t, t.uuids[i]) == Some(i))
  }

  /**
   An index is a bijection between the interned strings and `0..len` exactly as long as it
   holds at most 2^32 strings; beyond that the truncated ids repeat, where the documentation
   promises a panic.
   */
  lemma BijectiveExactlyWithinU32(t: Table)
    requires Consistent(t)
    ensures Bijective(t) <==> |t.uuids| <= 4294967296
  {
    if |t.uuids| <= U32_RANGE {
      IdIsPlace(t);
      forall u | u in t.ids ensures t.ids[u] < |t.uuids| && GetUuid(t, t.ids[u]) == Some(u) {
        assert u in t.uuids;
      }
    } else {
      WrapsToZero(t);
    }
  }

  lemma IdIsPlace(t: Table)
    requires Consistent(t) && |t.uuids| <= U32_RANGE
    ensures forall i | 0 <= i < |t.uuids| :: t.uuids[i] in t.ids && t.ids[t.uuids[i]] == i
  {
    forall i | 0 <= i < |t.uuids| ensures t.uuids[i] in t.ids && t.ids[t.uuids[i]] == i {
      assert i % U32_RANGE == i;
    }
  }

  lemma WrapsToZero(t: Table)
    requires Consistent(t) && |t.uuids| > U32_RANGE
    ensures GetId(t, t.uuids[U32_RANGE]) == Some(0)
  {
    assert t.ids[t.uuids[U32_RANGE]] == U32_RANGE % U32_RANGE;
  }

  /** Interning more strings never changes an index that was handed out. */
  lemma {:induction false} IdsNeverChange(t: Table, uuids: seq<string>)
    ensures t.uuids <= InternAll(t, uuids).uuids
    ensures forall u | u in t.ids :: u in InternAll(t, uuids).ids && InternAll(t, uuids).ids[u] == t.ids[u]
    ensures forall u | u in uuids :: u in InternAll(t, uuids).ids
  {
    if uuids != [] {
      IdsNeverChange(t, uuids[..|uuids| - 1]);
      assert forall u | u in uuids :: u in uuids[..|uuids| - 1] || u == uuids[|uuids| - 1];
    }
  }

  lemma InternAllAppend(t: Table, uuids: seq<string>, uuid: string)
    ensures InternAll(t, uuids + [uuid]) == Interned(InternAll(t, uuids), uuid)
  {
    assert (uuids + [uuid])[..|uuids + [uuid]| - 1] == uuids;
  }

  lemma {:induction false} DistinctAreAllInterned(uuids: seq<string>)
    requires forall i, j | 0 <= i < j < |uuids| :: uuids[i] != uuids[j]
    ensures InternAll(EMPTY, uuids).uuids == uuids
  {
    if uuids != [] {
      hide Consistent, Interned;
      var (before, last) := (uuids[..|uuids| - 1], uuids[|uuids| - 1]);
      DistinctAreAllInterned(before);
      ReachableIsConsistent(before);
      NewIsAppended(InternAll(EMPTY, before), last);
      assert uuids == before + [last];
    }
  }

  lemma NewIsAppended(t: Table, uuid: string)
    requires Consistent(t) && uuid !in t.uuids
    ensures Interned(t, uuid).uuids == t.uuids + [uuid]
  {
  }

  /** One string more than 2^32, and the last one shares the index of the first. */
  lemma OneTooManyWrapsAround(uuids: seq<string>)
    requires |uuids| == U32_RANGE + 1 && forall i, j | 0 <= i < j < |uuids| :: uuids[i] != uuids[j]
    ensures var t := InternAll(EMPTY, uuids);
      GetId(t, uuids[U32_RANGE]) == GetId(t, uuids[0]) == Some(0)
  {
    DistinctAreAllInterned(uuids);
    ReachableIsConsistent(uuids);
    var t := InternAll(EMPTY, uuids);
    assert t.uuids[U32_RANGE] in t.ids && t.uuids[0] in t.ids;
  }

  class NeuronIndex {
    var uuidToIndex: map<string, nat>
    var indexToUuid: seq<string>

    function View(): Table
      reads this
    {
      Table(uuidToIndex, indexToUuid)
    }

    constructor ()
      ensures View() == EMPTY
    {
      uuidToIndex, indexToUuid := map[], [];
    }

    method Intern(uuid: string) returns (id: nat)
      modifies this
      ensures View() == Interned(old(View()), uuid)
      ensures GetId(View(), uuid) == Some(id)
    {
      if uuid in uuidToIndex { return uuidToIndex[uuid]; }
      id := |indexToUuid| % U32_RANGE;
      uuidToIndex := uuidToIndex[uuid := id];
      indexToUuid := indexToUuid + [uuid];
    }

    method Clear()
      modifies this
      ensures View() == EMPTY
    {
      uuidToIndex, indexToUuid := map[], [];
    }
  }
}
