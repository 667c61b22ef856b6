/**
 The bounded response store: a map and an insertion list updated in place, refining a plain list
 of slots, and the conversations that are continued through it.
 */
module ResponseState {
  import opened Text

  /** A stored response; items are opaque raw JSON. */
  datatype Stored = Stored(owner: string, response: string, requestItems: seq<string>, historyItems: seq<string>)

  /** One entry of the abstract store, oldest first. */
  datatype Slot = Slot(id: string, value: Stored)

  function Ids(slots: seq<Slot>): (ids: seq<string>)
    ensures |ids| == |slots| && forall i :: 0 <= i < |ids| ==> ids[i] == slots[i].id
  {
    seq(|slots|, i requires 0 <= i < |slots| => slots[i].id)
  }

  function Last<T>(s: seq<T>, n: nat): seq<T> {
    if |s| <= n then s else s[|s| - n..]
  }

  /** Where an id is stored, or -1. */
  function Find(slots: seq<Slot>, id: string): (i: int)
    ensures -1 <= i < |slots|
    ensures i >= 0 ==> slots[i].id == id
    ensures i < 0 ==> id !in Ids(slots)
  {
    if slots == [] then -1
    else if slots[|slots| - 1].id == id then |slots| - 1
    else Find(slots[..|slots| - 1], id)
  }

  /** A put: ignored without id or owner or on a foreign id, in place on an own id, appended otherwise. */
  function PutSlot(slots: seq<Slot>, max: nat, id: string, value: Stored): seq<Slot> {
    if id == "" || value.owner == "" then slots
    else
      var i := Find(slots, id);
      if i < 0 then Last(slots + [Slot(id, value)], max)
      else if slots[i].value.owner != value.owner then slots
      else slots[i := Slot(id, value)]
  }

  function GetSlot(slots: seq<Slot>, owner: string, id: string): Option<Stored> {
    if owner == "" || id == "" then None
    else
      var i := Find(slots, id);
      if i < 0 || slots[i].value.owner != owner then None else Some(slots[i].value)
  }

  predicate NoDuplicates<T(==)>(s: seq<T>) {
    forall i, j :: 0 <= i < j < |s| ==> s[i] != s[j]
  }

  lemma {:induction false} FindUnique(slots: seq<Slot>, i: nat)
    requires i < |slots| && NoDuplicates(Ids(slots))
    ensures Find(slots, slots[i].id) == i
  {
  }

  lemma {:induction false} DistinctLength<T>(s: seq<T>)
    requires NoDuplicates(s)
    ensures |set x | x in s| == |s|
  {
    if s != [] {
      var init, x := s[..|s| - 1], s[|s| - 1];
      DistinctLength(init);
      assert s == init + [x];
      assert x !in init;
      assert (set y | y in s) == (set y | y in init) + {x};
    }
  }

  /** The insertion list has no duplicates and lists exactly the stored ids. */
  ghost predicate Indexed(ids: seq<string>, entries: map<string, Stored>) {
    NoDuplicates(ids) && forall id :: id in ids <==> id in entries
  }

  /** The slots that an insertion list and a map stand for. */
  function SlotsOf(ids: seq<string>, entries: map<string, Stored>): (slots: seq<Slot>)
    requires forall i :: 0 <= i < |ids| ==> ids[i] in entries
    ensures |slots| == |ids| && forall i :: 0 <= i < |ids| ==> slots[i] == Slot(ids[i], entries[ids[i]])
  {
    seq(|ids|, i requires 0 <= i < |ids| => Slot(ids[i], entries[ids[i]]))
  }

  /** The map and the list agree on where an id is. */
  lemma {:induction false} FindInSlots(ids: seq<string>, entries: map<string, Stored>, id: string)
    requires Indexed(ids, entries)
    ensures var slots := SlotsOf(ids, entries);
            (Find(slots, id) >= 0 <==> id in entries)
              && (id in entries ==> slots[Find(slots, id)] == Slot(id, entries[id]))
  {
  }

  lemma {:induction false} IndexedSize(ids: seq<string>, entries: map<string, Stored>)
    requires Indexed(ids, entries)
    ensures |entries| == |ids|
  {
    DistinctLength(ids);
    assert entries.Keys == set id | id in ids;
  }

  /** Dropping the oldest id from both leaves the other slots. */
  lemma {:induction false} DropOldest(ids: seq<string>, entries: map<string, Stored>)
    requires Indexed(ids, entries) && ids != []
    ensures Indexed(ids[1..], entries - {ids[0]})
    ensures SlotsOf(ids[1..], entries - {ids[0]}) == SlotsOf(ids, entries)[1..]
  {
  }

  /** Writing an entry, new or known, is appending or replacing its slot. */
  lemma {:induction false} WriteEntry(ids: seq<string>, entries: map<string, Stored>, id: string, value: Stored)
    requires Indexed(ids, entries)
    ensures var ids' := if id in entries then ids else ids + [id];
            var slots := SlotsOf(ids, entries);
            && Indexed(ids', entries[id := value])
            && SlotsOf(ids', entries[id := value])
               == if id in entries then slots[Find(slots, id) := Slot(id, value)] else slots + [Slot(id, value)]
  {
  }

  class ResponseStore {
    var entries: map<string, Stored>
    var insertions: seq<string>
    const maxEntries: nat

    ghost predicate Valid()
      reads this
    {
      maxEntries > 0 && Indexed(insertions, entries) && |insertions| <= maxEntries
    }

    ghost function View(): seq<Slot>
      requires Indexed(insertions, entries)
      reads this
    {
      SlotsOf(insertions, entries)
    }

    constructor (maxEntries: int)
      ensures Valid() && View() == [] && this.maxEntries == if maxEntries <= 0 then 1024 else maxEntries
    {
      this.maxEntries := if maxEntries <= 0 then 1024 else maxEntries;
      entries, insertions := map[], [];
    }

    /** Drop the oldest entries until the store fits. */
    method Evict()
      requires Indexed(insertions, entries) && maxEntries > 0
      modifies this
      ensures Valid() && View() == Last(old(View()), maxEntries)
    {
      hide Indexed, SlotsOf;
      ghost var was := View();
      IndexedSize(insertions, entries);
      while |entries| > maxEntries && |insertions| > 0
        invariant Indexed(insertions, entries) && |entries| == |insertions| <= |was|
        invariant View() == was[|was| - |insertions|..]
        invariant |insertions| < |was| ==> |insertions| >= maxEntries
        decreases |insertions|
      {
        DropOldest(insertions, entries);
        assert was[|was| - |insertions|..][1..] == was[|was| - (|insertions| - 1)..];
        var oldest := insertions[0];
        insertions := insertions[1..];
        entries := entries - {oldest};
        IndexedSize(insertions, entries);
      }
    }

    method Put(id: string, value: Stored)
      requires Valid()
      modifies this
      ensures Valid() && View() == PutSlot(old(View()), maxEntries, id, value)
    {
      if id == "" || value.owner == "" {
        return;
      }
      FindInSlots(insertions, entries, id);
      WriteEntry(insertions, entries, id, value);
      if id in entries {
        if entries[id].owner != value.owner {
          return;
        }
      } else {
        insertions := insertions + [id];
      }
      entries := entries[id := value];
      Evict();
    }

    method Get(owner: string, id: string) returns (r: Option<Stored>)
      requires Valid()
      ensures r == GetSlot(View(), owner, id)
    {
      FindInSlots(insertions, entries, id);
      if owner == "" || id == "" || id !in entries || entries[id].owner != owner {
        return None;
      }
      r := Some(entries[id]);
    }
  }

  /** One call of the store's put. */
  datatype PutCall = PutCall(id: string, value: Stored)

  function RunPuts(puts: seq<PutCall>, max: nat): seq<Slot> {
    if puts == [] then []
    else PutSlot(RunPuts(puts[..|puts| - 1], max), max, puts[|puts| - 1].id, puts[|puts| - 1].value)
  }

  /**
   The ids inserted so far, oldest first: an id is inserted anew when it is not among the last
   `max` insertions. No entry's content plays a part.
   */
  function InsertionLog(puts: seq<PutCall>, max: nat): seq<string> {
    if puts == [] then []
    else
      var log, p := InsertionLog(puts[..|puts| - 1], max), puts[|puts| - 1];
      if p.id == "" || p.value.owner == "" || p.id in Last(log, max) then log else log + [p.id]
  }

  /** The owner's own latest put of an id. */
  predicate LatestOwn(puts: seq<PutCall>, slot: Slot, j: int) {
    0 <= j < |puts| && puts[j] == PutCall(slot.id, slot.value) && slot.id != "" && slot.value.owner != ""
    && forall k :: j < k < |puts| && puts[k].id == slot.id ==> puts[k].value.owner != slot.value.owner
  }

  ghost predicate Recorded(puts: seq<PutCall>, slot: Slot) {
    exists j :: LatestOwn(puts, slot, j)
  }

  /**
   After any run of puts the store holds at most `max` entries, exactly the most recently inserted
   ids in insertion order and without duplicates, each with the latest value its owner gave it.
   */
  lemma {:induction false} StoreIsRecentInsertions(puts: seq<PutCall>, max: nat)
    requires max > 0
    ensures var slots := RunPuts(puts, max);
            && Ids(slots) == Last(InsertionLog(puts, max), max)
            && NoDuplicates(Ids(slots)) && |slots| <= max
            && forall i :: 0 <= i < |slots| ==> Recorded(puts, slots[i])
  {
    hide PutSlot, Ids, Last, NoDuplicates, Recorded;
    if puts == [] {
      NothingInserted(max);
    } else {
      var before, p := puts[..|puts| - 1], puts[|puts| - 1];
      StoreIsRecentInsertions(before, max);
      var was := RunPuts(before, max);
      PutIds(was, InsertionLog(before, max), max, p);
      forall k | 0 <= k < |RunPuts(puts, max)| ensures Recorded(puts, RunPuts(puts, max)[k]) {
        assert before + [p] == puts;
        PutRecorded(before, p, was, k, max);
      }
    }
  }

  lemma {:induction false} NothingInserted(max: nat)
    ensures Ids([]) == Last([], max) && NoDuplicates(Ids([]))
  {
  }

  /** One put's effect on the ids is that of the log. */
  lemma {:induction false} PutIds(was: seq<Slot>, log: seq<string>, max: nat, p: PutCall)
    requires max > 0 && Ids(was) == Last(log, max) && NoDuplicates(Ids(was))
    ensures var slots := PutSlot(was, max, p.id, p.value);
            var inserted := p.id != "" && p.value.owner != "" && p.id !in Last(log, max);
            && Ids(slots) == Last(if inserted then log + [p.id] else log, max)
            && NoDuplicates(Ids(slots)) && |slots| <= max
  {
    var i := Find(was, p.id);
    if i >= 0 {
      assert Ids(was)[i] == p.id;
      assert Ids(PutSlot(was, max, p.id, p.value)) == Ids(was);
    } else if p.id != "" && p.value.owner != "" {
      var grown := was + [Slot(p.id, p.value)];
      assert Ids(grown) == Ids(was) + [p.id];
      LastSnoc(log, p.id, max);
      LastIds(grown, max);
      AppendFresh(Ids(was), p.id, max);
    }
  }

  lemma {:induction false} LastIds(slots: seq<Slot>, n: nat)
    ensures Ids(Last(slots, n)) == Last(Ids(slots), n)
  {
  }

  lemma {:induction false} AppendFresh(ids: seq<string>, id: string, max: nat)
    requires NoDuplicates(ids) && id !in ids
    ensures NoDuplicates(Last(ids + [id], max)) && |Last(ids + [id], max)| <= max
  {
  }

  lemma {:induction false} PutRecorded(before: seq<PutCall>, p: PutCall, was: seq<Slot>, k: nat, max: nat)
    requires NoDuplicates(Ids(was)) && forall i :: 0 <= i < |was| ==> Recorded(before, was[i])
    requires k < |PutSlot(was, max, p.id, p.value)|
    ensures Recorded(before + [p], PutSlot(was, max, p.id, p.value)[k])
  {
    var slots := PutSlot(was, max, p.id, p.value);
    if slots[k] == Slot(p.id, p.value) && p.id != "" && p.value.owner != "" {
      assert LatestOwn(before + [p], slots[k], |before|);
    } else {
      StillRecorded(before, p, was, slots, k, max);
    }
  }

  lemma {:induction false} LastSnoc<T>(s: seq<T>, x: T, n: nat)
    requires n > 0
    ensures Last(s + [x], n) == Last(Last(s, n) + [x], n)
  {
  }

  /** A slot that the last put did not write is recorded as before. */
  lemma {:induction false} StillRecorded(before: seq<PutCall>, p: PutCall, was: seq<Slot>, slots: seq<Slot>, k: nat,
                                         max: nat)
    requires slots == PutSlot(was, max, p.id, p.value) && k < |slots|
    requires slots[k] != Slot(p.id, p.value) || p.id == "" || p.value.owner == ""
    requires NoDuplicates(Ids(was)) && forall i :: 0 <= i < |was| ==> Recorded(before, was[i])
    ensures Recorded(before + [p], slots[k])
  {
    var i :| 0 <= i < |was| && was[i] == slots[k];
    var j :| LatestOwn(before, was[i], j);
    assert LatestOwn(before + [p], slots[k], j) by {
      if p.id == slots[k].id && p.value.owner == slots[k].value.owner {
        FindUnique(was, i);
      }
    }
  }

  /** A put under an id that another owner holds changes nothing, and a get never crosses owners. */
  lemma {:induction false} OwnersIsolated(slots: seq<Slot>, max: nat, i: nat, owner: string, value: Stored)
    requires i < |slots| && NoDuplicates(Ids(slots)) && slots[i].value.owner != owner
    ensures GetSlot(slots, owner, slots[i].id) == None
    ensures value.owner == owner ==> PutSlot(slots, max, slots[i].id, value) == slots
  {
  }
}
