/**
 Conversations continued by `previous_response_id` through the bounded store, with any number of
 turns in progress at once: each stored history is the whole conversation, however many of its
 earlier responses have been evicted and whatever other turns began or ended in between.
 */
module Conversations {
  import opened Text
  import opened ResponseState

  /**
   A request begins: who asks, what it continues, its fresh id, its items. When it has been answered
   it finishes with the output items.
   */
  datatype Op =
    | Begin(owner: string, previous: string, id: string, request: seq<string>)
    | Finish(id: string, output: seq<string>)

  /** A turn in progress: what it read when it began. */
  datatype Pending = Pending(owner: string, request: seq<string>, base: seq<string>)

  datatype Server = Server(slots: seq<Slot>, open: map<string, Pending>)

  const IDLE := Server([], map[])

  function BuildHistory(base: seq<string>, request: seq<string>, output: seq<string>): seq<string> {
    base + request + output
  }

  function Answer(id: string, p: Pending, output: seq<string>): Stored {
    Stored(p.owner, id, p.request, BuildHistory(p.base, p.request, output))
  }

  /** A turn is refused when the response it continues is not found for its owner; it is stored when it finishes. */
  function After(st: Server, max: nat, op: Op): Server {
    match op
    case Begin(owner, previous, id, request) =>
      var found := GetSlot(st.slots, owner, previous);
      if previous != "" && found.None? then st
      else st.(open := st.open[id := Pending(owner, request, if previous == "" then [] else found.value.historyItems)])
    case Finish(id, output) =>
      if id !in st.open then st
      else Server(PutSlot(st.slots, max, id, Answer(id, st.open[id], output)), st.open - {id})
  }

  function Run(st: Server, max: nat, ops: seq<Op>): Server {
    if ops == [] then st else After(Run(st, max, ops[..|ops| - 1]), max, ops[|ops| - 1])
  }

  /** Response ids are generated fresh, every request has an owner, and a request is answered at most once. */
  predicate Fresh(ops: seq<Op>) {
    && (forall i :: 0 <= i < |ops| && ops[i].Begin? ==> ops[i].id != "" && ops[i].owner != "")
    && (forall i, j :: 0 <= i < j < |ops| && ops[i].Begin? && ops[j].Begin? ==> ops[i].id != ops[j].id)
    && (forall i, j :: 0 <= i < j < |ops| && ops[i].Finish? && ops[j].Finish? ==> ops[i].id != ops[j].id)
  }

  /** Where the turn began, among the first `n` operations, or -1. */
  function BeginOf(ops: seq<Op>, n: nat, id: string): (b: int)
    requires n <= |ops|
    ensures -1 <= b < n && (b >= 0 ==> ops[b].Begin? && ops[b].id == id)
    ensures b < 0 ==> forall i :: 0 <= i < n && ops[i].Begin? ==> ops[i].id != id
  {
    if n == 0 then -1 else if ops[n - 1].Begin? && ops[n - 1].id == id then n - 1 else BeginOf(ops, n - 1, id)
  }

  /** Where the turn finished, among the first `n` operations, or -1. */
  function FinishOf(ops: seq<Op>, n: nat, id: string): (m: int)
    requires n <= |ops|
    ensures -1 <= m < n && (m >= 0 ==> ops[m].Finish? && ops[m].id == id)
    ensures m < 0 ==> forall i :: 0 <= i < n && ops[i].Finish? ==> ops[i].id != id
  {
    if n == 0 then -1 else if ops[n - 1].Finish? && ops[n - 1].id == id then n - 1 else FinishOf(ops, n - 1, id)
  }

  /** What the turn that begins at `b` continues: the conversation of a turn that had finished by then. */
  function Base(ops: seq<Op>, b: nat): seq<string>
    requires b < |ops| && ops[b].Begin?
    decreases b
  {
    var m := FinishOf(ops, b, ops[b].previous);
    if ops[b].previous == "" || m < 0 then [] else Conversation(ops, m)
  }

  /** The conversation that ends with the turn that finishes at `n`: all its turns' items, in order. */
  function Conversation(ops: seq<Op>, n: nat): seq<string>
    requires n < |ops| && ops[n].Finish?
    decreases n
  {
    var b := BeginOf(ops, n, ops[n].id);
    if b < 0 then [] else Base(ops, b) + ops[b].request + ops[n].output
  }

  /** The turn that begins at `b` continues nothing, or a conversation of its own owner. */
  predicate OwnBase(ops: seq<Op>, b: nat)
    requires b < |ops| && ops[b].Begin?
    decreases b
  {
    ops[b].previous == "" ||
    var m := FinishOf(ops, b, ops[b].previous);
    m >= 0 && OneOwner(ops, m, ops[b].owner)
  }

  /** All turns of the conversation belong to the owner, and it reaches back to a turn that continues nothing. */
  predicate OneOwner(ops: seq<Op>, n: nat, owner: string)
    requires n < |ops| && ops[n].Finish?
    decreases n
  {
    var b := BeginOf(ops, n, ops[n].id);
    b >= 0 && ops[b].owner == owner && OwnBase(ops, b)
  }

  lemma {:induction false} SearchStable(ops: seq<Op>, k: nat, n: nat, id: string)
    requires n <= k <= |ops|
    ensures BeginOf(ops[..k], n, id) == BeginOf(ops, n, id) && FinishOf(ops[..k], n, id) == FinishOf(ops, n, id)
    decreases n
  {
    if n > 0 {
      SearchStable(ops, k, n - 1, id);
    }
  }

  /** Later operations do not change what a turn continues. */
  lemma {:induction false} BaseStable(ops: seq<Op>, k: nat, b: nat)
    requires b < k <= |ops| && ops[b].Begin?
    ensures Base(ops[..k], b) == Base(ops, b) && OwnBase(ops[..k], b) == OwnBase(ops, b)
    decreases b
  {
    SearchStable(ops, k, b, ops[b].previous);
    var m := FinishOf(ops, b, ops[b].previous);
    if m >= 0 {
      ConversationStable(ops, k, m, ops[b].owner);
    }
  }

  /** Nor a conversation. */
  lemma {:induction false} ConversationStable(ops: seq<Op>, k: nat, n: nat, owner: string)
    requires n < k <= |ops| && ops[n].Finish?
    ensures Conversation(ops[..k], n) == Conversation(ops, n) && OneOwner(ops[..k], n, owner) == OneOwner(ops, n, owner)
    decreases n
  {
    SearchStable(ops, k, n, ops[n].id);
    var b := BeginOf(ops, n, ops[n].id);
    if b >= 0 {
      BaseStable(ops, k, b);
    }
  }

  predicate Explains(ops: seq<Op>, n: int, slot: Slot) {
    0 <= n < |ops| && ops[n].Finish? && ops[n].id == slot.id
    && slot.value.historyItems == Conversation(ops, n) && OneOwner(ops, n, slot.value.owner)
  }

  ghost predicate Explained(ops: seq<Op>, slot: Slot) {
    exists n :: Explains(ops, n, slot)
  }

  /** A turn in progress has read what it continues. */
  predicate Began(ops: seq<Op>, id: string, p: Pending) {
    var b := BeginOf(ops, |ops|, id);
    b >= 0 && p == Pending(ops[b].owner, ops[b].request, Base(ops, b)) && OwnBase(ops, b)
  }

  ghost predicate Good(ops: seq<Op>, st: Server) {
    && NoDuplicates(Ids(st.slots))
    && (forall i :: 0 <= i < |st.slots| ==> Explained(ops, st.slots[i]))
    && forall id :: id in st.open ==> Began(ops, id, st.open[id])
  }

  lemma {:induction false} FreshPart(ops: seq<Op>)
    requires ops != [] && Fresh(ops)
    ensures Fresh(ops[..|ops| - 1])
  {
  }

  /** What was explained by a part of the operations is explained by all. */
  lemma {:induction false} StillExplained(ops: seq<Op>, slot: Slot)
    requires ops != [] && Explained(ops[..|ops| - 1], slot)
    ensures Explained(ops, slot)
  {
    hide Conversation, OneOwner;
    var n :| Explains(ops[..|ops| - 1], n, slot);
    ConversationStable(ops, |ops| - 1, n, slot.value.owner);
    assert Explains(ops, n, slot);
  }

  lemma {:induction false} StillBegan(ops: seq<Op>, id: string, p: Pending)
    requires ops != [] && Fresh(ops) && Began(ops[..|ops| - 1], id, p)
    ensures Began(ops, id, p)
  {
    hide Base, OwnBase;
    var before := ops[..|ops| - 1];
    var b := BeginOf(before, |before|, id);
    SearchStable(ops, |before|, |before|, id);
    BaseStable(ops, |before|, b);
  }

  /** The server's state before the last operation, seen from after it. */
  lemma {:induction false} StillGood(ops: seq<Op>, st: Server)
    requires ops != [] && Fresh(ops) && Good(ops[..|ops| - 1], st)
    ensures Good(ops, st)
  {
    hide Explained, Began, Fresh, NoDuplicates;
    forall i | 0 <= i < |st.slots|
      ensures Explained(ops, st.slots[i])
    {
      StillExplained(ops, st.slots[i]);
    }
    forall id | id in st.open
      ensures Began(ops, id, st.open[id])
    {
      StillBegan(ops, id, st.open[id]);
    }
  }

  /** A turn that begins reads the conversation it continues. */
  lemma {:induction false} BeginReads(ops: seq<Op>, st: Server)
    requires ops != [] && Fresh(ops) && Good(ops[..|ops| - 1], st) && ops[|ops| - 1].Begin?
    requires var op := ops[|ops| - 1]; op.previous == "" || GetSlot(st.slots, op.owner, op.previous).Some?
    ensures var op := ops[|ops| - 1];
            var base := if op.previous == "" then [] else GetSlot(st.slots, op.owner, op.previous).value.historyItems;
            Began(ops, op.id, Pending(op.owner, op.request, base))
  {
    hide Conversation, OneOwner;
    var last := |ops| - 1;
    var op := ops[last];
    if op.previous != "" {
      var slot := st.slots[Find(st.slots, op.previous)];
      assert Explained(ops[..last], slot);
      var n :| Explains(ops[..last], n, slot);
      ConversationStable(ops, last, n, op.owner);
      assert FinishOf(ops, last, op.previous) == n;
    }
  }

  /** A turn that finishes is stored with its conversation. */
  lemma {:induction false} FinishStores(ops: seq<Op>, p: Pending)
    requires ops != [] && Fresh(ops) && ops[|ops| - 1].Finish? && Began(ops[..|ops| - 1], ops[|ops| - 1].id, p)
    ensures var op := ops[|ops| - 1]; Explained(ops, Slot(op.id, Answer(op.id, p, op.output)))
    ensures p.owner != "" && ops[|ops| - 1].id != ""
  {
    hide Base, OwnBase;
    var last := |ops| - 1;
    var op := ops[last];
    SearchStable(ops, last, last, op.id);
    BaseStable(ops, last, BeginOf(ops, last, op.id));
    assert Explains(ops, last, Slot(op.id, Answer(op.id, p, op.output)));
  }

  /** A turn that finishes has not been stored before. */
  lemma {:induction false} NotStoredYet(ops: seq<Op>, slot: Slot)
    requires ops != [] && Fresh(ops) && ops[|ops| - 1].Finish? && Explained(ops[..|ops| - 1], slot)
    ensures slot.id != ops[|ops| - 1].id
  {
    hide Conversation, OneOwner;
    var n :| Explains(ops[..|ops| - 1], n, slot);
    assert ops[n].Finish?;
  }

  /** A put under a fresh id keeps some of the slots and adds its own. */
  lemma {:induction false} AppendsFresh(was: seq<Slot>, max: nat, id: string, value: Stored)
    requires NoDuplicates(Ids(was)) && (forall i :: 0 <= i < |was| ==> was[i].id != id) && id != "" && value.owner != ""
    ensures var slots := PutSlot(was, max, id, value);
            NoDuplicates(Ids(slots)) && forall s <- slots :: s in was || s == Slot(id, value)
  {
  }

  lemma {:induction false} FinishGood(ops: seq<Op>, max: nat, st: Server)
    requires ops != [] && Fresh(ops) && Good(ops[..|ops| - 1], st) && ops[|ops| - 1].Finish?
    ensures Good(ops, After(st, max, ops[|ops| - 1]))
  {
    var op := ops[|ops| - 1];
    StillGood(ops, st);
    forall i | 0 <= i < |st.slots|
      ensures st.slots[i].id != op.id
    {
      NotStoredYet(ops, st.slots[i]);
    }
    hide Explained, Began, NoDuplicates, PutSlot, Ids, Answer;
    if op.id in st.open {
      var value := Answer(op.id, st.open[op.id], op.output);
      FinishStores(ops, st.open[op.id]);
      AnswerOwner(op.id, st.open[op.id], op.output);
      AppendsFresh(st.slots, max, op.id, value);
      var slots := PutSlot(st.slots, max, op.id, value);
      forall i | 0 <= i < |slots|
        ensures Explained(ops, slots[i])
      {
        assert slots[i] in slots;
      }
    }
  }

  lemma {:induction false} AnswerOwner(id: string, p: Pending, output: seq<string>)
    ensures Answer(id, p, output).owner == p.owner
  {
  }

  /**
   However turns begin and end in between each other, and whatever has been evicted, every stored
   history is the concatenation of all turns of its conversation from the first one on, all by one owner.
   */
  lemma {:induction false} HistoriesAreConversations(ops: seq<Op>, max: nat)
    requires Fresh(ops)
    ensures Good(ops, Run(IDLE, max, ops))
  {
    hide Explained, Began, GetSlot, PutSlot, Fresh, Answer;
    if ops != [] {
      var before, op := ops[..|ops| - 1], ops[|ops| - 1];
      var was := Run(IDLE, max, before);
      FreshPart(ops);
      HistoriesAreConversations(before, max);
      StillGood(ops, was);
      if op.Finish? {
        FinishGood(ops, max, was);
      } else if op.previous == "" || GetSlot(was.slots, op.owner, op.previous).Some? {
        BeginReads(ops, was);
      }
    }
  }

  /** A turn in progress keeps what it read while others begin and end. */
  lemma {:induction false} PendingKept(st: Server, max: nat, ops: seq<Op>, id: string)
    requires forall op :: op in ops ==> op.id != id
    ensures id in st.open ==> id in Run(st, max, ops).open && Run(st, max, ops).open[id] == st.open[id]
  {
    hide GetSlot, PutSlot, Answer;
    if ops != [] {
      PendingKept(st, max, ops[..|ops| - 1], id);
      assert ops[|ops| - 1] in ops;
    }
  }

  /**
   A turn that continues a stored response of its own owner is taken, and when it finishes it is stored
   with that history extended, even if the response it continues has been evicted in between.
   */
  lemma {:induction false} ContinuationStored(st: Server, max: nat, start: Op, between: seq<Op>, output: seq<string>)
    requires max > 0 && start.Begin? && start.owner != "" && start.id != ""
    requires start.previous == "" || GetSlot(st.slots, start.owner, start.previous).Some?
    requires forall op :: op in between ==> op.id != start.id
    requires start.id !in Ids(Run(After(st, max, start), max, between).slots)
    ensures var base := if start.previous == "" then []
            else GetSlot(st.slots, start.owner, start.previous).value.historyItems;
            var end := After(Run(After(st, max, start), max, between), max, Finish(start.id, output));
            GetSlot(end.slots, start.owner, start.id)
            == Some(Stored(start.owner, start.id, start.request, base + start.request + output))
  {
    var st1 := After(st, max, start);
    PendingKept(st1, max, between, start.id);
    var st2 := Run(st1, max, between);
    hide Run;
    FoundAfterPut(st2.slots, max, start.id, Answer(start.id, st2.open[start.id], output));
  }

  lemma {:induction false} FoundAfterPut(slots: seq<Slot>, max: nat, id: string, value: Stored)
    requires max > 0 && id != "" && value.owner != "" && id !in Ids(slots)
    ensures GetSlot(PutSlot(slots, max, id, value), value.owner, id) == Some(value)
  {
  }
}
