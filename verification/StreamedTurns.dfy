/**
 Streams, the store and the conversations taken together: what a stream leaves in the store, and
 what the histories of conversations held over streams consist of.
 */
module StreamedTurns {
  import opened Text
  import opened StreamLifecycle
  import opened StreamDelivery
  import opened ResponsesStream
  import opened ResponseState
  import opened Conversations

  /** The raw JSON of output items. */
  function Texts(items: seq<Item>, raw: Item -> string): seq<string> {
    seq(|items|, i requires 0 <= i < |items| => raw(items[i]))
  }

  /** What a request's stream leaves to be stored: nothing if the first attempt cannot be opened. */
  function StoredBy(req: Request, upstream: nat -> Attempt, capacity: Option<nat>): Option<seq<Item>> {
    if upstream(0).openErr.None? then StoredFor(req, upstream, capacity) else None
  }

  /** A turn that has begun is answered by a stream and put into the store. */
  method StreamTurn(req: Request, upstream: nat -> Attempt, capacity: Option<nat>, id: string, turn: Pending,
                    raw: Item -> string, store: ResponseStore)
    returns (reached: bool, client: Client)
    requires store.Valid()
    modifies store
    ensures reached == upstream(0).openErr.None? && client.Valid()
    ensures client.Box() == Receive(capacity, Inbox([], false), if reached then FullTrace(req, upstream) else [])
    ensures store.Valid()
    ensures store.View() ==
            match StoredBy(req, upstream, capacity)
            case None => old(store.View())
            case Some(items) => PutSlot(old(store.View()), store.maxEntries, id, Answer(id, turn, Texts(items, raw)))
  {
    hide StoredFor, FullTrace, PutSlot, Receive, Indexed, SlotsOf;
    var stored;
    reached, client, stored := HandleResponsesStream(req, upstream, capacity);
    if stored.Some? {
      store.Put(id, Answer(id, turn, Texts(stored.value, raw)));
    }
  }

  /** For a client that stays, what is stored of an answered stream is the output it has been sent as completed. */
  lemma {:induction false} StayingStored(req: Request, upstream: nat -> Attempt, capacity: Option<nat>)
    requires !Leaves(req, upstream, capacity) && Answered(ScansFrom(req, upstream, 0).report)
    ensures StoredFor(req, upstream, capacity) == Some(OutputOf(FullTrace(req, upstream)))
  {
    hide ScansFrom, Received, HasDone, OnDone, OnCutOff, OnEmpty, OutputOf, FullTrace, Receive, Heard, Leaves, ScanOf,
      Prelude;
    StaysForPrelude(req, upstream, capacity);
    HeardUnlessLeft(req, upstream, capacity);
    ReportOfLast(req, upstream, 0);
    ReportedIsText(req, upstream);
    FinalOutput(req, upstream);
    var outs := ScanOf(req, upstream(LastScan(req, upstream, 0))).outs;
    assert outs[..|outs|] == outs;
  }

  lemma {:induction false} StaysForPrelude(req: Request, upstream: nat -> Attempt, capacity: Option<nat>)
    requires !Leaves(req, upstream, capacity)
    ensures !Receive(capacity, Inbox([], false), Prelude(req)).gone
  {
    hide Receive, ScansFrom, Prelude, Epilogue;
    var s := ScansFrom(req, upstream, 0);
    assert FullTrace(req, upstream) == Prelude(req) + (s.sent + Epilogue(req, s.report));
    ReceiveThen(capacity, Inbox([], false), Prelude(req), s.sent + Epilogue(req, s.report));
  }

  /** A turn begins, or the stream that answers it comes to its end. */
  datatype Activity =
    | TurnBegins(owner: string, previous: string, id: string, request: seq<string>)
    | TurnStreams(id: string, req: Request, upstream: nat -> Attempt, capacity: Option<nat>, raw: Item -> string)

  function OpsOf(activities: seq<Activity>): seq<Op> {
    if activities == [] then []
    else OpsOf(activities[..|activities| - 1]) + OpsFor(activities[|activities| - 1])
  }

  function OpsFor(a: Activity): seq<Op> {
    match a
    case TurnBegins(owner, previous, id, request) => [Begin(owner, previous, id, request)]
    case TurnStreams(id, req, upstream, capacity, raw) =>
      match StoredBy(req, upstream, capacity)
      case None => []
      case Some(items) => [Finish(id, Texts(items, raw))]
  }

  /** Response ids are generated fresh, every request has an owner, and a turn is streamed at most once. */
  ghost predicate FreshTurns(activities: seq<Activity>) {
    && (forall a <- activities :: a.TurnBegins? ==> a.id != "" && a.owner != "")
    && forall i, j :: 0 <= i < j < |activities| && activities[i].TurnBegins? == activities[j].TurnBegins? ==>
                        activities[i].id != activities[j].id
  }

  /** An operation is what some activity does. */
  lemma {:induction false} OpsCome(activities: seq<Activity>, op: Op)
    ensures op in OpsOf(activities) <==> exists a :: a in activities && OpsFor(a) == [op]
  {
    hide StoredBy, OpsFor;
    if activities != [] {
      var front, last := activities[..|activities| - 1], activities[|activities| - 1];
      OpsCome(front, op);
      OneOrNone(last);
      assert activities == front + [last];
    }
  }

  lemma {:induction false} OneOrNone(a: Activity)
    ensures |OpsFor(a)| <= 1
    ensures OpsFor(a) != [] ==> OpsFor(a)[0].Begin? == a.TurnBegins? && OpsFor(a)[0].id == a.id
    ensures a.TurnBegins? ==> OpsFor(a) == [Begin(a.owner, a.previous, a.id, a.request)]
  {
  }

  lemma {:induction false} OpsFresh(activities: seq<Activity>)
    requires FreshTurns(activities)
    ensures Fresh(OpsOf(activities))
  {
    hide OpsFor, Fresh;
    if activities == [] {
      NothingFresh();
    } else {
      var front, last := activities[..|activities| - 1], activities[|activities| - 1];
      OpsFresh(front);
      OneOrNone(last);
      assert last in activities;
      forall op | op in OpsOf(front)
        ensures op.Begin? == last.TurnBegins? ==> op.id != last.id
      {
        OpsCome(front, op);
        var a :| a in front && OpsFor(a) == [op];
        OneOrNone(a);
      }
      FreshExtended(OpsOf(front), OpsFor(last));
    }
  }

  lemma {:induction false} NothingFresh()
    ensures Fresh([])
  {
  }

  lemma {:induction false} FreshExtended(ops: seq<Op>, next: seq<Op>)
    requires Fresh(ops) && |next| <= 1
    requires next != [] ==>
               && (next[0].Begin? ==> next[0].id != "" && next[0].owner != "")
               && forall op <- ops :: op.Begin? == next[0].Begin? ==> op.id != next[0].id
    ensures Fresh(ops + next)
  {
    if next == [] {
      assert ops + next == ops;
    }
  }

  /** The operation that puts what the stream leaves: for a staying client of an answered stream, what it was sent. */
  predicate Puts(a: Activity, op: Op) {
    && a.TurnStreams? && op.Finish? && a.id == op.id
    && var stored := StoredBy(a.req, a.upstream, a.capacity);
    && stored.Some? && op.output == Texts(stored.value, a.raw)
    && (!Leaves(a.req, a.upstream, a.capacity) && Answered(ScansFrom(a.req, a.upstream, 0).report) ==>
          stored.value == OutputOf(FullTrace(a.req, a.upstream)))
  }

  lemma {:induction false} PutsStored(a: Activity, op: Op)
    requires OpsFor(a) == [op] && op.Finish?
    ensures Puts(a, op)
  {
    hide StoredFor, Leaves, Answered, ScansFrom, FullTrace, OutputOf;
    if !Leaves(a.req, a.upstream, a.capacity) && Answered(ScansFrom(a.req, a.upstream, 0).report) {
      StayingStored(a.req, a.upstream, a.capacity);
    }
  }

  lemma {:induction false} OpOf(activities: seq<Activity>, op: Op)
    requires op in OpsOf(activities)
    ensures op.Finish? ==> exists a :: a in activities && Puts(a, op)
    ensures op.Begin? ==> TurnBegins(op.owner, op.previous, op.id, op.request) in activities
  {
    hide OpsOf, OpsFor, Puts;
    OpsCome(activities, op);
    var a :| a in activities && OpsFor(a) == [op];
    OneOrNone(a);
    if op.Finish? {
      PutsStored(a, op);
    }
  }

  /**
   However turns begin and are streamed in between each other, whichever clients leave and whatever
   has been evicted: every stored history is a whole conversation of one owner, and each of its turns
   consists of the items of its request and the output that its own stream has left, which for a
   client that stayed is the output it was sent as completed.
   */
  lemma {:induction false} StreamedConversations(activities: seq<Activity>, max: nat)
    requires FreshTurns(activities)
    ensures var ops := OpsOf(activities);
            && (forall slot <- Run(IDLE, max, ops).slots :: Explained(ops, slot))
            && (forall op <- ops :: op.Finish? ==> exists a :: a in activities && Puts(a, op))
            && (forall op <- ops :: op.Begin? ==> TurnBegins(op.owner, op.previous, op.id, op.request) in activities)
  {
    hide FreshTurns, Fresh, Explained, Puts, Began, OpsOf, Run;
    var ops := OpsOf(activities);
    OpsFresh(activities);
    HistoriesAreConversations(ops, max);
    forall op | op in ops
      ensures op.Finish? ==> exists a :: a in activities && Puts(a, op)
      ensures op.Begin? ==> TurnBegins(op.owner, op.previous, op.id, op.request) in activities
    {
      OpOf(activities, op);
    }
  }
}
