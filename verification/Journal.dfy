/** The event journal: what can be rebuilt from it, and how clients page through it
    (src/store.rs, src/api.rs). */
module Journal {
  import opened Domain
  import opened Orders
  import opened Database

  /** What a reader of the journal can know. */
  datatype Projection = Projection(
    intents: map<IntentId, TradeIntentStatus>,
    executions: map<IntentId, LiveStatus>,
    killSwitch: bool)

  /** The intent status that goes with an execution status. */
  function IntentStatusOf(live: LiveStatus): TradeIntentStatus {
    match live
    case Pending => TradeIntentStatus.Approved
    case EntrySubmitting => Submitting
    case EntryFilled => Executing
    case Protecting => Executing
    case EmergencyClosing => Executing
    case Protected => Completed
    case _ => TradeIntentStatus.Failed
  }

  /** Approval is announced only by the creation of the execution, and some events change nothing. */
  function Apply(p: Projection, event: Event): Projection {
    match event
    case IntentReceived(id) => p.(intents := p.intents[id := Received])
    case IntentMoved(id, status) => p.(intents := p.intents[id := status])
    case ExecutionCreated(id, _, _) => Moved(p, id, Pending)
    case EntryClaimed(id) => Moved(p, id, EntrySubmitting)
    case ExecutionMoved(id, live) => Moved(p, id, live)
    case KillSwitchSet(enabled) => p.(killSwitch := enabled)
    case _ => p
  }

  function Moved(p: Projection, id: IntentId, live: LiveStatus): Projection {
    p.(intents := p.intents[id := IntentStatusOf(live)], executions := p.executions[id := live])
  }

  function Replay(journal: seq<Event>): Projection {
    if journal == [] then Projection(map[], map[], false)
    else Apply(Replay(journal[..|journal| - 1]), journal[|journal| - 1])
  }

  ghost function ProjectionOf(db: Tables): Projection {
    Projection(
      map id | id in db.intents :: db.intents[id].status,
      map id | id in db.executions :: db.executions[id].status,
      db.killSwitch)
  }

  /** Folding the journal from the start gives exactly the current statuses and kill switch. */
  ghost predicate Replayable(db: Tables) {
    Replay(db.journal) == ProjectionOf(db)
  }

  lemma ReplayOne(journal: seq<Event>, event: Event)
    ensures Replay(journal + [event]) == Apply(Replay(journal), event)
  {
    assert (journal + [event])[..|journal|] == journal;
  }

  lemma ReplayTwo(journal: seq<Event>, first: Event, second: Event)
    ensures Replay(journal + [first, second]) == Apply(Apply(Replay(journal), first), second)
  {
    ReplayOne(journal, first);
    ReplayOne(journal + [first], second);
    AppendTwo(journal, first, second);
  }

  lemma AppendTwo(journal: seq<Event>, first: Event, second: Event)
    ensures journal + [first, second] == journal + [first] + [second]
  {
  }

  // ---------- Paging ----------

  const MAX_PAGE: nat := 500

  function Min(a: nat, b: nat): nat { if a <= b then a else b }

  /** The events behind a cursor, at most `limit` and at most five hundred of them. */
  function EventsAfter(journal: seq<Event>, after: nat, limit: nat): seq<Event> {
    if after >= |journal| then []
    else journal[after..after + Min(Min(limit, MAX_PAGE), |journal| - after)]
  }

  /** The page of the HTTP interface, with its next cursor: negative cursors start at zero and at least
      one event is asked for. */
  function EventPage(journal: seq<Event>, after: int, limit: nat): (seq<Event>, nat) {
    var start := if after < 0 then 0 else after;
    var events := EventsAfter(journal, start, if limit == 0 then 1 else limit);
    (events, if events == [] then start else start + |events|)
  }

  /** A page holds the events directly behind the cursor: as many as are there, as were asked for, and at
      most five hundred, whichever is least. It is empty exactly when nothing is behind the cursor, and
      the next page starts where it ends. */
  lemma PageProgress(journal: seq<Event>, after: int, limit: nat)
    ensures var (events, cursor) := EventPage(journal, after, limit);
            var asked := if limit > 0 then limit else 1;
            && |events| <= 500 && |events| <= asked
            && (events == [] <==> after >= |journal| || (after < 0 && journal == []))
            && (events != [] ==>
                  0 <= cursor - |events| <= cursor <= |journal| && events == journal[cursor - |events|..cursor])
            && (events != [] ==> if after >= 0 then cursor == after + |events| else cursor == |events|)
            && (events == [] ==> if after >= 0 then cursor == after else cursor == 0)
            && (|events| < 500 && |events| < asked ==> cursor >= |journal|)
  {
  }

  /** One request of a client: the journal as it is at that moment, and the limit asked for. */
  datatype Request = Request(journal: seq<Event>, limit: nat)

  /** Nothing is ever removed from the journal between two requests. */
  ghost predicate Growing(requests: seq<Request>) {
    forall i, j | 0 <= i <= j < |requests| :: requests[i].journal <= requests[j].journal
  }

  /** Follows the next cursor from request to request, collecting what is received: exactly the
      journal behind the start, in order, without gap or duplicate, up to the cursor reached; all of it
      once a page comes back empty. */
  method FollowCursor(start: nat, requests: seq<Request>)
    returns (received: seq<Event>, cursor: nat, lastPage: seq<Event>)
    requires Growing(requests) && requests != []
    ensures var journal := requests[|requests| - 1].journal;
            && (start <= |journal| ==> start <= cursor <= |journal| && received == journal[start..cursor])
            && (start > |journal| ==> received == [] && cursor == start)
            && (start <= |journal| && lastPage == [] ==> received == journal[start..])
  {
    received, cursor, lastPage := [], start, [];
    for i := 0 to |requests|
      invariant i == 0 ==> received == [] && cursor == start
      invariant i > 0 ==> ReceivedUpTo(requests[i - 1].journal, start, received, cursor, lastPage)
    {
      var journal := requests[i].journal;
      if i > 0 {
        assert requests[i - 1].journal <= journal;
      }
      lastPage := EventPage(journal, cursor, requests[i].limit).0;
      cursor := EventPage(journal, cursor, requests[i].limit).1;
      received := received + lastPage;
    }
  }

  ghost predicate ReceivedUpTo(journal: seq<Event>, start: nat, received: seq<Event>, cursor: nat,
      lastPage: seq<Event>) {
    && (start <= |journal| ==> start <= cursor <= |journal| && received == journal[start..cursor])
    && (start > |journal| ==> received == [] && cursor == start)
    && (lastPage == [] ==> cursor >= |journal|)
  }
}
