/**
 How a room's hub hands the controller's position to the orchestrator
 (internal/sync/hub.go:1254-1280): each position sent replaces the one waiting, and a
 goroutine, started when none is running, takes them one by one.
 */
module PositionHandover {
  import opened Wrappers

  class Handover {
    var pending: Option<int>
    var handingOver: bool

    constructor ()
      ensures pending == None && !handingOver
    {
      pending, handingOver := None, false;
    }

    /** handPosition up to starting the goroutine. */
    method HandPosition(positionMs: int) returns (start: bool)
      modifies this
      ensures pending == Some(positionMs) && handingOver && start == !old(handingOver)
    {
      pending := Some(positionMs);
      if handingOver {
        return false;
      }
      handingOver := true;
      start := true;
    }

    /** One locked section of that goroutine; with nothing pending it ends. */
    method TakeNext() returns (next: Option<int>)
      modifies this
      ensures next == old(pending) && pending == None
      ensures handingOver == (old(handingOver) && next.Some?)
    {
      next := pending;
      pending := None;
      if next.None? {
        handingOver := false;
      }
    }
  }

  // ----------------------------------------------------------------- the machine

  datatype Worker = Looping | Delivering(n: nat) | Ended

  /** Positions are named by their place among those sent. */
  datatype State = State(
    sent: seq<int>, pending: Option<nat>, handingOver: bool, workers: seq<Worker>, delivered: seq<nat>)

  const START := State([], None, false, [], [])

  datatype Event = Send(positionMs: int) | Take(worker: nat) | Return(worker: nat)

  function Step(s: State, e: Event): State {
    match e
    case Send(positionMs) =>
      s.(sent := s.sent + [positionMs], pending := Some(|s.sent|), handingOver := true,
         workers := if s.handingOver then s.workers else s.workers + [Looping])
    case Take(w) =>
      if w >= |s.workers| || s.workers[w] != Looping then s
      else if s.pending.None? then s.(handingOver := false, workers := s.workers[w := Ended])
      else
        s.(pending := None, workers := s.workers[w := Delivering(s.pending.value)],
           delivered := s.delivered + [s.pending.value])
    case Return(w) =>
      if w >= |s.workers| || !s.workers[w].Delivering? then s else s.(workers := s.workers[w := Looping])
  }

  function After(events: seq<Event>, k: nat): State
    requires k <= |events|
  {
    if k == 0 then START else Step(After(events, k - 1), events[k - 1])
  }

  /** Only the newest goroutine can be running, and only while the flag says so. */
  predicate OneWorker(s: State) {
    && (forall w | 0 <= w < |s.workers| - 1 :: s.workers[w] == Ended)
    && (s.handingOver <==> s.workers != [] && s.workers[|s.workers| - 1] != Ended)
  }

  predicate Ascending(delivered: seq<nat>) {
    forall i | 0 < i < |delivered| :: delivered[i - 1] < delivered[i]
  }

  /** What waits is the last position sent; if nothing waits, that one was delivered. */
  predicate LastKept(s: State) {
    && (s.pending.Some? ==> s.handingOver && s.sent != [] && s.pending.value == |s.sent| - 1)
    && (s.pending.None? && s.sent != [] ==> s.delivered != [] && s.delivered[|s.delivered| - 1] == |s.sent| - 1)
    && (s.delivered != [] ==>
          && s.delivered[|s.delivered| - 1] < |s.sent|
          && (s.pending.Some? ==> s.delivered[|s.delivered| - 1] < s.pending.value))
  }

  predicate Inv(s: State) {
    OneWorker(s) && Ascending(s.delivered) && LastKept(s)
  }

  lemma InvStep(s: State, e: Event)
    requires Inv(s)
    ensures Inv(Step(s, e))
  {
  }

  lemma {:induction false} InvAlways(events: seq<Event>, k: nat)
    requires k <= |events|
    ensures Inv(After(events, k))
  {
    if k > 0 {
      InvAlways(events, k - 1);
      InvStep(After(events, k - 1), events[k - 1]);
    }
  }

  /** The orchestrator is never called with two positions at once. */
  lemma OneAtATime(events: seq<Event>, k: nat, a: nat, b: nat)
    requires k <= |events|
    requires var workers := After(events, k).workers;
             a < |workers| && b < |workers| && workers[a].Delivering? && workers[b].Delivering?
    ensures a == b
  {
    InvAlways(events, k);
  }

  lemma {:induction false} AscendsThroughout(delivered: seq<nat>, i: nat, j: nat)
    requires Ascending(delivered) && i < j < |delivered|
    ensures delivered[i] < delivered[j]
  {
    if i < j - 1 {
      AscendsThroughout(delivered, i, j - 1);
    }
  }

  /** Positions are delivered in the order they were sent, none twice. */
  lemma InOrder(events: seq<Event>, k: nat, i: nat, j: nat)
    requires k <= |events| && i < j < |After(events, k).delivered|
    ensures After(events, k).delivered[i] < After(events, k).delivered[j]
  {
    InvAlways(events, k);
    AscendsThroughout(After(events, k).delivered, i, j);
  }

  /** Once no goroutine runs, the last position delivered is the last one sent. */
  lemma EndsWithTheLastSent(events: seq<Event>, k: nat)
    requires k <= |events|
    requires var s := After(events, k);
             s.sent != [] && forall w | 0 <= w < |s.workers| :: s.workers[w] == Ended
    ensures var s := After(events, k);
            s.delivered != [] && s.delivered[|s.delivered| - 1] == |s.sent| - 1
  {
    InvAlways(events, k);
  }

  /** And with none sent in between, a goroutine that returns delivers it next and then ends. */
  lemma DeliversTheLastNext(events: seq<Event>, k: nat, w: nat)
    requires k <= |events|
    requires var s := After(events, k); s.sent != [] && w < |s.workers| && s.workers[w] != Ended
    ensures var s := After(events, k);
            var taken := Step(Step(s, Return(w)), Take(w));
            var done := Step(Step(taken, Return(w)), Take(w));
            && done.delivered != [] && done.delivered[|done.delivered| - 1] == |s.sent| - 1
            && !done.handingOver && done.workers[w] == Ended
  {
    InvAlways(events, k);
  }
}
