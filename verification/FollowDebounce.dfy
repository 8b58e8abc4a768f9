/**
 The debounce in front of a room's next run (internal/worker/remux.go:446-484, 525-533):
 a position that needs a run inside the window is parked, and a timer replays the
 newest one parked. Entries with nothing held are pruned as others are asked about.
 */
module FollowDebounce {
  import opened Wrappers

  datatype RoomId = RoomId(text: string)

  /** Armed until its time; fired once its callback is on its way, which no stop can call back. */
  datatype Timer = Idle | Armed(at: int) | Fired

  datatype Held = Held(last: Option<int>, pending: Option<int>, timer: Timer)

  const BLANK := Held(None, None, Idle)

  type Follows = map<RoomId, Held>

  predicate Within(last: Option<int>, now: int, debounce: int) {
    last.Some? && now - last.value < debounce
  }

  predicate Prunable(held: Held, now: int, debounce: int) {
    held.timer == Idle && !Within(held.last, now, debounce)
  }

  function Pruned(follows: Follows, now: int, debounce: int): Follows {
    map room | room in follows && !Prunable(follows[room], now, debounce) :: follows[room]
  }

  /** Pruned, but for the rooms not looked at yet. */
  function PrunedBut(follows: Follows, now: int, debounce: int, todo: set<RoomId>): Follows {
    map room | room in follows && (room in todo || !Prunable(follows[room], now, debounce)) :: follows[room]
  }

  lemma PrunesNext(follows: Follows, now: int, debounce: int, todo: set<RoomId>, room: RoomId)
    requires room in todo && room in follows
    ensures var before := PrunedBut(follows, now, debounce, todo);
            && room in before && before[room] == follows[room]
            && PrunedBut(follows, now, debounce, todo - {room}) ==
               if Prunable(follows[room], now, debounce) then before - {room} else before
  {
  }

  function HeldFor(follows: Follows, room: RoomId): Held {
    if room in follows then follows[room] else BLANK
  }

  /** What one position makes of a room's entry, and whether it may act now. */
  function Judged(held: Held, now: int, debounce: int, position: int): (Held, bool) {
    if Within(held.last, now, debounce) then
      (held.(pending := Some(position),
             timer := if held.timer == Idle then Armed(held.last.value + debounce) else held.timer),
       false)
    else (held.(last := Some(now), pending := None), true)
  }

  function Admit(follows: Follows, now: int, debounce: int, room: RoomId, position: int): (Follows, bool) {
    var kept := Pruned(follows, now, debounce);
    var (held, ok) := Judged(HeldFor(kept, room), now, debounce, position);
    (kept[room := held], ok)
  }

  lemma SetTwice(follows: Follows, room: RoomId, first: Held, second: Held)
    ensures follows[room := first][room := second] == follows[room := second]
  {
  }

  // -------------------------------------------------------------- the code itself

  class FollowState {
    ghost const room: RoomId
    var last: Option<int>
    var pending: Option<int>
    var timer: Timer

    function View(): Held
      reads this
    {
      Held(last, pending, timer)
    }

    constructor (ghost room: RoomId)
      ensures View() == BLANK && this.room == room
    {
      this.room := room;
      last, pending, timer := None, None, Idle;
    }

    method Judge(now: int, debounce: int, position: int) returns (ok: bool)
      modifies this
      ensures (View(), ok) == Judged(old(View()), now, debounce, position)
    {
      if last.Some? && now - last.value < debounce {
        var since := now - last.value;
        pending := Some(position);
        if timer == Idle {
          timer := Armed(now + (debounce - since));
        }
        return false;
      }
      last := Some(now);
      pending := None;
      return true;
    }

    /** The timer's callback, under the orchestrator's lock: what was parked, to be followed again. */
    method RunTimer() returns (replay: Option<int>)
      modifies this
      ensures View() == old(View()).(timer := Idle, pending := None) && replay == old(pending)
    {
      timer := Idle;
      replay := pending;
      pending := None;
    }
  }

  class Debounce {
    const debounce: int
    var follows: map<RoomId, FollowState>
    ghost var repr: set<FollowState>

    ghost predicate Valid()
      reads this, repr
    {
      forall room | room in follows :: follows[room] in repr && follows[room].room == room
    }

    ghost function View(): Follows
      reads this, repr
      requires Valid()
    {
      map room | room in follows :: follows[room].View()
    }

    constructor (debounce: int)
      ensures Valid() && View() == map[] && this.debounce == debounce && fresh(repr)
    {
      this.debounce, follows, repr := debounce, map[], {};
    }

    method Prune(now: int)
      requires Valid()
      modifies this`follows
      ensures Valid() && View() == Pruned(old(View()), now, debounce)
    {
      var todo := follows.Keys;
      while todo != {}
        invariant Valid() && todo <= follows.Keys && todo <= old(follows.Keys)
        invariant View() == PrunedBut(old(View()), now, debounce, todo)
        decreases |todo|
      {
        var room :| room in todo;
        PrunesNext(old(View()), now, debounce, todo, room);
        PruneOne(room, now);
        todo := todo - {room};
      }
    }

    method PruneOne(room: RoomId, now: int)
      requires Valid() && room in follows
      modifies this`follows
      ensures Valid() && follows.Keys >= old(follows.Keys) - {room}
      ensures View() == if Prunable(old(View())[room], now, debounce) then old(View()) - {room} else old(View())
    {
      var held := follows[room];
      if held.timer == Idle && (held.last.None? || now - held.last.value >= debounce) {
        follows := follows - {room};
      }
    }

    /** The room's entry, made if there is none. */
    method Entry(room: RoomId) returns (state: FollowState)
      requires Valid()
      modifies this`follows, this`repr
      ensures Valid() && fresh(repr - old(repr)) && old(repr) <= repr && room in follows && follows[room] == state
      ensures View() == old(View())[room := HeldFor(old(View()), room)] && state.View() == HeldFor(old(View()), room)
    {
      if room !in follows {
        var blank := new FollowState(room);
        follows := follows[room := blank];
        repr := repr + {blank};
      }
      state := follows[room];
    }

    /** admitFollow. */
    method AdmitFollow(now: int, room: RoomId, position: int) returns (ok: bool)
      requires Valid()
      modifies this, repr
      ensures Valid() && fresh(repr - old(repr))
      ensures (View(), ok) == Admit(old(View()), now, debounce, room, position)
    {
      Prune(now);
      ghost var kept := View();
      var state := Entry(room);
      SetTwice(kept, room, HeldFor(kept, room), Judged(HeldFor(kept, room), now, debounce, position).0);
      ok := JudgeEntry(state, now, room, position);
    }

    method JudgeEntry(state: FollowState, now: int, room: RoomId, position: int) returns (ok: bool)
      requires Valid() && room in follows && follows[room] == state
      modifies state
      ensures Valid()
      ensures View() == old(View())[room := Judged(old(state.View()), now, debounce, position).0]
      ensures ok == Judged(old(state.View()), now, debounce, position).1
    {
      ok := state.Judge(now, debounce, position);
      assert forall other | other in follows && other != room :: follows[other] != state;
    }

    /** What CancelRoom does first; a callback already on its way keeps the entry it was made for. */
    method Cancel(room: RoomId) returns (left: Option<FollowState>)
      requires Valid()
      modifies this`follows
      ensures Valid() && View() == old(View()) - {room}
      ensures left == if room in old(follows) then Some(old(follows)[room]) else None
    {
      left := if room in follows then Some(follows[room]) else None;
      follows := follows - {room};
    }
  }

  // ----------------------------------------------------------------- the machine

  datatype Event =
    | Tick(ms: nat)
    | Ask(room: RoomId, position: int)
    | Fire(room: RoomId)
    | Callback(room: RoomId)
    | CancelRoom(room: RoomId)
    | Stray(n: nat)   // the callback of an entry cancelled meanwhile

  /** The rule itself: when each room last moved, and the newest position it still owes. */
  datatype Plain = Plain(last: map<RoomId, int>, owed: map<RoomId, int>)

  datatype Replay = Replay(room: RoomId, position: int)

  datatype State = State(
    now: int, follows: Follows, strays: seq<Replay>, replayed: seq<Replay>, plain: Plain)

  const START := State(0, map[], [], [], Plain(map[], map[]))

  predicate PlainAdmits(plain: Plain, now: int, debounce: int, room: RoomId) {
    room !in plain.last || now - plain.last[room] >= debounce
  }

  function PlainAsked(plain: Plain, now: int, debounce: int, room: RoomId, position: int): Plain {
    if PlainAdmits(plain, now, debounce, room) then Plain(plain.last[room := now], plain.owed - {room})
    else plain.(owed := plain.owed[room := position])
  }

  function Step(s: State, debounce: int, e: Event): State {
    match e
    case Tick(ms) => s.(now := s.now + ms)
    case Ask(room, position) =>
      s.(follows := Admit(s.follows, s.now, debounce, room, position).0,
         plain := PlainAsked(s.plain, s.now, debounce, room, position))
    case Fire(room) =>
      if room !in s.follows || !s.follows[room].timer.Armed? || s.now < s.follows[room].timer.at then s
      else s.(follows := s.follows[room := s.follows[room].(timer := Fired)])
    case Callback(room) =>
      if room !in s.follows || s.follows[room].timer != Fired then s
      else
        var held := s.follows[room];
        s.(follows := s.follows[room := held.(timer := Idle, pending := None)],
           replayed := if held.pending.Some? then s.replayed + [Replay(room, held.pending.value)] else s.replayed,
           plain := s.plain.(owed := s.plain.owed - {room}))
    case CancelRoom(room) =>
      var held := HeldFor(s.follows, room);
      s.(follows := s.follows - {room},
         strays := if held.timer == Fired && held.pending.Some? then s.strays + [Replay(room, held.pending.value)]
                   else s.strays,
         plain := Plain(s.plain.last - {room}, s.plain.owed - {room}))
    case Stray(n) =>
      if n >= |s.strays| then s
      else s.(strays := s.strays[..n] + s.strays[n + 1..], replayed := s.replayed + [s.strays[n]])
  }

  datatype Run = Run(debounce: int, events: seq<Event>) {
    function At(k: nat): State
      requires k <= |events|
    {
      if k == 0 then START else Step(At(k - 1), debounce, events[k - 1])
    }

    /** What the debounce answers the k-th event, when that asks about a position. */
    predicate Admitted(k: nat, room: RoomId)
      requires k < |events|
    {
      && events[k].Ask? && events[k].room == room
      && Admit(At(k).follows, At(k).now, debounce, room, events[k].position).1
    }

    predicate Refused(k: nat, room: RoomId)
      requires k < |events|
    {
      events[k].Ask? && events[k].room == room && !Admitted(k, room)
    }
  }

  // ------------------------------------------------- what pruning and timers preserve

  /** An entry says of its room what the plain rule does; no entry says the room is free to move and owes nothing. */
  predicate Agrees(follows: Follows, plain: Plain, now: int, debounce: int, room: RoomId) {
    && (room in follows ==>
          && follows[room].last.Some? && follows[room].last.value <= now
          && room in plain.last && plain.last[room] == follows[room].last.value
          && (follows[room].pending.Some? <==> room in plain.owed)
          && (room in plain.owed ==> follows[room].pending == Some(plain.owed[room])))
    && (room !in follows ==> PlainAdmits(plain, now, debounce, room) && room !in plain.owed)
  }

  /** A parked position has a timer on its way, due no later than the window closes. */
  predicate Timed(held: Held, debounce: int) {
    && (held.pending.Some? ==> held.timer != Idle)
    && (held.timer.Armed? && held.last.Some? ==> held.timer.at <= held.last.value + debounce)
  }

  predicate RoomOk(s: State, debounce: int, room: RoomId) {
    Agrees(s.follows, s.plain, s.now, debounce, room) && Timed(HeldFor(s.follows, room), debounce)
  }

  lemma AskKeeps(s: State, debounce: int, e: Event, room: RoomId)
    requires debounce > 0 && e.Ask? && RoomOk(s, debounce, e.room) && RoomOk(s, debounce, room)
    ensures RoomOk(Step(s, debounce, e), debounce, room)
  {
    var kept := Pruned(s.follows, s.now, debounce);
    if room in s.follows && room !in kept {
      assert Prunable(s.follows[room], s.now, debounce);
    }
  }

  lemma RoomStep(s: State, debounce: int, e: Event, room: RoomId)
    requires debounce > 0 && RoomOk(s, debounce, room) && (e.Ask? ==> RoomOk(s, debounce, e.room))
    ensures RoomOk(Step(s, debounce, e), debounce, room)
  {
    if e.Ask? {
      AskKeeps(s, debounce, e, room);
    }
  }

  lemma {:induction false} RoomAlways(run: Run, k: nat, room: RoomId)
    requires run.debounce > 0 && k <= |run.events|
    ensures RoomOk(run.At(k), run.debounce, room)
  {
    if k > 0 {
      RoomAlways(run, k - 1, room);
      if run.events[k - 1].Ask? {
        RoomAlways(run, k - 1, run.events[k - 1].room);
      }
      RoomStep(run.At(k - 1), run.debounce, run.events[k - 1], room);
    }
  }

  /** Timers and pruning never show: a position acts now exactly when the room has not moved within the debounce. */
  lemma AnswersAsThePlainRule(run: Run, k: nat, room: RoomId)
    requires run.debounce > 0 && k < |run.events| && run.events[k].Ask? && run.events[k].room == room
    ensures run.Admitted(k, room) <==> PlainAdmits(run.At(k).plain, run.At(k).now, run.debounce, room)
  {
    RoomAlways(run, k, room);
  }

  /** A parked position always has a timer on its way to replay it, due by the time the window closes. */
  lemma ParkedIsTimed(run: Run, k: nat, room: RoomId)
    requires run.debounce > 0 && k <= |run.events| && room in run.At(k).plain.owed
    ensures var s := run.At(k);
            && room in s.plain.last && room in s.follows && s.follows[room].pending == Some(s.plain.owed[room])
            && (s.follows[room].timer == Fired
                || (s.follows[room].timer.Armed? && s.follows[room].timer.at <= s.plain.last[room] + run.debounce))
  {
    RoomAlways(run, k, room);
  }

  // ---------------------------------------------------- nothing parked goes missing

  predicate ConcernsRoom(e: Event, room: RoomId) {
    && (e.Ask? || e.CancelRoom?) && e.room == room
  }

  /** Until the room is asked about again or cancelled, a position parked is still held or has been replayed. */
  lemma {:induction false} ParkedOrReplayed(run: Run, j: nat, k: nat, room: RoomId)
    requires run.debounce > 0 && j < k <= |run.events| && run.Refused(j, room)
    requires forall i | j < i < k :: !ConcernsRoom(run.events[i], room)
    ensures var s := run.At(k); var position := run.events[j].position;
            || (room in s.follows && s.follows[room].pending == Some(position) && s.follows[room].timer != Idle)
            || Replay(room, position) in s.replayed
  {
    if k > j + 1 {
      ParkedOrReplayed(run, j, k - 1, room);
      HeldStep(run.At(k - 1), run.debounce, run.events[k - 1], room, run.events[j].position);
    } else {
      RoomAlways(run, k, room);
    }
  }

  lemma HeldStep(s: State, debounce: int, e: Event, room: RoomId, position: int)
    requires !ConcernsRoom(e, room)
    requires || (room in s.follows && s.follows[room].pending == Some(position) && s.follows[room].timer != Idle)
             || Replay(room, position) in s.replayed
    ensures var t := Step(s, debounce, e);
            || (room in t.follows && t.follows[room].pending == Some(position) && t.follows[room].timer != Idle)
            || Replay(room, position) in t.replayed
  {
    var t := Step(s, debounce, e);
    if Replay(room, position) in s.replayed {
      assert s.replayed <= t.replayed;
      var n :| 0 <= n < |s.replayed| && s.replayed[n] == Replay(room, position);
      assert t.replayed[n] == s.replayed[n];
    } else if e == Callback(room) && s.follows[room].timer == Fired {
      assert t.replayed[|s.replayed|] == Replay(room, position);
    }
  }

  // ------------------------------------------------------- admissions are apart

  lemma {:induction false} ClockRuns(run: Run, j: nat, k: nat)
    requires j <= k <= |run.events|
    ensures run.At(j).now <= run.At(k).now
  {
    if j < k {
      ClockRuns(run, j, k - 1);
    }
  }

  lemma {:induction false} LastMoveRemembered(run: Run, j: nat, k: nat, room: RoomId)
    requires run.debounce > 0 && j < k <= |run.events| && run.Admitted(j, room)
    requires forall i | j < i < k :: run.events[i] != CancelRoom(room)
    ensures room in run.At(k).plain.last && run.At(k).plain.last[room] >= run.At(j).now
  {
    if k > j + 1 {
      LastMoveRemembered(run, j, k - 1, room);
      ClockRuns(run, j, k - 1);
    } else {
      AnswersAsThePlainRule(run, j, room);
    }
  }

  /** Between two runs dispatched for a room that was not cancelled, the whole debounce passes. */
  lemma AdmissionsAreApart(run: Run, j: nat, k: nat, room: RoomId)
    requires run.debounce > 0 && j < k < |run.events| && run.Admitted(j, room) && run.Admitted(k, room)
    requires forall i | j < i < k :: run.events[i] != CancelRoom(room)
    ensures run.At(k).now - run.At(j).now >= run.debounce
  {
    LastMoveRemembered(run, j, k, room);
    AnswersAsThePlainRule(run, k, room);
  }

  /** A room cancelled may move at once, and be moved again by a callback that was already on its way. */
  lemma CancelForgets(run: Run, k: nat, room: RoomId, position: int)
    requires run.debounce > 0 && k < |run.events| && run.events[k] == CancelRoom(room)
    ensures var s := run.At(k + 1);
            && Admit(s.follows, s.now, run.debounce, room, position).1
            && (s.strays != run.At(k).strays <==>
                  room in run.At(k).plain.owed && HeldFor(run.At(k).follows, room).timer == Fired)
  {
    RoomAlways(run, k, room);
  }

  // --------------------------------------------- the rule, by what was asked alone

  /** Acted on at `j`, and the room not cancelled since. */
  predicate ActedAt(run: Run, room: RoomId, j: nat, k: nat)
    requires k <= |run.events|
  {
    j < k && run.Admitted(j, room) && forall i | j < i < k :: run.events[i] != CancelRoom(room)
  }

  lemma PlainStep(s: State, debounce: int, e: Event, room: RoomId)
    ensures var t := Step(s, debounce, e);
            if e.Ask? && e.room == room && PlainAdmits(s.plain, s.now, debounce, room)
            then room in t.plain.last && t.plain.last[room] == s.now
            else if e == CancelRoom(room) then room !in t.plain.last
            else (room in t.plain.last <==> room in s.plain.last)
                 && (room in s.plain.last ==> t.plain.last[room] == s.plain.last[room])
  {
  }

  /** The room last moved when it was last acted on. */
  lemma {:induction false} LastActed(run: Run, k: nat, room: RoomId) returns (j: nat)
    requires run.debounce > 0 && k <= |run.events| && room in run.At(k).plain.last
    ensures ActedAt(run, room, j, k) && run.At(j).now == run.At(k).plain.last[room]
  {
    j := k - 1;
    PlainStep(run.At(j), run.debounce, run.events[j], room);
    if run.events[j].Ask? && run.events[j].room == room {
      AnswersAsThePlainRule(run, j, room);
    }
    if !run.Admitted(j, room) {
      j := LastActed(run, j, room);
    }
  }

  /**
   A position is acted on if and only if none was acted on less than the debounce ago,
   counting from the room's last cancel.
   */
  lemma AdmittedExactly(run: Run, k: nat, room: RoomId)
    requires run.debounce > 0 && k < |run.events| && run.events[k].Ask? && run.events[k].room == room
    ensures run.Admitted(k, room) <==>
            forall j: nat | ActedAt(run, room, j, k) :: run.At(k).now - run.At(j).now >= run.debounce
  {
    AnswersAsThePlainRule(run, k, room);
    if run.Admitted(k, room) {
      forall j: nat | ActedAt(run, room, j, k)
        ensures run.At(k).now - run.At(j).now >= run.debounce
      {
        AdmissionsAreApart(run, j, k, room);
      }
    } else {
      var j := LastActed(run, k, room);
    }
  }

  /** Until the room is asked about again, cancelled or replayed, it owes the position parked last. */
  lemma {:induction false} OwesTheNewest(run: Run, j: nat, k: nat, room: RoomId)
    requires run.debounce > 0 && j < k <= |run.events| && run.Refused(j, room)
    requires forall i | j < i < k :: !ConcernsRoom(run.events[i], room) && run.events[i] != Callback(room)
    ensures var owed := run.At(k).plain.owed; room in owed && owed[room] == run.events[j].position
  {
    if k > j + 1 {
      OwesTheNewest(run, j, k - 1, room);
    } else {
      AnswersAsThePlainRule(run, j, room);
    }
  }

  /** Once the window is over the timer fires, and what is replayed is the newest position parked. */
  lemma ReplaysTheNewest(run: Run, j: nat, k: nat, room: RoomId)
    requires run.debounce > 0 && j < k <= |run.events| && run.Refused(j, room)
    requires forall i | j < i < k :: !ConcernsRoom(run.events[i], room) && run.events[i] != Callback(room)
    requires forall i: nat | ActedAt(run, room, i, k) :: run.At(k).now - run.At(i).now >= run.debounce
    ensures var s := run.At(k);
            Step(Step(s, run.debounce, Fire(room)), run.debounce, Callback(room)).replayed
            == s.replayed + [Replay(room, run.events[j].position)]
  {
    OwesTheNewest(run, j, k, room);
    ParkedIsTimed(run, k, room);
    var i := LastActed(run, k, room);
  }
}
