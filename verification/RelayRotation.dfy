/**
 A room's relay: made on first use, moved to a new one after a kick, and swept once
 nothing uses it (internal/moqrelay/moqrelay.go:85-125, 156-214;
 internal/room/relay.go:39-64). Every call to the store or to the relay service is a
 step of its own; any number of requests, rotations and sweeps run at once.
 */
module RelayRotation {
  import opened Wrappers

  // -------------------------------------------------- the relay in the room's hash

  datatype Stored = Stored(uid: Option<nat>, epoch: nat)

  datatype SwapResult = Swapped(epoch: nat) | RelayMoved

  function Swap(stored: Stored, from: Option<nat>, to: nat): (Stored, SwapResult) {
    if stored.uid != from then (stored, RelayMoved)
    else
      var epoch := if from.None? then stored.epoch else stored.epoch + 1;
      (Stored(Some(to), epoch), Swapped(epoch))
  }

  class RelayFields {
    var uid: Option<nat>
    var epoch: nat

    function View(): Stored
      reads this
    {
      Stored(uid, epoch)
    }

    constructor ()
      ensures View() == Stored(None, 0)
    {
      uid, epoch := None, 0;
    }

    /** SwapRoomRelay: only the first of two concurrent swaps wins. */
    method SwapRoomRelay(from: Option<nat>, to: nat) returns (result: SwapResult)
      modifies this
      ensures (View(), result) == Swap(old(View()), from, to)
    {
      if uid != from {
        return RelayMoved;
      }
      uid := Some(to);
      if from.None? {
        return Swapped(epoch);
      }
      epoch := epoch + 1;
      return Swapped(epoch);
    }
  }

  // ----------------------------------------------------------------- the machine

  const SWEEP_GRACE_MS := 300_000

  datatype Goal = ForRoom | Rotate

  datatype Call =
    | Making(goal: Goal, from: Option<nat>, epoch: nat)
    | Swapping(goal: Goal, from: Option<nat>, epoch: nat, made: nat)
    | Losing(goal: Goal, from: Option<nat>, epoch: nat, made: nat, moved: bool)
    | Rereading(goal: Goal, from: Option<nat>, epoch: nat)
    | Leaving(left: nat, epoch: nat)
    | Answered(uid: nat, epoch: nat)   // ForRoom's relay
    | Moved(left: nat, epoch: nat)     // Rotate's true
    | Refused                          // no relay, or an error

  /** What one sweep listed, and what of it it found to belong to nobody. */
  datatype Sweep = Sweep(listed: set<nat>, condemned: set<nat>)

  /** Relays are numbered as they are created, and remembered in the order the room was on them. */
  datatype State = State(
    now: int, stored: Stored, created: seq<int>, deleted: set<nat>,
    calls: map<nat, Call>, sweeps: map<nat, Sweep>, installed: seq<nat>)

  const START := State(0, Stored(None, 0), [], {}, map[], map[], [])

  datatype Event =
    | Ask(id: nat, goal: Goal)
    | Create(id: nat, ok: bool)
    | SwapStep(id: nat, answered: bool)
    | DropMade(id: nat, ok: bool)
    | Reread(id: nat, ok: bool)
    | DropLeft(id: nat, ok: bool)
    | List(id: nat)
    | Judge(id: nat, uid: nat)
    | Delete(id: nat, uid: nat, ok: bool)
    | Tick(ms: nat)

  function Asked(stored: Stored, goal: Goal): Call {
    match goal
    case ForRoom =>
      if stored.uid.Some? then Answered(stored.uid.value, stored.epoch) else Making(ForRoom, None, stored.epoch)
    case Rotate =>
      if stored.uid.Some? then Making(Rotate, stored.uid, stored.epoch) else Refused
  }

  function AfterMove(goal: Goal, from: Option<nat>, epoch: nat, uid: nat, at: nat): Call {
    if goal == Rotate && from.Some? then Leaving(from.value, epoch) else Answered(uid, at)
  }

  /** The swap script, with its answer: lost, won, or never told. */
  function SwapCall(s: State, id: nat, answered: bool): State
    requires id in s.calls && s.calls[id].Swapping?
  {
    var c := s.calls[id];
    var (stored, result) := Swap(s.stored, c.from, c.made);
    if !answered || result.RelayMoved? then
      s.(calls := s.calls[id := Losing(c.goal, c.from, c.epoch, c.made, answered)])
    else
      s.(stored := stored, installed := s.installed + [c.made],
         calls := s.calls[id := AfterMove(c.goal, c.from, c.epoch, c.made, result.epoch)])
  }

  function Gone(deleted: set<nat>, uid: nat, ok: bool): set<nat> {
    if ok then deleted + {uid} else deleted
  }

  function CallStep(s: State, id: nat, e: Event): State
    requires id in s.calls
  {
    var c := s.calls[id];
    match e
    case Create(_, ok) =>
      if !c.Making? then s
      else if !ok then s.(calls := s.calls[id := Refused])
      else s.(created := s.created + [s.now], calls := s.calls[id := Swapping(c.goal, c.from, c.epoch, |s.created|)])
    case SwapStep(_, answered) => if !c.Swapping? then s else SwapCall(s, id, answered)
    case DropMade(_, ok) =>
      if !c.Losing? then s
      else
        s.(deleted := Gone(s.deleted, c.made, ok),
           calls := s.calls[id := if c.moved then Rereading(c.goal, c.from, c.epoch) else Refused])
    case Reread(_, ok) =>
      if !c.Rereading? then s
      else
        s.(calls := s.calls[id := if ok && s.stored.uid.Some?
                                  then AfterMove(c.goal, c.from, c.epoch, s.stored.uid.value, s.stored.epoch)
                                  else Refused])
    case DropLeft(_, ok) =>
      if !c.Leaving? then s
      else s.(deleted := Gone(s.deleted, c.left, ok), calls := s.calls[id := Moved(c.left, c.epoch)])
    case _ => s
  }

  function Step(s: State, e: Event): State {
    match e
    case Ask(id, goal) => if id in s.calls then s else s.(calls := s.calls[id := Asked(s.stored, goal)])
    case List(id) =>
      if id in s.sweeps then s
      else s.(sweeps := s.sweeps[id := Sweep(set uid | 0 <= uid < |s.created| && uid !in s.deleted, {})])
    case Judge(id, uid) =>
      if id !in s.sweeps || uid !in s.sweeps[id].listed || uid >= |s.created|
         || s.now - s.created[uid] < SWEEP_GRACE_MS || s.stored.uid == Some(uid)
      then s
      else s.(sweeps := s.sweeps[id := s.sweeps[id].(condemned := s.sweeps[id].condemned + {uid})])
    case Delete(id, uid, ok) =>
      if id !in s.sweeps || uid !in s.sweeps[id].condemned then s else s.(deleted := Gone(s.deleted, uid, ok))
    case Tick(ms) => s.(now := s.now + ms)
    case _ => if e.id in s.calls then CallStep(s, e.id, e) else s
  }

  function After(events: seq<Event>, k: nat): State
    requires k <= |events|
  {
    if k == 0 then START else Step(After(events, k - 1), events[k - 1])
  }

  /** The relays made by moves that have yet to install or abandon them are all of recent make. */
  predicate Prompt(s: State) {
    forall id | id in s.calls && s.calls[id].Swapping? && s.calls[id].made < |s.created| ::
      s.now - s.created[s.calls[id].made] < SWEEP_GRACE_MS
  }

  // ---------------------------------------------------------------- what always holds

  predicate InstalledOk(s: State) {
    && (s.installed == [] ==> s.stored == Stored(None, 0))
    && (s.installed != [] ==> s.stored == Stored(Some(s.installed[|s.installed| - 1]), |s.installed| - 1))
    && (forall i | 0 <= i < |s.installed| :: s.installed[i] < |s.created|)
    && (forall i, j | 0 <= i < j < |s.installed| :: s.installed[i] != s.installed[j])
  }

  /** The relays made by moves that have yet to install or abandon them. */
  function Pending(calls: map<nat, Call>): set<nat> {
    set id | id in calls && calls[id].Swapping? :: calls[id].made
  }

  /** Nobody will install this relay: the room is not on it and no move holds it. */
  predicate Done(s: State, uid: nat) {
    uid < |s.created| && s.stored.uid != Some(uid) && uid !in Pending(s.calls)
  }

  /** The room was on this relay at this epoch. */
  predicate WasOn(s: State, uid: nat, epoch: nat) {
    epoch < |s.installed| && s.installed[epoch] == uid
  }

  predicate FromOk(s: State, goal: Goal, from: Option<nat>, epoch: nat) {
    && (from.Some? <==> goal == Rotate)
    && (from.Some? ==> WasOn(s, from.value, epoch))
  }

  predicate CallOk(s: State, c: Call) {
    match c
    case Making(goal, from, epoch) => FromOk(s, goal, from, epoch)
    case Swapping(goal, from, epoch, made) =>
      FromOk(s, goal, from, epoch) && made < |s.created| && made !in s.installed && made !in s.deleted
    case Losing(goal, from, epoch, made, moved) =>
      FromOk(s, goal, from, epoch) && Done(s, made) && (moved ==> s.stored.uid != from)
    case Rereading(goal, from, epoch) => FromOk(s, goal, from, epoch) && s.stored.uid != from
    case Leaving(left, epoch) => WasOn(s, left, epoch) && s.stored.uid != Some(left)
    case Answered(uid, epoch) => WasOn(s, uid, epoch)
    case Moved(left, epoch) => WasOn(s, left, epoch) && s.stored.uid != Some(left)
    case Refused => true
  }

  predicate Apart(s: State) {
    forall a, b | a in s.calls && b in s.calls && s.calls[a].Swapping? && s.calls[b].Swapping?
                  && s.calls[a].made == s.calls[b].made :: a == b
  }

  predicate AllDone(s: State, uids: set<nat>) {
    forall uid | uid in uids :: Done(s, uid)
  }

  predicate SweptOk(s: State) {
    AllDone(s, s.deleted) && forall id | id in s.sweeps :: AllDone(s, s.sweeps[id].condemned)
  }

  predicate Inv(s: State) {
    && InstalledOk(s) && Apart(s) && SweptOk(s)
    && (forall id | id in s.calls :: CallOk(s, s.calls[id]))
  }

  /** The room stays where it is: what one call does by itself. */
  predicate Still(s: State, t: State) {
    && t.stored == s.stored && t.installed == s.installed
    && |s.created| <= |t.created|
    && forall uid | uid in Pending(t.calls) :: uid in Pending(s.calls) || uid >= |s.created|
  }

  lemma DoneStays(s: State, t: State, uids: set<nat>)
    requires AllDone(s, uids) && Still(s, t)
    ensures AllDone(t, uids)
  {
  }

  lemma CallStays(s: State, t: State, c: Call)
    requires CallOk(s, c) && Still(s, t)
    requires c.Swapping? ==> c.made !in t.deleted
    ensures CallOk(t, c)
  {
    if c.Losing? {
      DoneStays(s, t, {c.made});
    }
  }

  /** One call moves on, and perhaps deletes a relay nobody will install. */
  lemma OneCallKeeps(s: State, t: State, id: nat, gone: set<nat>)
    requires Inv(s) && Still(s, t) && InstalledOk(t) && AllDone(s, gone)
    requires id in t.calls && t.calls == s.calls[id := t.calls[id]] && CallOk(t, t.calls[id])
    requires t.calls[id].Swapping? ==> t.calls[id].made >= |s.created|
    requires t.sweeps == s.sweeps && t.deleted <= s.deleted + gone
    ensures Inv(t)
  {
    DoneStays(s, t, s.deleted);
    DoneStays(s, t, gone);
    forall other | other in t.calls && other != id
      ensures CallOk(t, t.calls[other]) && (t.calls[other].Swapping? ==> t.calls[other].made < |s.created|)
    {
      assert CallOk(s, s.calls[other]);
      assert s.calls[other].Swapping? ==> s.calls[other].made in Pending(s.calls);
      CallStays(s, t, s.calls[other]);
    }
    forall sweep | sweep in t.sweeps
      ensures AllDone(t, t.sweeps[sweep].condemned)
    {
      DoneStays(s, t, s.sweeps[sweep].condemned);
    }
  }

  lemma PendingAfter(calls: map<nat, Call>, id: nat, c: Call)
    ensures Pending(calls[id := c]) <= Pending(calls) + if c.Swapping? then {c.made} else {}
  {
  }

  lemma AskKeeps(s: State, e: Event)
    requires Inv(s) && e.Ask? && e.id !in s.calls
    ensures Inv(Step(s, e))
  {
    PendingAfter(s.calls, e.id, Asked(s.stored, e.goal));
    OneCallKeeps(s, Step(s, e), e.id, {});
  }

  lemma CreateKeeps(s: State, e: Event)
    requires Inv(s) && e.Create? && e.id in s.calls && s.calls[e.id].Making?
    ensures Inv(Step(s, e))
  {
    var t := Step(s, e);
    assert CallOk(s, s.calls[e.id]);
    PendingAfter(s.calls, e.id, t.calls[e.id]);
    CreatedIsNew(s);
    OneCallKeeps(s, t, e.id, {});
  }

  lemma CreatedIsNew(s: State)
    requires Inv(s)
    ensures |s.created| !in s.installed && |s.created| !in s.deleted
  {
    forall uid | uid in s.installed
      ensures uid < |s.created|
    {
    }
    forall uid | uid in s.deleted
      ensures uid < |s.created|
    {
      assert Done(s, uid);
    }
  }

  lemma DropMadeKeeps(s: State, e: Event)
    requires Inv(s) && e.DropMade? && e.id in s.calls && s.calls[e.id].Losing?
    ensures Inv(Step(s, e))
  {
    var t := Step(s, e);
    assert CallOk(s, s.calls[e.id]);
    PendingAfter(s.calls, e.id, t.calls[e.id]);
    OneCallKeeps(s, t, e.id, {s.calls[e.id].made});
  }

  lemma RereadKeeps(s: State, e: Event)
    requires Inv(s) && e.Reread? && e.id in s.calls && s.calls[e.id].Rereading?
    ensures Inv(Step(s, e))
  {
    var t := Step(s, e);
    assert CallOk(s, s.calls[e.id]);
    PendingAfter(s.calls, e.id, t.calls[e.id]);
    OneCallKeeps(s, t, e.id, {});
  }

  lemma InstalledIsDone(s: State, uid: nat, epoch: nat)
    requires Inv(s) && WasOn(s, uid, epoch) && s.stored.uid != Some(uid)
    ensures Done(s, uid)
  {
    forall id | id in s.calls && s.calls[id].Swapping?
      ensures s.calls[id].made != uid
    {
      assert CallOk(s, s.calls[id]);
      assert s.installed[epoch] in s.installed;
    }
  }

  lemma DropLeftKeeps(s: State, e: Event)
    requires Inv(s) && e.DropLeft? && e.id in s.calls && s.calls[e.id].Leaving?
    ensures Inv(Step(s, e))
  {
    var t, c := Step(s, e), s.calls[e.id];
    assert CallOk(s, c);
    PendingAfter(s.calls, e.id, t.calls[e.id]);
    InstalledIsDone(s, c.left, c.epoch);
    OneCallKeeps(s, t, e.id, {c.left});
  }

  // ---------------------------------------------------------------------- the swap

  /** Once swapped or lost, a relay is in no other move's hands. */
  lemma NoLongerPending(s: State, id: nat, c: Call)
    requires Apart(s) && id in s.calls && s.calls[id].Swapping? && !c.Swapping?
    ensures s.calls[id].made !in Pending(s.calls[id := c])
    ensures Pending(s.calls[id := c]) <= Pending(s.calls)
  {
  }

  lemma SwapLost(s: State, id: nat, answered: bool)
    requires Inv(s) && id in s.calls && s.calls[id].Swapping? && (!answered || s.stored.uid != s.calls[id].from)
    ensures Inv(SwapCall(s, id, answered))
  {
    var t, c := SwapCall(s, id, answered), s.calls[id];
    assert CallOk(s, c);
    NoLongerPending(s, id, t.calls[id]);
    assert s.installed != [] ==> s.installed[|s.installed| - 1] in s.installed;
    OneCallKeeps(s, t, id, {});
  }

  lemma InstalledAfterSwap(s: State, id: nat)
    requires Inv(s) && id in s.calls && s.calls[id].Swapping? && s.stored.uid == s.calls[id].from
    ensures var t := SwapCall(s, id, true);
            InstalledOk(t) && t.stored.uid == Some(s.calls[id].made) && t.installed == s.installed + [s.calls[id].made]
  {
    assert CallOk(s, s.calls[id]);
    assert forall i | 0 <= i < |s.installed| :: s.installed[i] in s.installed;
  }

  lemma DoneAfterSwap(s: State, id: nat, uids: set<nat>)
    requires Inv(s) && id in s.calls && s.calls[id].Swapping? && s.stored.uid == s.calls[id].from && AllDone(s, uids)
    ensures AllDone(SwapCall(s, id, true), uids)
  {
    NoLongerPending(s, id, SwapCall(s, id, true).calls[id]);
    assert s.calls[id].made in Pending(s.calls);
  }

  lemma OthersAfterSwap(s: State, id: nat, other: nat)
    requires Inv(s) && id in s.calls && s.calls[id].Swapping? && s.stored.uid == s.calls[id].from
    requires other in s.calls && other != id
    ensures CallOk(SwapCall(s, id, true), s.calls[other])
  {
    InstalledAfterSwap(s, id);
    var c := s.calls[other];
    assert CallOk(s, s.calls[id]) && CallOk(s, c);
    assert forall i | 0 <= i < |s.installed| :: s.installed[i] in s.installed;
    if c.Losing? {
      DoneAfterSwap(s, id, {c.made});
    }
  }

  lemma SwapWon(s: State, id: nat)
    requires Inv(s) && id in s.calls && s.calls[id].Swapping? && s.stored.uid == s.calls[id].from
    ensures Inv(SwapCall(s, id, true))
  {
    var t, c := SwapCall(s, id, true), s.calls[id];
    assert CallOk(s, c);
    InstalledAfterSwap(s, id);
    assert s.installed != [] ==> s.installed[|s.installed| - 1] in s.installed;
    DoneAfterSwap(s, id, s.deleted);
    forall other | other in t.calls
      ensures CallOk(t, t.calls[other])
    {
      if other != id { OthersAfterSwap(s, id, other); }
    }
    forall sweep | sweep in t.sweeps
      ensures AllDone(t, t.sweeps[sweep].condemned)
    {
      DoneAfterSwap(s, id, s.sweeps[sweep].condemned);
    }
  }

  // --------------------------------------------------------------------- the sweep

  lemma JudgedIsDone(s: State, uid: nat)
    requires Inv(s) && Prompt(s) && uid < |s.created| && s.now - s.created[uid] >= SWEEP_GRACE_MS
    requires s.stored.uid != Some(uid)
    ensures Done(s, uid)
  {
    forall id | id in s.calls && s.calls[id].Swapping?
      ensures s.calls[id].made != uid
    {
      assert CallOk(s, s.calls[id]);
    }
  }

  lemma QuietKeeps(s: State, t: State)
    requires Inv(s) && Still(s, t) && t.calls == s.calls && t.created == s.created
    requires AllDone(s, t.deleted) && forall sweep | sweep in t.sweeps :: AllDone(s, t.sweeps[sweep].condemned)
    ensures Inv(t)
  {
    DoneStays(s, t, t.deleted);
    forall id | id in t.calls
      ensures CallOk(t, t.calls[id])
    {
      assert CallOk(s, s.calls[id]);
      assert s.calls[id].Swapping? ==> s.calls[id].made in Pending(s.calls);
      CallStays(s, t, s.calls[id]);
    }
    forall sweep | sweep in t.sweeps
      ensures AllDone(t, t.sweeps[sweep].condemned)
    {
      DoneStays(s, t, t.sweeps[sweep].condemned);
    }
  }

  lemma SweepKeeps(s: State, e: Event)
    requires Inv(s) && Prompt(s) && (e.List? || e.Judge? || e.Delete? || e.Tick?)
    ensures Inv(Step(s, e))
  {
    var t := Step(s, e);
    if e.Judge? && t != s {
      JudgedIsDone(s, e.uid);
    }
    if e.Delete? && t != s {
      assert AllDone(s, s.sweeps[e.id].condemned);
    }
    QuietKeeps(s, t);
  }

  lemma InvStep(s: State, e: Event)
    requires Inv(s) && Prompt(s)
    ensures Inv(Step(s, e))
  {
    if Step(s, e) != s {
      match e
      case Ask(_, _) => AskKeeps(s, e);
      case Create(_, _) => CreateKeeps(s, e);
      case SwapStep(id, answered) =>
        if answered && s.stored.uid == s.calls[id].from { SwapWon(s, id); } else { SwapLost(s, id, answered); }
      case DropMade(_, _) => DropMadeKeeps(s, e);
      case Reread(_, _) => RereadKeeps(s, e);
      case DropLeft(_, _) => DropLeftKeeps(s, e);
      case _ => SweepKeeps(s, e);
    }
  }

  lemma {:induction false} InvAlways(events: seq<Event>, k: nat)
    requires k <= |events| && forall j | 0 <= j < k :: Prompt(After(events, j))
    ensures Inv(After(events, k))
  {
    if k > 0 {
      InvAlways(events, k - 1);
      InvStep(After(events, k - 1), events[k - 1]);
    }
  }

  /** The relay a room is on is never deleted, by a losing move, a rotation or a sweep. */
  lemma CurrentIsNeverDeleted(events: seq<Event>, k: nat)
    requires k <= |events| && forall j | 0 <= j < k :: Prompt(After(events, j))
    ensures var s := After(events, k); s.stored.uid.Some? ==> s.stored.uid.value !in s.deleted
  {
    InvAlways(events, k);
  }

  /** The epoch is how many relays the room has left behind, all of them different. */
  lemma EpochCountsTheMoves(events: seq<Event>, k: nat)
    requires k <= |events| && forall j | 0 <= j < k :: Prompt(After(events, j))
    ensures var s := After(events, k);
            && s.stored.epoch == (if s.installed == [] then 0 else |s.installed| - 1)
            && forall i, j | 0 <= i < j < |s.installed| :: s.installed[i] != s.installed[j]
  {
    InvAlways(events, k);
  }

  /** Whoever is told a rotation happened, the room is off the relay it was on then, for good, and at a later epoch. */
  lemma RotatedAway(events: seq<Event>, k: nat, id: nat)
    requires k <= |events| && forall j | 0 <= j < k :: Prompt(After(events, j))
    requires id in After(events, k).calls && After(events, k).calls[id].Moved?
    ensures var s := After(events, k); var c := s.calls[id];
            && WasOn(s, c.left, c.epoch)
            && s.stored.uid.Some? && s.stored.uid.value != c.left && s.stored.epoch > c.epoch
  {
    InvAlways(events, k);
    assert CallOk(After(events, k), After(events, k).calls[id]);
  }

  /** And a relay handed out was the room's own, at the epoch it was handed out with. */
  lemma HandedOutWasInstalled(events: seq<Event>, k: nat, id: nat)
    requires k <= |events| && forall j | 0 <= j < k :: Prompt(After(events, j))
    requires id in After(events, k).calls && After(events, k).calls[id].Answered?
    ensures var s := After(events, k); WasOn(s, s.calls[id].uid, s.calls[id].epoch)
  {
    InvAlways(events, k);
    assert CallOk(After(events, k), After(events, k).calls[id]);
  }

  /** A first relay, made and not yet installed when the grace is over. */
  function Slow(): State {
    State(SWEEP_GRACE_MS, Stored(None, 0), [0], {}, map[0 := Swapping(ForRoom, None, 0, 0)], map[], [])
  }

  lemma SweptWhileSlow()
    ensures var judged := Step(Step(Slow(), List(0)), Judge(0, 0));
            judged == Slow().(sweeps := map[0 := Sweep({0}, {0})])
            && var done := Step(Step(judged, SwapStep(0, true)), Delete(0, 0, true));
               done.stored.uid == Some(0) && 0 in done.deleted
  {
    var s := Slow();
    assert (set uid | 0 <= uid < |s.created| && uid !in s.deleted) == {0};
    var listed := Step(s, List(0));
    assert listed.sweeps[0] == Sweep({0}, {});
    assert listed.sweeps[0].condemned + {0} == {0};
    assert Step(listed, Judge(0, 0)).sweeps == map[0 := Sweep({0}, {0})];
  }

  /** A move slower than the sweep's grace can have its relay condemned before it installs it. */
  lemma ASlowMoveLosesItsRelay()
    ensures var events := [Ask(0, ForRoom), Create(0, true), Tick(SWEEP_GRACE_MS), List(0), Judge(0, 0),
                           SwapStep(0, true), Delete(0, 0, true)];
            var s := After(events, 7);
            s.stored.uid == Some(0) && 0 in s.deleted && !Prompt(After(events, 3))
  {
    var events := [Ask(0, ForRoom), Create(0, true), Tick(SWEEP_GRACE_MS), List(0), Judge(0, 0),
                   SwapStep(0, true), Delete(0, 0, true)];
    assert After(events, 1) == START.(calls := map[0 := Making(ForRoom, None, 0)]);
    assert After(events, 3) == Slow();
    SweptWhileSlow();
    assert After(events, 5) == Step(Step(After(events, 3), List(0)), Judge(0, 0));
    assert After(events, 7) == Step(Step(After(events, 5), SwapStep(0, true)), Delete(0, 0, true));
  }
}
