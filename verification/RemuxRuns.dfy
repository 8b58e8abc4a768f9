/**
 One room's remote remux runs (internal/worker/remux.go:384-444, 486-514, 549-727):
 Follow replaces the run at an uncovered position, heartbeats report on runs, and a
 run reported lost is restarted by a goroutine of its own. All of these hold the
 room's lock from end to end; the runs' own publishes hold nothing and fall between
 reading the room, moving the fence, saving the record and dispatching.
 */
module RemuxRuns {
  import opened Wrappers
  import opened RoomStore
  import Publish

  datatype RunState = Starting | Accepted | Running | Draining | Cancelling | Completed | Cancelled | Failed

  predicate Terminal(state: RunState) {
    state == Completed || state == Cancelled || state == Failed
  }

  /** Runs are numbered as they are minted; a production is a start and all that replaced its run. */
  datatype Record = Record(
    run: nat, production: nat, region: nat, startMs: int, restarts: nat, state: RunState, producedMs: nat)

  const FOLLOW_AHEAD_MS := 45_000
  const FOLLOW_BEHIND_MS := 1_000
  const MAX_RUN_RESTARTS := 2

  // ------------------------------------------------------------------- coverage

  function Max(a: int, b: int): int {
    if a > b then a else b
  }

  predicate CoveredBy(n: nat, region: Region, run: Record, positionMs: int) {
    var end := region.startMs + region.producedMs;
    && positionMs >= region.startMs - FOLLOW_BEHIND_MS
    && positionMs <= if region.growing || (n == run.region && !Terminal(run.state))
                     then Max(end, run.startMs + run.producedMs) + FOLLOW_AHEAD_MS else end
  }

  /** The run itself covers what it will soon produce, before it has a region to show. */
  predicate CoveredByRun(none: bool, run: Record, positionMs: int) {
    && (none || run.state == Starting || run.state == Accepted)
    && run.startMs - FOLLOW_BEHIND_MS <= positionMs <= run.startMs + run.producedMs + FOLLOW_AHEAD_MS
  }

  predicate Covered(regions: map<nat, Region>, run: Record, positionMs: int) {
    || (exists n | n in regions :: CoveredBy(n, regions[n], run, positionMs))
    || CoveredByRun(regions == map[], run, positionMs)
  }

  /** A listing holds each region of the map, and nothing else. */
  ghost predicate Holds(listed: seq<Publish.Listed>, regions: map<nat, Region>) {
    && (forall r | r in listed :: r.n in regions && regions[r.n] == r.region)
    && (forall n | n in regions :: Publish.Listed(n, regions[n]) in listed)
  }

  method CoveredByRegions(listed: seq<Publish.Listed>, run: Record, positionMs: int, ghost regions: map<nat, Region>)
    returns (covered: bool)
    requires Holds(listed, regions)
    ensures covered <==> Covered(regions, run, positionMs)
  {
    for i := 0 to |listed|
      invariant forall j | 0 <= j < i :: !CoveredBy(listed[j].n, listed[j].region, run, positionMs)
    {
      var region := listed[i].region;
      var end := region.startMs + region.producedMs;
      var forward := end;
      if region.growing || (listed[i].n == run.region && !Terminal(run.state)) {
        forward := Max(end, run.startMs + run.producedMs) + FOLLOW_AHEAD_MS;
      }
      if positionMs >= region.startMs - FOLLOW_BEHIND_MS && positionMs <= forward {
        assert listed[i] in listed && CoveredBy(listed[i].n, regions[listed[i].n], run, positionMs);
        return true;
      }
    }
    forall n | n in regions
      ensures !CoveredBy(n, regions[n], run, positionMs)
    {
      var j :| 0 <= j < |listed| && listed[j] == Publish.Listed(n, regions[n]);
    }
    assert |listed| == 0 <==> regions == map[] by {
      if |listed| > 0 { assert listed[0] in listed; }
    }
    if |listed| == 0 || run.state == Starting || run.state == Accepted {
      var aim := run.startMs;
      if positionMs >= aim - FOLLOW_BEHIND_MS && positionMs <= aim + run.producedMs + FOLLOW_AHEAD_MS {
        return true;
      }
    }
    return false;
  }

  predicate IsHighest(regions: map<nat, Region>, floor: nat, top: nat) {
    && top >= floor && (forall n | n in regions :: n <= top)
    && (top == floor || top in regions)
  }

  method HighestRegion(listed: seq<Publish.Listed>, floor: nat, ghost regions: map<nat, Region>) returns (top: nat)
    requires Holds(listed, regions)
    ensures IsHighest(regions, floor, top)
  {
    top := floor;
    for i := 0 to |listed|
      invariant top >= floor && (top == floor || top in regions)
      invariant forall j | 0 <= j < i :: listed[j].n <= top
    {
      if listed[i].n > top {
        assert listed[i] in listed;
        top := listed[i].n;
      }
    }
    forall n | n in regions
      ensures n <= top
    {
      var j :| 0 <= j < |listed| && listed[j] == Publish.Listed(n, regions[n]);
    }
  }

  /** A run on its way covers its own start, whatever gets listed meanwhile. */
  lemma StartIsCovered(regions: map<nat, Region>, run: Record)
    requires run.state == Starting || run.state == Accepted
    ensures Covered(regions, run, run.startMs)
  {
  }

  // ---------------------------------------------- what a follow covers in error

  /** What a listed region has. */
  predicate ListedReaches(regions: map<nat, Region>, positionMs: int) {
    exists n | n in regions ::
      regions[n].startMs - FOLLOW_BEHIND_MS <= positionMs <= regions[n].startMs + regions[n].producedMs
  }

  /** What a run that has produced nothing yet is worth waiting for. */
  predicate WillReach(startMs: int, positionMs: int) {
    startMs - FOLLOW_BEHIND_MS <= positionMs <= startMs + FOLLOW_AHEAD_MS
  }

  function AfterFollow(before: Record, id: nat, startMs: nat, top: nat): Record {
    FollowRun(before, id, startMs, top).(state := Accepted)
  }

  /** A region still marked growing, though its run was told to stop, counts up to the new run's edge. */
  predicate OverGrown(regions: map<nat, Region>, before: Record, startMs: nat, positionMs: int) {
    exists n | n in regions :: OverGrownBy(regions[n], before, startMs, positionMs)
  }

  predicate OverGrownBy(region: Region, before: Record, startMs: nat, positionMs: int) {
    && region.growing && positionMs >= region.startMs - FOLLOW_BEHIND_MS
    && positionMs <= Max(region.startMs + region.producedMs, startMs + before.producedMs) + FOLLOW_AHEAD_MS
  }

  /**
   Right after a follow, a position that no listed region has and no run will reach
   counts as covered in exactly two cases: it is within what the replaced run had
   produced beyond the new one's look-ahead, or behind a region still marked growing.
   */
  lemma CoveredInErrorExactly(regions: map<nat, Region>, before: Record, id: nat, startMs: nat, top: nat,
                              positionMs: int)
    requires IsHighest(regions, before.region, top)
    requires !ListedReaches(regions, positionMs) && !WillReach(startMs, positionMs)
    ensures Covered(regions, AfterFollow(before, id, startMs, top), positionMs) <==>
            || startMs + FOLLOW_AHEAD_MS < positionMs <= startMs + before.producedMs + FOLLOW_AHEAD_MS
            || OverGrown(regions, before, startMs, positionMs)
  {
    var next := AfterFollow(before, id, startMs, top);
    forall n | n in regions
      ensures CoveredBy(n, regions[n], next, positionMs) <==> OverGrownBy(regions[n], before, startMs, positionMs)
    {
    }
  }

  /** A growing region behind the new run makes everything between them count, whatever is or is not produced there. */
  lemma GapCounts(regions: map<nat, Region>, before: Record, id: nat, startMs: nat, top: nat, n: nat, positionMs: int)
    requires n in regions && regions[n].growing
    requires regions[n].startMs <= positionMs <= startMs
    ensures Covered(regions, AfterFollow(before, id, startMs, top), positionMs)
  {
    assert CoveredBy(n, regions[n], AfterFollow(before, id, startMs, top), positionMs);
  }

  /**
   A minute in, the host seeks to the hour and then back to the half hour: not covered
   before the first seek, covered after it, with or without a length carried over, so
   the second seek does nothing.
   */
  lemma SeekBackIsIgnored(producedMs: nat, s: State, top: nat)
    requires producedMs == 60_000 || producedMs == 0
    requires s.regions == map[0 := Region(0, 60_000, true)]
    requires s.record == Some(AfterFollow(Record(0, 0, 0, 0, 0, Running, producedMs), 1, 3_600_000, 0))
    ensures var before := Record(0, 0, 0, 0, 0, Running, producedMs);
            && IsHighest(s.regions, before.region, 0)
            && !Covered(s.regions, before, 1_800_000) && !Covered(s.regions, before, 3_600_000)
            && !ListedReaches(s.regions, 1_800_000) && !WillReach(3_600_000, 1_800_000)
    ensures Step(s, Follow(1_800_000, top)) == s
  {
    GapCounts(s.regions, Record(0, 0, 0, 0, 0, Running, producedMs), 1, 3_600_000, 0, 0, 1_800_000);
  }

  // ----------------------------------------------------------------- the machine

  /** A publish in flight: whose it is, and the regions it read. */
  datatype Load = Load(run: nat, known: map<nat, Region>)

  datatype Kind = Following | Restarting

  datatype Phase = ReadRoom | Fenced | Saved

  datatype Op = Free | Acting(kind: Kind, before: Record, next: Record, phase: Phase)

  /** What a run is for as long as it lasts. */
  datatype Identity = Identity(production: nat, region: nat, startMs: int, restarts: nat)

  datatype Restart = Restart(lost: nat, production: nat)

  datatype State = State(
    regions: map<nat, Region>, claimed: bool, fence: Option<nat>, record: Option<Record>,
    ids: seq<Identity>, productions: nat,
    dispatched: set<nat>,          // runs sent to a worker under the current claim
    loads: map<nat, Load>, op: Op,
    retries: multiset<Record>,     // goroutines started by reports, each with its copy, until it has the lock
    restarted: seq<Restart>)       // restarts that succeeded

  datatype Event =
    | Start(startMs: nat, fenced: bool, ok: bool, started: bool, released: bool, deleted: bool, kept: bool)
    | Follow(positionMs: nat, top: nat)
    | Retry(lost: Record, top: nat)
    | MoveFence(ok: bool, released: bool, kept: bool)
    | SaveRun(ok: bool, released: bool, kept: bool)
    | Dispatch(ok: bool, started: bool, released: bool, kept: bool)
    | GiveUp(released: bool, kept: bool)
    | Report(run: nat, state: RunState, producedMs: nat, released: bool, kept: bool)
    | Cancel(released: bool, deleted: bool)
    | LoadRoom(id: nat, run: nat)
    | CommitRegions(id: nat, own: Option<Region>)
    | Complete(run: nat, released: bool)         // a last publish gives the claim back
    | Elsewhere(regions: map<nat, Region>)       // whoever else publishes while the claim is not ours

  function Init(regions: map<nat, Region>): State {
    State(regions, false, None, None, [], 0, {}, map[], Free, multiset{}, [])
  }

  function IdentityOf(r: Record): Identity {
    Identity(r.production, r.region, r.startMs, r.restarts)
  }

  /** A store call that failed leaves the record as it was. */
  function Kept(s: State, r: Record, kept: bool): State {
    if kept then s.(record := Some(r)) else s
  }

  function Released(s: State, released: bool): State {
    if released then s.(claimed := false, fence := None) else s
  }

  function RoomFailed(s: State, r: Record, released: bool, kept: bool): State {
    Kept(Released(s, released), r.(state := Failed), kept).(op := Free)
  }

  /** What Follow or a restart does when a step of it fails. */
  function Abandoned(s: State, released: bool, kept: bool): State
    requires s.op.Acting?
  {
    if s.op.kind == Following then s.(op := Free) else RoomFailed(s, s.op.before, released, kept)
  }

  predicate Resumes(regions: map<nat, Region>, lost: Record) {
    lost.region in regions && regions[lost.region].producedMs > 0
  }

  function FollowRun(run: Record, id: nat, positionMs: nat, top: nat): Record {
    run.(run := id, region := top + 1, startMs := positionMs, state := Starting)
  }

  function RestartRun(regions: map<nat, Region>, lost: Record, id: nat, top: nat): Record {
    var next := lost.(run := id, restarts := lost.restarts + 1, state := Starting, producedMs := 0);
    if Resumes(regions, lost) then
      next.(region := top + 1, startMs := regions[lost.region].startMs + regions[lost.region].producedMs)
    else next
  }

  function Began(s: State, kind: Kind, before: Record, next: Record): State {
    s.(ids := s.ids + [IdentityOf(next)], op := Acting(kind, before, next, ReadRoom))
  }

  /** The goroutine has had its turn. */
  function Retried(s: State, lost: Record): State {
    s.(retries := s.retries - multiset{lost})
  }

  function Started(s: State, startMs: nat, fenced: bool): (State, Record) {
    var run := Record(|s.ids|, s.productions, 0, startMs, 0, Starting, 0);
    (s.(ids := s.ids + [IdentityOf(run)], productions := s.productions + 1, claimed := true,
        fence := if fenced then Some(run.run) else s.fence),
     run)
  }

  /** What a start leaves once its worker took the run, or refused it; a run refused may still have started. */
  function AfterStart(t: State, run: Record, ok: bool, started: bool, released: bool, deleted: bool, kept: bool)
    : State
  {
    if ok then Kept(t.(dispatched := {run.run}, record := Some(run)), run.(state := Accepted), kept)
    else
      Released(t.(dispatched := if started then {run.run} else {}, record := if deleted then None else Some(run)),
               released)
  }

  /** A restart taken is one more that succeeded. */
  function Logged(s: State, op: Op): seq<Restart>
    requires op.Acting?
  {
    if op.kind == Restarting then s.restarted + [Restart(op.before.run, op.before.production)] else s.restarted
  }

  function Sent(s: State, run: nat, started: bool): State {
    if started then s.(dispatched := s.dispatched + {run}) else s
  }

  function Dispatched(s: State, ok: bool, started: bool, released: bool, kept: bool): State
    requires s.op.Acting?
  {
    var next := s.op.next;
    if ok then
      Kept(s.(dispatched := s.dispatched + {next.run},
              restarted := Logged(s, s.op), op := Free),
           next.(state := Accepted), kept)
    else if s.op.kind == Following then Kept(Sent(s, next.run, started).(op := Free), next.(state := Failed), kept)
    else RoomFailed(Kept(Sent(s, next.run, started), next.(state := Failed), kept), s.op.before, released, kept)
  }

  function Reported(s: State, current: Record, state: RunState, producedMs: nat, released: bool, kept: bool): State {
    var run := current.(state := state, producedMs := producedMs);
    if state != Failed then Kept(s, run, kept)
    else if run.restarts < MAX_RUN_RESTARTS then Kept(s, run, kept).(retries := s.retries + multiset{run})
    else RoomFailed(s, run, released, kept)
  }

  /** The regions a publish of this run stores: its own, if its master is held, and the others it read. */
  function WithOwn(known: map<nat, Region>, region: nat, own: Option<Region>): map<nat, Region> {
    var others := Publish.Settled(known, {region});
    if own.Some? then others[region := own.value] else others
  }

  predicate Accepts(s: State, run: nat) {
    s.claimed && run in s.dispatched && (s.fence.None? || s.fence == Some(run))
  }

  function Step(s: State, e: Event): State {
    match e
    case Start(startMs, fenced, ok, started, released, deleted, kept) =>
      if s.op != Free || s.claimed || (s.record.Some? && !Terminal(s.record.value.state)) then s
      else
        var (t, run) := Started(s, startMs, fenced);
        AfterStart(t, run, ok, started, released, deleted, kept)
    case Follow(positionMs, top) =>
      if s.op != Free || s.record.None? then s
      else
        var run := s.record.value;
        if (Terminal(run.state) && run.state != Completed) || Covered(s.regions, run, positionMs)
           || !IsHighest(s.regions, run.region, top)
        then s
        else Began(s, Following, run, FollowRun(run, |s.ids|, positionMs, top))
    case Retry(lost, top) =>
      if s.op != Free || lost !in s.retries then s
      else if s.record.None? || s.record.value.run != lost.run then Retried(s, lost)
      else if !IsHighest(s.regions, lost.region, top) then s
      else Began(Retried(s, lost), Restarting, lost, RestartRun(s.regions, lost, |s.ids|, top))
    case MoveFence(ok, released, kept) =>
      if !s.op.Acting? || s.op.phase != ReadRoom then s
      else if !ok then Abandoned(s, released, kept)
      else s.(fence := Some(s.op.next.run), op := s.op.(phase := Fenced))
    case SaveRun(ok, released, kept) =>
      if !s.op.Acting? || s.op.phase != Fenced then s
      else if !ok then Abandoned(s, released, kept)
      else s.(record := Some(s.op.next), op := s.op.(phase := Saved))
    case Dispatch(ok, started, released, kept) =>
      if !s.op.Acting? || s.op.phase != Saved || (s.op.kind == Restarting && !ok && started && !released) then s
      else Dispatched(s, ok, started, released, kept)
    case GiveUp(released, kept) =>
      if !s.op.Acting? || s.op.phase != (if s.op.kind == Following then Saved else ReadRoom) then s
      else Abandoned(s, released, kept)
    case Report(run, state, producedMs, released, kept) =>
      if s.op != Free || s.record.None? || s.record.value.run != run then s
      else Reported(s, s.record.value, state, producedMs, released, kept)
    case Cancel(released, deleted) =>
      if s.op != Free || s.record.None? then s
      else Released(s, released).(record := if deleted then None else s.record)
    case LoadRoom(id, run) =>
      if id in s.loads || run !in s.dispatched then s else s.(loads := s.loads[id := Load(run, s.regions)])
    case CommitRegions(id, own) =>
      if id !in s.loads || !Accepts(s, s.loads[id].run) || s.loads[id].run >= |s.ids| then s
      else
        var load := s.loads[id];
        var regions := WithOwn(load.known, s.ids[load.run].region, own);
        s.(fence := Some(load.run), loads := s.loads - {id},
           regions := if regions == load.known then s.regions else regions)
    case Complete(run, released) =>
      if !s.claimed || run !in s.dispatched then s else Released(s, released)
    case Elsewhere(regions) => if s.claimed then s else s.(regions := regions)
  }

  datatype Run = Run(regions: map<nat, Region>, events: seq<Event>) {
    function At(k: nat): State
      requires k <= |events|
    {
      if k == 0 then Init(regions) else Step(At(k - 1), events[k - 1])
    }
  }

  // -------------------------------------------------------- what runs are known as

  predicate Known(s: State, r: Record) {
    && r.run < |s.ids| && s.ids[r.run] == IdentityOf(r)
    && r.restarts <= MAX_RUN_RESTARTS && r.production < s.productions
  }

  predicate OpKnown(s: State, op: Op) {
    op.Acting? ==>
      && Known(s, op.before) && Known(s, op.next)
      && op.before.run != op.next.run && op.next.run !in s.dispatched
      && op.before.production == op.next.production && op.next.state == Starting
      && op.next.restarts == op.before.restarts + (if op.kind == Restarting then 1 else 0)
  }

  /** Where the record and the fence stand while the lock is held. */
  predicate OpPlaced(s: State) {
    s.op.Acting? ==>
      && s.record.Some?
      && (s.op.phase != Saved ==> s.record.value.run == s.op.before.run)
      && (s.op.phase == Saved ==> s.record.value == s.op.next)
      && (s.op.phase != ReadRoom && s.claimed ==> s.fence == Some(s.op.next.run))
  }

  predicate Steady(s: State) {
    && (s.record.Some? ==> Known(s, s.record.value))
    && (forall r | r in s.retries :: Known(s, r) && r.restarts < MAX_RUN_RESTARTS)
    && (forall run | run in s.dispatched :: run < |s.ids|)
  }

  predicate Shape(s: State) {
    Steady(s) && OpKnown(s, s.op) && OpPlaced(s)
  }

  lemma KeptSteady(s: State, r: Record, kept: bool)
    requires Steady(s) && Known(s, r)
    ensures Steady(Kept(s, r, kept))
  {
  }

  lemma RoomFailedShape(s: State, r: Record, released: bool, kept: bool)
    requires Steady(s) && Known(s, r)
    ensures Shape(RoomFailed(s, r, released, kept))
  {
    var t := Released(s, released);
    assert Steady(t) && Known(t, r.(state := Failed));
    KeptSteady(t, r.(state := Failed), kept);
  }

  lemma AbandonedShape(s: State, released: bool, kept: bool)
    requires Shape(s) && s.op.Acting?
    ensures Shape(Abandoned(s, released, kept))
  {
    if s.op.kind == Restarting {
      RoomFailedShape(s, s.op.before, released, kept);
    }
  }

  lemma KnownLater(s: State, t: State, r: Record)
    requires Known(s, r) && t.productions >= s.productions && s.ids <= t.ids
    ensures Known(t, r)
  {
    assert t.ids[r.run] == s.ids[r.run];
  }

  lemma StartedShape(s: State, startMs: nat, fenced: bool)
    requires Shape(s) && s.op == Free
    ensures var (t, run) := Started(s, startMs, fenced); Shape(t) && Known(t, run)
  {
    var (t, run) := Started(s, startMs, fenced);
    forall r | Known(s, r)
      ensures Known(t, r)
    {
      KnownLater(s, t, r);
    }
  }

  lemma AfterStartShape(t: State, run: Record, ok: bool, started: bool, released: bool, deleted: bool, kept: bool)
    requires Shape(t) && Known(t, run) && t.op == Free
    ensures Shape(AfterStart(t, run, ok, started, released, deleted, kept))
  {
  }

  lemma BeganShape(s: State, kind: Kind, before: Record, next: Record)
    requires Shape(s) && s.op == Free && s.record.Some? && s.record.value.run == before.run && Known(s, before)
    requires next.run == |s.ids| && next.production == before.production && next.state == Starting
    requires next.restarts == before.restarts + (if kind == Restarting then 1 else 0) <= MAX_RUN_RESTARTS
    ensures Shape(Began(s, kind, before, next))
  {
    var t := Began(s, kind, before, next);
    forall r | Known(s, r)
      ensures Known(t, r)
    {
      KnownLater(s, t, r);
    }
  }

  lemma RetriedShape(s: State, lost: Record)
    requires Shape(s)
    ensures Shape(Retried(s, lost))
  {
    assert forall r | r in Retried(s, lost).retries :: r in s.retries;
  }

  lemma RetryShape(s: State, e: Event)
    requires Shape(s) && e.Retry? && Step(s, e) != s
    ensures Shape(Step(s, e))
  {
    RetriedShape(s, e.lost);
    if s.record.Some? && s.record.value.run == e.lost.run {
      BeganShape(Retried(s, e.lost), Restarting, e.lost, RestartRun(s.regions, e.lost, |s.ids|, e.top));
    }
  }

  lemma MoveFenceShape(s: State, e: Event)
    requires Shape(s) && e.MoveFence?
    ensures Shape(Step(s, e))
  {
    if s.op.Acting? {
      AbandonedShape(s, e.released, e.kept);
    }
  }

  lemma SaveRunShape(s: State, e: Event)
    requires Shape(s) && e.SaveRun?
    ensures Shape(Step(s, e))
  {
    if s.op.Acting? {
      AbandonedShape(s, e.released, e.kept);
    }
  }

  lemma DispatchedShape(s: State, started: bool, released: bool, kept: bool)
    requires Shape(s) && s.op.Acting?
    ensures Shape(Dispatched(s, true, started, released, kept))
  {
    var next := s.op.next;
    var t := s.(dispatched := s.dispatched + {next.run}, op := Free,
                restarted := Logged(s, s.op));
    assert Steady(t) && Known(t, next.(state := Accepted));
    KeptSteady(t, next.(state := Accepted), kept);
  }

  lemma SentSteady(s: State, run: nat, started: bool)
    requires Steady(s) && run < |s.ids|
    ensures Steady(Sent(s, run, started))
  {
  }

  lemma SentAndKept(s: State, r: Record, run: nat, started: bool, kept: bool)
    requires Steady(s) && Known(s, r) && run < |s.ids|
    ensures Steady(Kept(Sent(s, run, started), r, kept))
  {
    SentSteady(s, run, started);
    KeptSteady(Sent(s, run, started), r, kept);
  }

  lemma RefusedShape(s: State, started: bool, released: bool, kept: bool)
    requires Shape(s) && s.op.Acting?
    ensures Shape(Dispatched(s, false, started, released, kept))
  {
    var failed := s.op.next.(state := Failed);
    if s.op.kind == Following {
      SentAndKept(s.(op := Free), failed, s.op.next.run, started, kept);
    } else {
      SentAndKept(s, failed, s.op.next.run, started, kept);
      RoomFailedShape(Kept(Sent(s, s.op.next.run, started), failed, kept), s.op.before, released, kept);
    }
  }

  lemma ReportedShape(s: State, current: Record, state: RunState, producedMs: nat, released: bool, kept: bool)
    requires Shape(s) && s.op == Free && Known(s, current)
    ensures Shape(Reported(s, current, state, producedMs, released, kept))
  {
    var run := current.(state := state, producedMs := producedMs);
    assert Known(s, run);
    KeptSteady(s, run, kept);
    if state == Failed && run.restarts >= MAX_RUN_RESTARTS {
      RoomFailedShape(s, run, released, kept);
    }
  }

  lemma CancelShape(s: State, e: Event)
    requires Shape(s) && e.Cancel?
    ensures Shape(Step(s, e))
  {
  }

  /** What happens without the lock: publishes, their last one's end, and everyone else's. */
  predicate OfOthers(e: Event) {
    e.LoadRoom? || e.CommitRegions? || e.Complete? || e.Elsewhere?
  }

  lemma CompleteShape(s: State, e: Event)
    requires Shape(s) && (e.Complete? || e.Elsewhere?)
    ensures Shape(Step(s, e))
  {
  }

  lemma CommitShape(s: State, e: Event)
    requires Shape(s) && (e.LoadRoom? || e.CommitRegions?)
    ensures Shape(Step(s, e))
  {
  }

  /** The sections of a follow or a restart after it read the room. */
  predicate Acts(e: Event) {
    e.MoveFence? || e.SaveRun? || e.Dispatch? || e.GiveUp?
  }

  lemma ActShape(s: State, e: Event)
    requires Shape(s) && Acts(e) && Step(s, e) != s
    ensures Shape(Step(s, e))
  {
    match e
    case MoveFence(_, _, _) => MoveFenceShape(s, e);
    case SaveRun(_, _, _) => SaveRunShape(s, e);
    case Dispatch(ok, started, released, kept) =>
      if ok { DispatchedShape(s, started, released, kept); } else { RefusedShape(s, started, released, kept); }
    case GiveUp(released, kept) => AbandonedShape(s, released, kept);
  }

  lemma ShapeStep(s: State, e: Event)
    requires Shape(s)
    ensures Shape(Step(s, e))
  {
    if Acts(e) && Step(s, e) != s {
      ActShape(s, e);
    } else if e.LoadRoom? || e.CommitRegions? {
      CommitShape(s, e);
    } else if OfOthers(e) {
      CompleteShape(s, e);
    } else if Step(s, e) != s {
      match e
      case Start(startMs, fenced, ok, started, released, deleted, kept) =>
        StartedShape(s, startMs, fenced);
        var (t, run) := Started(s, startMs, fenced);
        AfterStartShape(t, run, ok, started, released, deleted, kept);
      case Follow(positionMs, top) =>
        BeganShape(s, Following, s.record.value, FollowRun(s.record.value, |s.ids|, positionMs, top));
      case Retry(_, _) => RetryShape(s, e);
      case Report(_, state, producedMs, released, kept) =>
        ReportedShape(s, s.record.value, state, producedMs, released, kept);
      case Cancel(_, _) => CancelShape(s, e);
    }
  }

  // ------------------------------------------------------------------ the fence

  /** The publishes the room accepts are those of the run in the record. */
  predicate FenceOk(s: State) {
    s.record.Some? ==> forall run | run in s.dispatched && Accepts(s, run) :: run == s.record.value.run
  }

  function Others(regions: map<nat, Region>, own: nat): set<nat> {
    regions.Keys - {own}
  }

  /** While its publishes are accepted, nothing but a run's own region comes or goes. */
  predicate LoadsOk(s: State) {
    forall id | id in s.loads ::
      var load := s.loads[id];
      && load.run < |s.ids| && (s.op.Acting? ==> load.run != s.op.next.run)
      && (Accepts(s, load.run) ==>
            Others(load.known, s.ids[load.run].region) == Others(s.regions, s.ids[load.run].region))
  }

  predicate Above(regions: map<nat, Region>, n: nat) {
    forall listed | listed in regions :: listed < n
  }

  /** The number a run is about to be sent with, for as long as it has the claim to publish under. */
  predicate NumberOk(s: State) {
    s.op.Acting? && s.claimed ==>
      || (s.op.kind == Restarting && s.op.next.region == s.op.before.region)
      || (Above(s.regions, s.op.next.region) && s.op.before.region < s.op.next.region)
  }

  predicate RegionsOk(s: State) {
    FenceOk(s) && LoadsOk(s) && NumberOk(s)
  }

  predicate SameOp(a: Op, b: Op) {
    b == Free || (a.Acting? && b.Acting? && b.kind == a.kind && b.before == a.before && b.next == a.next)
  }

  /** Nobody's publishes are accepted that were not before. */
  predicate Narrower(s: State, t: State) {
    && (t.claimed ==> s.claimed)
    && forall run | run in t.dispatched && Accepts(t, run) :: run in s.dispatched && Accepts(s, run)
  }

  predicate NobodyAccepted(s: State) {
    forall run | run in s.dispatched :: !Accepts(s, run)
  }

  predicate SameMedia(s: State, t: State) {
    t.regions == s.regions && t.loads == s.loads && t.ids == s.ids
  }

  lemma NarrowerOk(s: State, t: State)
    requires RegionsOk(s) && SameMedia(s, t) && SameOp(s.op, t.op) && Narrower(s, t)
    requires t.record.Some? && !NobodyAccepted(t) ==> s.record.Some? && s.record.value.run == t.record.value.run
    ensures RegionsOk(t)
  {
    assert LoadsOk(t) by {
      forall id | id in t.loads && Accepts(t, t.loads[id].run)
        ensures Accepts(s, t.loads[id].run)
      {
        assert t.loads[id].run in t.dispatched;
      }
    }
  }

  /** The fence is on a run not yet sent to any worker. */
  lemma FencedOut(s: State)
    requires Shape(s) && s.op.Acting? && s.op.phase != ReadRoom
    ensures NobodyAccepted(s)
  {
  }

  lemma StartRegions(s: State, e: Event)
    requires Shape(s) && RegionsOk(s) && e.Start? && Step(s, e) != s
    ensures RegionsOk(Step(s, e))
  {
    var t := Step(s, e);
    assert t.loads == s.loads && t.op == Free && t.regions == s.regions;
    assert t.dispatched <= {|s.ids|} && (t.record.Some? && t.dispatched != {} ==> t.record.value.run == |s.ids|);
    forall id | id in t.loads
      ensures t.loads[id].run < |s.ids| && t.loads[id].run !in t.dispatched
    {
    }
  }

  lemma BeganRegions(s: State, kind: Kind, before: Record, next: Record)
    requires Shape(s) && RegionsOk(s) && s.op == Free && next.run == |s.ids|
    requires || (kind == Restarting && next.region == before.region)
             || (Above(s.regions, next.region) && before.region < next.region)
    ensures RegionsOk(Began(s, kind, before, next))
  {
    var t := Began(s, kind, before, next);
    forall id | id in t.loads
      ensures t.loads[id].run < |s.ids| && t.ids[t.loads[id].run] == s.ids[t.loads[id].run]
    {
    }
  }

  lemma AbandonedRegions(s: State, released: bool, kept: bool)
    requires Shape(s) && RegionsOk(s) && s.op.Acting?
    ensures RegionsOk(Abandoned(s, released, kept))
  {
    if s.op.phase != ReadRoom {
      FencedOut(s);
    }
    NarrowerOk(s, Abandoned(s, released, kept));
  }

  lemma MoveFenceRegions(s: State, e: Event)
    requires Shape(s) && RegionsOk(s) && s.op.Acting? && s.op.phase == ReadRoom && e.MoveFence? && e.ok
    ensures RegionsOk(Step(s, e))
  {
    NarrowerOk(s, Step(s, e));
  }

  lemma SaveRunRegions(s: State, e: Event)
    requires Shape(s) && RegionsOk(s) && s.op.Acting? && s.op.phase == Fenced && e.SaveRun? && e.ok
    ensures RegionsOk(Step(s, e))
  {
    FencedOut(s);
    NarrowerOk(s, Step(s, e));
  }

  lemma RefusedRegions(s: State, started: bool, released: bool, kept: bool)
    requires Shape(s) && RegionsOk(s) && s.op.Acting? && s.op.phase == Saved
    requires s.op.kind == Restarting && started ==> released
    ensures RegionsOk(Dispatched(s, false, started, released, kept))
  {
    var t := Dispatched(s, false, started, released, kept);
    FencedOut(s);
    assert t.loads == s.loads && t.op == Free && t.regions == s.regions && t.ids == s.ids;
    forall run | run in t.dispatched && Accepts(t, run)
      ensures run == s.op.next.run && s.op.kind == Following
    {
      assert run in s.dispatched ==> !Accepts(s, run);
    }
  }

  lemma DispatchedRegions(s: State, started: bool, released: bool, kept: bool)
    requires Shape(s) && RegionsOk(s) && s.op.Acting? && s.op.phase == Saved
    ensures RegionsOk(Dispatched(s, true, started, released, kept))
  {
    var t := Dispatched(s, true, started, released, kept);
    forall id | id in t.loads
      ensures !Accepts(t, t.loads[id].run)
    {
    }
  }

  lemma ReportedRegions(s: State, current: Record, state: RunState, producedMs: nat, released: bool, kept: bool)
    requires RegionsOk(s) && s.op == Free && s.record.Some? && s.record.value.run == current.run
    ensures RegionsOk(Reported(s, current, state, producedMs, released, kept))
  {
    NarrowerOk(s, Reported(s, current, state, producedMs, released, kept));
  }

  lemma CancelRegions(s: State, released: bool, deleted: bool)
    requires RegionsOk(s)
    ensures RegionsOk(Released(s, released).(record := if deleted then None else s.record))
  {
    NarrowerOk(s, Released(s, released).(record := if deleted then None else s.record));
  }

  lemma CompleteRegions(s: State, e: Event)
    requires RegionsOk(s) && (e.Complete? || e.Elsewhere?)
    ensures RegionsOk(Step(s, e))
  {
    if e.Complete? {
      NarrowerOk(s, Step(s, e));
    }
  }

  lemma LoadRegions(s: State, e: Event)
    requires Shape(s) && RegionsOk(s) && e.LoadRoom?
    ensures RegionsOk(Step(s, e))
  {
  }

  lemma OthersWithOwn(known: map<nat, Region>, region: nat, own: Option<Region>)
    ensures Others(WithOwn(known, region, own), region) == Others(known, region)
  {
  }

  lemma CommitRegionsNames(s: State, e: Event)
    requires Shape(s) && RegionsOk(s) && e.CommitRegions? && Step(s, e) != s
    ensures e.id in s.loads && s.loads[e.id].run < |s.ids|
    ensures var own := s.ids[s.loads[e.id].run].region;
            Others(Step(s, e).regions, own) == Others(s.regions, own)
  {
    var load := s.loads[e.id];
    OthersWithOwn(load.known, s.ids[load.run].region, e.own);
  }

  lemma CommitRegionsKeep(s: State, e: Event)
    requires Shape(s) && RegionsOk(s) && e.CommitRegions? && Step(s, e) != s
    ensures RegionsOk(Step(s, e))
  {
    var t := Step(s, e);
    var load := s.loads[e.id];
    CommitRegionsNames(s, e);
    assert load.run in s.dispatched && Accepts(s, load.run);
    assert NumberOk(t) by {
      forall n | n in t.regions && s.op.Acting? && Above(s.regions, s.op.next.region)
                 && s.op.before.region < s.op.next.region
        ensures n < s.op.next.region
      {
        assert n in s.regions || n == s.ids[load.run].region by {
          assert n in Others(t.regions, s.ids[load.run].region) || n == s.ids[load.run].region;
        }
      }
    }
  }

  lemma RetryRegions(s: State, e: Event)
    requires Shape(s) && RegionsOk(s) && e.Retry? && Step(s, e) != s
    ensures RegionsOk(Step(s, e))
  {
    RetriedShape(s, e.lost);
    NarrowerOk(s, Retried(s, e.lost));
    if s.record.Some? && s.record.value.run == e.lost.run {
      BeganRegions(Retried(s, e.lost), Restarting, e.lost, RestartRun(s.regions, e.lost, |s.ids|, e.top));
    }
  }

  lemma ActRegions(s: State, e: Event)
    requires Shape(s) && RegionsOk(s) && Acts(e) && Step(s, e) != s
    ensures RegionsOk(Step(s, e))
  {
    match e
    case MoveFence(ok, released, kept) =>
      if ok { MoveFenceRegions(s, e); } else { AbandonedRegions(s, released, kept); }
    case SaveRun(ok, released, kept) =>
      if ok { SaveRunRegions(s, e); } else { AbandonedRegions(s, released, kept); }
    case GiveUp(released, kept) => AbandonedRegions(s, released, kept);
    case Dispatch(ok, started, released, kept) =>
      if ok { DispatchedRegions(s, started, released, kept); } else { RefusedRegions(s, started, released, kept); }
  }

  lemma OthersRegions(s: State, e: Event)
    requires Shape(s) && RegionsOk(s) && OfOthers(e) && Step(s, e) != s
    ensures RegionsOk(Step(s, e))
  {
    match e
    case LoadRoom(_, _) => LoadRegions(s, e);
    case CommitRegions(_, _) => CommitRegionsKeep(s, e);
    case Complete(_, _) => CompleteRegions(s, e);
    case Elsewhere(_) => CompleteRegions(s, e);
  }

  lemma RegionsStep(s: State, e: Event)
    requires Shape(s) && RegionsOk(s)
    ensures RegionsOk(Step(s, e))
  {
    if Step(s, e) != s {
      if Acts(e) {
        ActRegions(s, e);
      } else if OfOthers(e) {
        OthersRegions(s, e);
      } else {
        match e
        case Start(_, _, _, _, _, _, _) => StartRegions(s, e);
        case Follow(positionMs, top) =>
          BeganRegions(s, Following, s.record.value, FollowRun(s.record.value, |s.ids|, positionMs, top));
        case Retry(_, _) => RetryRegions(s, e);
        case Report(_, state, producedMs, released, kept) =>
          ReportedRegions(s, s.record.value, state, producedMs, released, kept);
        case Cancel(released, deleted) => CancelRegions(s, released, deleted);
      }
    }
  }

  // ------------------------------------------------------------------- restarts

  function CountIn(log: seq<Restart>, production: nat, k: nat): nat
    requires k <= |log|
  {
    if k == 0 then 0 else CountIn(log, production, k - 1) + (if log[k - 1].production == production then 1 else 0)
  }

  /** How many restarts of a production succeeded. */
  function Count(log: seq<Restart>, production: nat): nat {
    CountIn(log, production, |log|)
  }

  predicate NeverRestarted(log: seq<Restart>, run: nat) {
    forall i | 0 <= i < |log| :: log[i].lost != run
  }

  ghost predicate LogOk(log: seq<Restart>, runs: nat, productions: nat) {
    && (forall i, j | 0 <= i < j < |log| :: log[i].lost != log[j].lost)
    && (forall i | 0 <= i < |log| :: log[i].lost < runs)
    && (forall p: nat :: Count(log, p) <= if p < productions then MAX_RUN_RESTARTS else 0)
  }

  /** A run that may yet be restarted has not been, and carries how often its production was. */
  predicate Open(log: seq<Restart>, r: Record) {
    NeverRestarted(log, r.run) && Count(log, r.production) <= r.restarts
  }

  ghost predicate Counts(s: State) {
    && LogOk(s.restarted, |s.ids|, s.productions)
    && (s.record.Some? ==> Open(s.restarted, s.record.value))
    && (s.op.Acting? ==> Open(s.restarted, s.op.before) && Open(s.restarted, s.op.next))
  }

  lemma {:induction false} CountPrefix(log: seq<Restart>, entry: Restart, production: nat, k: nat)
    requires k <= |log|
    ensures CountIn(log + [entry], production, k) == CountIn(log, production, k)
  {
    if k > 0 {
      CountPrefix(log, entry, production, k - 1);
    }
  }

  lemma CountOneMore(log: seq<Restart>, entry: Restart, production: nat)
    ensures Count(log + [entry], production) ==
            Count(log, production) + (if entry.production == production then 1 else 0)
  {
    CountPrefix(log, entry, production, |log|);
  }

  lemma LogOneMore(log: seq<Restart>, runs: nat, productions: nat, before: Record, next: Record)
    requires LogOk(log, runs, productions) && Open(log, before) && Open(log, next)
    requires before.run < runs && before.production < productions && before.run != next.run
    requires next.production == before.production && next.restarts == before.restarts + 1 <= MAX_RUN_RESTARTS
    ensures var longer := log + [Restart(before.run, before.production)];
            LogOk(longer, runs, productions) && Open(longer, next)
  {
    var longer := log + [Restart(before.run, before.production)];
    CountOneMore(log, Restart(before.run, before.production), next.production);
    forall p: nat
      ensures Count(longer, p) <= if p < productions then MAX_RUN_RESTARTS else 0
    {
      CountOneMore(log, Restart(before.run, before.production), p);
      assert Count(log, p) <= if p < productions then MAX_RUN_RESTARTS else 0;
    }
  }

  lemma LogOfMoreRuns(log: seq<Restart>, runs: nat, productions: nat, moreRuns: nat, moreProductions: nat)
    requires LogOk(log, runs, productions) && runs <= moreRuns && productions <= moreProductions
    ensures LogOk(log, moreRuns, moreProductions)
  {
    forall p: nat
      ensures Count(log, p) <= if p < moreProductions then MAX_RUN_RESTARTS else 0
    {
      assert Count(log, p) <= if p < productions then MAX_RUN_RESTARTS else 0;
    }
  }

  lemma StartCounts(s: State, e: Event)
    requires Shape(s) && Counts(s) && e.Start? && Step(s, e) != s
    ensures Counts(Step(s, e))
  {
    LogOfMoreRuns(s.restarted, |s.ids|, s.productions, |s.ids| + 1, s.productions + 1);
    assert Count(s.restarted, s.productions) <= 0;
  }

  lemma BeganCounts(s: State, kind: Kind, before: Record, next: Record)
    requires Counts(s) && Open(s.restarted, before) && next.run == |s.ids|
    requires next.production == before.production && next.restarts >= before.restarts
    ensures Counts(Began(s, kind, before, next))
  {
    LogOfMoreRuns(s.restarted, |s.ids|, s.productions, |s.ids| + 1, s.productions);
  }

  /** A run is known by its number: copies of one record agree. */
  lemma CopiesAgree(s: State, a: Record, b: Record)
    requires Known(s, a) && Known(s, b) && a.run == b.run && Open(s.restarted, a)
    ensures Open(s.restarted, b)
  {
  }

  /** Nothing is restarted here, and the record is left as it was or set to a run at hand. */
  lemma SameLogCounts(s: State, t: State)
    requires Counts(s) && t.restarted == s.restarted && t.ids == s.ids && t.productions == s.productions
    requires SameOp(s.op, t.op)
    requires t.record.Some? ==> Open(s.restarted, t.record.value)
    ensures Counts(t)
  {
  }

  lemma ReportedCounts(s: State, current: Record, state: RunState, producedMs: nat, released: bool, kept: bool)
    requires Counts(s) && s.op == Free && s.record == Some(current)
    ensures Counts(Reported(s, current, state, producedMs, released, kept))
  {
    SameLogCounts(s, Reported(s, current, state, producedMs, released, kept));
  }

  lemma AbandonedCounts(s: State, released: bool, kept: bool)
    requires Counts(s) && s.op.Acting?
    ensures Counts(Abandoned(s, released, kept))
  {
    SameLogCounts(s, Abandoned(s, released, kept));
  }

  lemma DispatchedCounts(s: State, ok: bool, started: bool, released: bool, kept: bool)
    requires Shape(s) && Counts(s) && s.op.Acting? && s.op.phase == Saved
    ensures Counts(Dispatched(s, ok, started, released, kept))
  {
    if ok && s.op.kind == Restarting {
      LogOneMore(s.restarted, |s.ids|, s.productions, s.op.before, s.op.next);
    } else {
      SameLogCounts(s, Dispatched(s, ok, started, released, kept));
    }
  }

  lemma RetryCounts(s: State, e: Event)
    requires Shape(s) && Counts(s) && e.Retry? && Step(s, e) != s
    ensures Counts(Step(s, e))
  {
    SameLogCounts(s, Retried(s, e.lost));
    if s.record.Some? && s.record.value.run == e.lost.run {
      CopiesAgree(s, s.record.value, e.lost);
      BeganCounts(Retried(s, e.lost), Restarting, e.lost, RestartRun(s.regions, e.lost, |s.ids|, e.top));
    }
  }

  lemma ActCounts(s: State, e: Event)
    requires Shape(s) && Counts(s) && Acts(e) && Step(s, e) != s
    ensures Counts(Step(s, e))
  {
    match e
    case Dispatch(ok, started, released, kept) => DispatchedCounts(s, ok, started, released, kept);
    case MoveFence(ok, released, kept) =>
      if ok { SameLogCounts(s, Step(s, e)); } else { AbandonedCounts(s, released, kept); }
    case SaveRun(ok, released, kept) =>
      if ok { SameLogCounts(s, Step(s, e)); } else { AbandonedCounts(s, released, kept); }
    case GiveUp(released, kept) => AbandonedCounts(s, released, kept);
  }

  lemma CountsStep(s: State, e: Event)
    requires Shape(s) && Counts(s)
    ensures Counts(Step(s, e))
  {
    if Step(s, e) != s {
      if Acts(e) {
        ActCounts(s, e);
      } else if OfOthers(e) || e.Cancel? {
        SameLogCounts(s, Step(s, e));
      } else {
        match e
        case Start(_, _, _, _, _, _, _) => StartCounts(s, e);
        case Follow(positionMs, top) =>
          BeganCounts(s, Following, s.record.value, FollowRun(s.record.value, |s.ids|, positionMs, top));
        case Retry(_, _) => RetryCounts(s, e);
        case Report(_, state, producedMs, released, kept) =>
          ReportedCounts(s, s.record.value, state, producedMs, released, kept);
      }
    }
  }

  // ------------------------------------------------------------------ every run

  lemma {:induction false} Always(run: Run, k: nat)
    requires k <= |run.events|
    ensures Shape(run.At(k)) && RegionsOk(run.At(k)) && Counts(run.At(k))
  {
    if k > 0 {
      Always(run, k - 1);
      var s, e := run.At(k - 1), run.events[k - 1];
      ShapeStep(s, e);
      RegionsStep(s, e);
      CountsStep(s, e);
    }
  }

  /** However many reports there are of it, one restart of a run succeeds at most. */
  lemma RestartedOnce(run: Run, k: nat, i: nat, j: nat)
    requires k <= |run.events| && i < |run.At(k).restarted| && j < |run.At(k).restarted|
    requires run.At(k).restarted[i].lost == run.At(k).restarted[j].lost
    ensures i == j
  {
    Always(run, k);
  }

  /** And of all the runs of one production together, two. */
  lemma RestartedTwice(run: Run, k: nat, production: nat)
    requires k <= |run.events|
    ensures Count(run.At(k).restarted, production) <= MAX_RUN_RESTARTS
  {
    Always(run, k);
    var s := run.At(k);
    assert Count(s.restarted, production) <= if production < s.productions then MAX_RUN_RESTARTS else 0;
  }

  /**
   The region a run is dispatched with is above every one listed, though the old run
   published between the reading and the fence; a restart may instead take up the
   region of the run it replaces, when that one showed nothing yet. A run whose claim
   was given back meanwhile publishes nothing at all.
   */
  lemma DispatchedAboveTheListed(run: Run, k: nat)
    requires k < |run.events| && run.events[k].Dispatch? && run.At(k).op.Acting?
    ensures var s, op := run.At(k), run.At(k).op;
            || Above(s.regions, op.next.region)
            || (op.kind == Restarting && op.next.region == op.before.region)
            || (!s.claimed && forall publisher :: !Accepts(s, publisher))
  {
    Always(run, k);
  }

  /** Only the run in the record gets its publishes accepted, and none while a run is being replaced. */
  lemma OneRunPublishes(run: Run, k: nat, publisher: nat)
    requires k <= |run.events|
    requires var s := run.At(k); s.record.Some? && publisher in s.dispatched && Accepts(s, publisher)
    ensures var s := run.At(k);
            publisher == s.record.value.run && (s.op.Acting? ==> s.op.phase == ReadRoom)
  {
    Always(run, k);
    if run.At(k).op.Acting? && run.At(k).op.phase != ReadRoom {
      FencedOut(run.At(k));
    }
  }

  predicate OnTheWay(s: State, startMs: int) {
    && s.record.Some? && s.record.value.startMs == startMs
    && (s.record.value.state == Starting || s.record.value.state == Accepted)
  }

  lemma DispatchedOnTheWay(s: State, started: bool, released: bool, kept: bool)
    requires Shape(s) && s.op.Acting? && s.op.phase == Saved
    ensures OnTheWay(Dispatched(s, true, started, released, kept), s.op.next.startMs)
  {
  }

  lemma PublishesLeaveTheRecord(s: State, e: Event)
    requires OfOthers(e)
    ensures Step(s, e).record == s.record
  {
  }

  predicate OnlyPublishes(run: Run, j: nat, k: nat)
    requires k <= |run.events|
  {
    forall i | j < i < k :: OfOthers(run.events[i])
  }

  lemma StaysOnTheWay(s: State, e: Event, startMs: int)
    requires OnTheWay(s, startMs) && OfOthers(e)
    ensures OnTheWay(Step(s, e), startMs)
  {
    PublishesLeaveTheRecord(s, e);
  }

  lemma {:induction false} UnderWay(run: Run, j: nat, k: nat, startMs: int)
    requires j < k <= |run.events| && OnTheWay(run.At(j + 1), startMs) && OnlyPublishes(run, j, k)
    ensures OnTheWay(run.At(k), startMs)
  {
    if k > j + 1 {
      UnderWay(run, j, k - 1, startMs);
      StaysOnTheWay(run.At(k - 1), run.events[k - 1], startMs);
    }
  }

  predicate FollowsOn(s: State, e: Event) {
    e.Dispatch? && e.ok && s.op.Acting? && s.op.kind == Following && s.op.phase == Saved
  }

  lemma PutOnTheWay(s: State, e: Event)
    requires Shape(s) && FollowsOn(s, e)
    ensures OnTheWay(Step(s, e), s.op.next.startMs)
  {
    DispatchedOnTheWay(s, e.started, e.released, e.kept);
  }

  /**
   Right after a position got its run dispatched, following it again does nothing,
   whatever that run or the one before it publishes meanwhile.
   */
  lemma FollowingAgainDoesNothing(run: Run, j: nat, k: nat, top: nat)
    requires j < k <= |run.events| && FollowsOn(run.At(j), run.events[j]) && run.At(j).op.next.startMs >= 0
    requires OnlyPublishes(run, j, k)
    ensures Step(run.At(k), Follow(run.At(j).op.next.startMs, top)) == run.At(k)
  {
    Always(run, j);
    PutOnTheWay(run.At(j), run.events[j]);
    UnderWay(run, j, k, run.At(j).op.next.startMs);
    CoveredWhileOnTheWay(run.At(k), run.At(j).op.next.startMs, top);
  }

  lemma CoveredWhileOnTheWay(s: State, startMs: nat, top: nat)
    requires OnTheWay(s, startMs)
    ensures Step(s, Follow(startMs, top)) == s
  {
    StartIsCovered(s.regions, s.record.value);
  }

  /**
   A run restarted at the produced edge of its own region leaves no gap: what the lost
   run listed and what the new one will produce are covered without a break.
   */
  lemma RestartLeavesNoGap(regions: map<nat, Region>, lost: Record, id: nat, top: nat, positionMs: int)
    requires Resumes(regions, lost)
    requires var region := regions[lost.region];
             region.startMs - FOLLOW_BEHIND_MS <= positionMs <= region.startMs + region.producedMs + FOLLOW_AHEAD_MS
    ensures Covered(regions, RestartRun(regions, lost, id, top), positionMs)
  {
    var next, region := RestartRun(regions, lost, id, top), regions[lost.region];
    if positionMs <= region.startMs + region.producedMs {
      assert CoveredBy(lost.region, region, next, positionMs);
    }
  }

  // -------------------------------------------------------------- the code itself

  /** The room's production as stored, its goroutines, and the call that holds the room's lock. */
  class Production {
    var regions: map<nat, Region>
    var claimed: bool
    var fence: Option<nat>
    var record: Option<Record>
    var ids: seq<Identity>
    var productions: nat
    var dispatched: set<nat>
    var loads: map<nat, Load>
    var op: Op
    var retries: multiset<Record>
    var restarted: seq<Restart>

    function View(): State
      reads this
    {
      State(regions, claimed, fence, record, ids, productions, dispatched, loads, op, retries, restarted)
    }

    constructor (regions: map<nat, Region>)
      ensures View() == Init(regions)
    {
      this.regions, claimed, fence, record, ids, productions := regions, false, None, None, [], 0;
      dispatched, loads, op, retries, restarted := {}, map[], Free, multiset{}, [];
    }

    method KeepRun(run: Record, kept: bool)
      modifies this`record
      ensures View() == Kept(old(View()), run, kept)
    {
      if kept {
        record := Some(run);
      }
    }

    method FailRoom(run: Record, released: bool, kept: bool)
      modifies this`claimed, this`fence, this`record, this`op
      ensures View() == RoomFailed(old(View()), run, released, kept)
    {
      if released {
        claimed, fence := false, None;
      }
      KeepRun(run.(state := Failed), kept);
      op := Free;
    }

    /** applyReport, for a report on the run of the record it loads under the lock. */
    method ApplyReport(run: nat, state: RunState, producedMs: nat, released: bool, kept: bool)
      modifies this`claimed, this`fence, this`record, this`op, this`retries
      ensures View() == Step(old(View()), Report(run, state, producedMs, released, kept))
    {
      if op != Free || record.None? || record.value.run != run {
        return;
      }
      var current := record.value.(state := state, producedMs := producedMs);
      if state != Failed {
        KeepRun(current, kept);
      } else if current.restarts < MAX_RUN_RESTARTS {
        KeepRun(current, kept);
        retries := retries + multiset{current};
      } else {
        FailRoom(current, released, kept);
      }
    }

    /** Follow, with the lock just taken and up to the fence: whether the position needs a run, and which. */
    method FollowPosition(positionMs: nat, listed: seq<Publish.Listed>) returns (top: nat)
      requires op == Free && Holds(listed, regions)
      modifies this`ids, this`op
      ensures record.Some? ==> IsHighest(regions, record.value.region, top)
      ensures View() == Step(old(View()), Follow(positionMs, top))
    {
      if record.None? {
        return 0;
      }
      var run := record.value;
      top := HighestRegion(listed, run.region, regions);
      if Terminal(run.state) && run.state != Completed {
        return;
      }
      var covered := CoveredByRegions(listed, run, positionMs, regions);
      if covered {
        return;
      }
      var next := FollowRun(run, |ids|, positionMs, top);
      ids := ids + [IdentityOf(next)];
      op := Acting(Following, run, next, ReadRoom);
    }

    method FinishDispatch(ok: bool, started: bool, released: bool, kept: bool)
      requires op.Acting?
      modifies this
      ensures View() == Dispatched(old(View()), ok, started, released, kept)
    {
      var kind, before, next := op.kind, op.before, op.next;
      if ok {
        dispatched := dispatched + {next.run};
        if kind == Restarting {
          restarted := restarted + [Restart(before.run, before.production)];
        }
        KeepRun(next.(state := Accepted), kept);
        op := Free;
      } else {
        if started {
          dispatched := dispatched + {next.run};
        }
        KeepRun(next.(state := Failed), kept);
        if kind == Following {
          op := Free;
        } else {
          FailRoom(before, released, kept);
        }
      }
    }
  }
}
