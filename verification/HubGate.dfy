/**
 The synchronized start (internal/sync/gate.go; hub.go:830-852, 1038-1044, 1180-1252;
 hub_local.go:86-125): a controller's play or seek parks the room paused at its target
 until every member it waits for has media there, or the wait runs out. The room's
 loop takes one event at a time, so each is one step.
 */
module HubGate {
  import opened Wrappers
  import RoomStore

  const GATE_READY_BUFFER_MS := 3_000
  const GATE_MAX_WAIT_MS := 20_000
  const GATE_POSITION_SLACK_MS := 2_000
  const STALL_REGATE_COOLDOWN_MS := 20_000
  const STALL_CREDIBLE_BUFFER_MS := 5_000
  const END_SLACK_MS := 1_000
  const PRODUCED_EDGE_SLACK_MS := 3_000
  const MAX_INT64 := 0x7FFF_FFFF_FFFF_FFFF

  datatype Id = Id(text: string)

  datatype Report = Report(positionMs: int, bufferAheadMs: int, stalled: bool, received: bool)

  const NO_REPORT := Report(0, 0, false, false)

  datatype Member = Member(tv: bool, localSource: bool, localCopy: bool, copyFailed: nat, report: Report)

  datatype Media = Media(local: bool, bare: bool, generation: nat, producer: Option<Id>)

  const NO_MEDIA := Media(false, false, 0, None)

  type Status = RoomStore.Status

  /** The room's source as stored: whether it is in someone's app, and how many swaps came before it. */
  datatype Source = Source(local: bool, generation: nat)

  /** A room is created with no source, and only a swap brings one. */
  function SourceAfter(swaps: seq<Status>): Source {
    if swaps == [] then Source(false, 0) else Swapped(SourceAfter(swaps[..|swaps| - 1]), swaps[|swaps| - 1])
  }

  function Swapped(source: Source, status: Status): Source {
    Source(status.Local?, source.generation + 1)
  }

  /** What the loop makes of the room as stored. */
  function MediaOf(source: Source, status: Status, producer: Option<Id>): Media {
    if !source.local then NO_MEDIA
    else
      match status
      case Local => Media(true, true, source.generation, producer)
      case Uploading => Media(true, true, source.generation, producer)
      case Ready => Media(true, false, source.generation, producer)
      case _ => NO_MEDIA
  }

  /** Who the room's loop knows, and the media it last read. */
  datatype Who = Who(clients: map<Id, Member>, detached: map<Id, Member>, ignored: set<Id>, media: Media)

  datatype Play = Play(playing: bool, positionMs: int, rate: real, serverTimeMs: int)

  /** A timer rings once its time has come; the ring waits in its channel until taken or drained. */
  datatype Timer = Timer(at: int, rung: bool)

  datatype Gate = Gate(targetMs: int, rate: real, timer: Timer)

  datatype State = State(
    now: int, who: Who, gate: Option<Gate>,
    play: Play,                   // as stored
    gating: bool, stallReadyAt: Option<int>,
    openedAt: int,                // when the gate was last opened
    source: Source)               // as stored

  // -------------------------------------------------------------- who is ready

  predicate RunningDry(report: Report) {
    report.stalled && report.bufferAheadMs < STALL_CREDIBLE_BUFFER_MS
  }

  predicate Produces(media: Media, id: Id, m: Member) {
    media.local && m.localSource && media.producer == Some(id)
  }

  predicate Copies(media: Media, id: Id, m: Member) {
    media.local && m.localCopy && m.copyFailed != media.generation && media.producer != Some(id)
  }

  predicate WaitsFor(media: Media, id: Id, m: Member) {
    !m.tv && (!media.bare || Produces(media, id, m) || Copies(media, id, m))
  }

  /** Enough media at the target, as last reported. */
  predicate Buffered(report: Report, targetMs: int) {
    && report.received && !RunningDry(report)
    && -GATE_POSITION_SLACK_MS <= report.positionMs - targetMs <= GATE_POSITION_SLACK_MS
    && report.bufferAheadMs >= GATE_READY_BUFFER_MS
  }

  predicate Ready(who: Who, id: Id, m: Member, targetMs: int) {
    !WaitsFor(who.media, id, m) || id in who.ignored || Buffered(m.report, targetMs)
  }

  predicate AllReady(who: Who, targetMs: int) {
    forall id | id in who.clients :: Ready(who, id, who.clients[id], targetMs)
  }

  function People(clients: map<Id, Member>): set<Id> {
    set id | id in clients && !clients[id].tv
  }

  function Clamped(position: int): int {
    if position <= 0 then 0 else if position >= MAX_INT64 then MAX_INT64 else position
  }

  function ExpectedPositionMs(play: Play, now: int): int {
    Clamped(if play.playing then (play.positionMs as real + (now - play.serverTimeMs) as real * play.rate).Floor
            else play.positionMs)
  }

  // ---------------------------------------------------------- opening and closing it

  function Released(s: State, ok: bool): State
    requires s.gate.Some?
  {
    var rate := if s.play.rate == 0.0 then 1.0 else s.play.rate;
    s.(gate := None, stallReadyAt := Some(s.now + STALL_REGATE_COOLDOWN_MS),
       play := if ok then Play(true, s.gate.value.targetMs, rate, s.now) else s.play)
  }

  function Evaluated(s: State, ok: bool): State {
    if s.gate.Some? && AllReady(s.who, s.gate.value.targetMs) then Released(s, ok) else s
  }

  /** What the store answered: to the event's own write, and to a release's. */
  datatype Io = Io(written: bool, release: bool)

  function Opened(s: State, targetMs: int, rate: real, io: Io): State {
    if !io.written then s
    else
      Evaluated(s.(gate := Some(Gate(targetMs, rate, Timer(s.now + GATE_MAX_WAIT_MS, false))), openedAt := s.now,
                   play := Play(false, targetMs, rate, s.now)), io.release)
  }

  function Dropped(s: State): State {
    s.(gate := None)
  }

  // --------------------------------------------------------------------- events

  datatype Command = PlayAt(positionMs: int, asked: Option<real>) | Pause(positionMs: int, asked: Option<real>)
                   | Seek(positionMs: int) | Rate(rate: real)

  /** Gated: the room as stored wants its starts synchronized and has media. */
  datatype Event =
    | Tick(ms: nat)
    | Drive(command: Command, gated: bool, io: Io)
    | ReadyReport(id: Id, report: Report, edgeMs: Option<int>, durationMs: int, io: Io)
    | Join(id: Id, member: Member)
    | Reseat(id: Id, ok: bool)
    | Disconnect(id: Id, io: Io)
    | Leave(id: Id, io: Io)
    | Ignore(id: Id, io: Io)
    | SetGating(enabled: bool, io: Io)
    | LocalCopyFailed(id: Id, generation: nat, io: Io)
    | RefreshMedia(status: Status, producer: Option<Id>)
    | SwapMedia(status: Status, producer: Option<Id>)
    | Ring
    | TakeRing(io: Io)

  predicate ValidRate(rate: real) {
    0.25 <= rate <= 4.0
  }

  predicate ValidCommand(c: Command) {
    match c
    case PlayAt(positionMs, rate) => positionMs >= 0 && (rate.Some? && rate.value != 0.0 ==> ValidRate(rate.value))
    case Pause(positionMs, rate) => positionMs >= 0 && (rate.Some? && rate.value != 0.0 ==> ValidRate(rate.value))
    case Seek(positionMs) => positionMs >= 0
    case Rate(rate) => ValidRate(rate)
  }

  function RateOr(asked: Option<real>, held: real): real {
    if asked.Some? && asked.value != 0.0 then asked.value else held
  }

  predicate Gates(s: State, c: Command, gated: bool) {
    && gated && |People(s.who.clients)| >= 2
    && (c.PlayAt? || (c.Seek? && (s.play.playing || s.gate.Some?)))
  }

  /** handleState, for whoever may drive the room. */
  function Driven(s: State, c: Command, gated: bool, io: Io): State {
    var held := if s.play.rate == 0.0 then 1.0 else s.play.rate;
    if !ValidCommand(c) then s
    else if Gates(s, c, gated) then Opened(s, c.positionMs, if c.PlayAt? then RateOr(c.asked, held) else held, io)
    else if !io.written then s
    else
      match c
      case PlayAt(positionMs, rate) => Dropped(s.(play := Play(true, positionMs, RateOr(rate, held), s.now)))
      case Pause(positionMs, rate) => Dropped(s.(play := Play(false, positionMs, RateOr(rate, held), s.now)))
      case Seek(positionMs) => Dropped(s.(play := Play(s.play.playing, positionMs, held, s.now)))
      case Rate(rate) =>
        s.(play := Play(s.play.playing, ExpectedPositionMs(s.play.(rate := held), s.now), rate, s.now))
  }

  predicate SomeoneDry(who: Who) {
    exists id | id in who.clients :: who.clients[id].report.received && RunningDry(who.clients[id].report)
  }

  predicate SomeoneStalled(who: Who) {
    exists id | id in who.clients ::
      && id !in who.ignored && WaitsFor(who.media, id, who.clients[id])
      && who.clients[id].report.received && RunningDry(who.clients[id].report)
  }

  predicate AtProducedEdge(s: State, edgeMs: Option<int>) {
    && s.who.media.local && (s.who.media.producer.None? || s.who.media.producer.value !in s.who.clients)
    && SomeoneDry(s.who) && s.play.playing && edgeMs.Some?
    && ExpectedPositionMs(s.play, s.now) >= edgeMs.value - PRODUCED_EDGE_SLACK_MS
  }

  predicate StallGates(s: State) {
    && s.gate.None? && s.gating && |People(s.who.clients)| >= 2
    && (s.stallReadyAt.None? || s.now >= s.stallReadyAt.value)
    && SomeoneStalled(s.who) && s.play.playing
  }

  /** With no gate pending, a report may find the room at the end of what there is, or someone stalled. */
  function Watched(s: State, edgeMs: Option<int>, durationMs: int, io: Io): State {
    var positionMs := ExpectedPositionMs(s.play, s.now);
    if AtProducedEdge(s, edgeMs) && io.written then
      s.(play := Play(false, if positionMs < edgeMs.value then positionMs else edgeMs.value, s.play.rate, s.now))
    else if !StallGates(s) then s
    else if durationMs > 0 && positionMs >= durationMs - END_SLACK_MS then
      if io.written then s.(play := Play(false, durationMs, s.play.rate, s.now)) else s
    else Opened(s, positionMs, s.play.rate, io)
  }

  function WithClients(s: State, clients: map<Id, Member>): State {
    s.(who := s.who.(clients := clients))
  }

  function WithMedia(s: State, media: Media): State {
    s.(who := s.who.(media := media))
  }

  /** The app says it could not open the source it was playing for itself. */
  predicate FailureTaken(s: State, id: Id, generation: nat) {
    && id in s.who.clients && Copies(s.who.media, id, s.who.clients[id]) && generation == s.who.media.generation
  }

  function Vacated(s: State, id: Id): State {
    s.(who := s.who.(clients := s.who.clients - {id}, detached := s.who.detached - {id},
                     ignored := s.who.ignored - {id}))
  }

  function Step(s: State, e: Event): State {
    match e
    case Tick(ms) => s.(now := s.now + ms)
    case Drive(command, gated, io) => Driven(s, command, gated, io)
    case ReadyReport(id, report, edgeMs, durationMs, io) =>
      if id !in s.who.clients || report.positionMs < 0 || report.bufferAheadMs < 0 then s
      else
        var t := WithClients(s, s.who.clients[id := s.who.clients[id].(report := report.(received := true))]);
        if t.gate.Some? then Evaluated(t, io.release) else Watched(t, edgeMs, durationMs, io)
    case Join(id, member) =>
      if id in s.who.clients || id in s.who.detached || member.copyFailed != 0 || member.report != NO_REPORT then s
      else WithClients(s, s.who.clients[id := member])
    case Reseat(id, ok) =>
      if id !in s.who.clients && id !in s.who.detached then s
      else
        var previous := if id in s.who.clients then s.who.clients[id] else s.who.detached[id];
        var next := Member(previous.tv, previous.localSource, previous.localCopy, 0, previous.report);
        s.(who := s.who.(clients := if ok then s.who.clients[id := next] else s.who.clients - {id},
                         detached := s.who.detached - {id}))
    case Disconnect(id, io) =>
      if id !in s.who.clients then s
      else
        Evaluated(s.(who := s.who.(clients := s.who.clients - {id},
                                   detached := s.who.detached[id := s.who.clients[id]])),
                  io.release)
    case Leave(id, io) =>
      if id !in s.who.clients && id !in s.who.detached then s
      else if s.who.clients - {id} == map[] then Dropped(Vacated(s, id))
      else Evaluated(Vacated(s, id), io.release)
    case Ignore(id, io) =>
      if id !in s.who.clients then s
      else Evaluated(s.(who := s.who.(ignored := s.who.ignored + {id})), io.release)
    case SetGating(enabled, io) =>
      if !io.written then s
      else if !enabled && s.gate.Some? then Released(s.(gating := enabled), io.release)
      else s.(gating := enabled)
    case LocalCopyFailed(id, generation, io) =>
      if !FailureTaken(s, id, generation) then s
      else
        Evaluated(WithClients(s, s.who.clients[id := s.who.clients[id].(copyFailed := generation)]), io.release)
    case RefreshMedia(status, producer) => WithMedia(s, MediaOf(s.source, status, producer))
    case SwapMedia(status, producer) =>
      var source := Swapped(s.source, status);
      Dropped(WithMedia(s, MediaOf(source, status, producer)).(source := source, play := Play(false, 0, 1.0, s.now)))
    case Ring =>
      if s.gate.None? || s.now < s.gate.value.timer.at then s
      else s.(gate := Some(s.gate.value.(timer := s.gate.value.timer.(rung := true))))
    case TakeRing(io) =>
      if s.gate.None? || !s.gate.value.timer.rung then s else Released(s, io.release)
  }

  /** A room nobody is in yet, however often its source was swapped and wherever its last play was left. */
  datatype Opening = Opening(
    now: int, swaps: seq<Status>, status: Status, producer: Option<Id>, play: Play, gating: bool)

  function Start(o: Opening): State {
    var source := SourceAfter(o.swaps);
    State(o.now, Who(map[], map[], {}, MediaOf(source, o.status, o.producer)), None, o.play, o.gating, None, o.now,
          source)
  }

  datatype Run = Run(opening: Opening, events: seq<Event>) {
    function At(k: nat): State
      requires k <= |events|
    {
      if k == 0 then Start(opening) else Step(At(k - 1), events[k - 1])
    }

    /** Up to its k-th event, the run does nothing to a pending start that it must not. */
    predicate FairTo(k: nat)
      requires k <= |events|
    {
      k == 0 || (FairTo(k - 1) && Fair(At(k - 1), events[k - 1]))
    }

    /** Up to its k-th event, the loop lets no time pass over a wait that has run out, and little at once. */
    predicate PromptTo(k: nat, grain: nat)
      requires k <= |events|
    {
      k == 0 || (PromptTo(k - 1, grain) && Prompt(At(k - 1), events[k - 1], grain))
    }
  }

  // ---------------------------------------------------------------- what always holds

  /** A pending start: stored as paused at the target, someone not ready, the wait counted from its opening. */
  predicate Pending(s: State, gate: Gate) {
    && !s.play.playing && s.play.positionMs == gate.targetMs && 0 <= gate.targetMs <= MAX_INT64
    && !AllReady(s.who, gate.targetMs)
    && gate.timer.at == s.openedAt + GATE_MAX_WAIT_MS && s.openedAt <= s.now
    && (gate.timer.rung ==> s.now >= gate.timer.at)
  }

  predicate Generations(s: State) {
    && (s.source.local ==> s.source.generation > 0)
    && (s.who.media.local ==> s.source.local && s.who.media.generation == s.source.generation)
  }

  predicate Inv(s: State) {
    (s.gate.Some? ==> Pending(s, s.gate.value)) && Generations(s)
  }

  /**
   What an event must not do to a pending start: take a live seat's socket without a
   new one in its place, or reread media as something fewer members play.
   */
  predicate Fair(s: State, e: Event) {
    && (e.Reseat? ==> e.ok)
    && (e.RefreshMedia? && s.gate.Some? ==>
          var media := MediaOf(s.source, e.status, e.producer); !media.bare || media == s.who.media)
    && (e.Drive? ==> CommandPosition(e.command) <= MAX_INT64)
    && (e.ReadyReport? ==> e.durationMs <= MAX_INT64)
  }

  function CommandPosition(c: Command): int {
    if c.Rate? then 0 else c.positionMs
  }

  lemma EvaluatedOk(s: State, ok: bool)
    requires Generations(s)
    requires s.gate.Some? && !AllReady(s.who, s.gate.value.targetMs) ==> Pending(s, s.gate.value)
    ensures Inv(Evaluated(s, ok))
  {
  }

  lemma OpenedOk(s: State, targetMs: int, rate: real, io: Io)
    requires Inv(s) && 0 <= targetMs <= MAX_INT64
    ensures Inv(Opened(s, targetMs, rate, io))
  {
  }

  lemma DrivenOk(s: State, c: Command, gated: bool, io: Io)
    requires Inv(s) && CommandPosition(c) <= MAX_INT64
    ensures Inv(Driven(s, c, gated, io))
  {
    var held := if s.play.rate == 0.0 then 1.0 else s.play.rate;
    if ValidCommand(c) && Gates(s, c, gated) {
      OpenedOk(s, c.positionMs, if c.PlayAt? then RateOr(c.asked, held) else held, io);
    }
  }

  lemma WatchedOk(s: State, edgeMs: Option<int>, durationMs: int, io: Io)
    requires Inv(s) && s.gate.None?
    ensures Inv(Watched(s, edgeMs, durationMs, io))
  {
    OpenedOk(s, ExpectedPositionMs(s.play, s.now), s.play.rate, io);
  }

  /** Readiness looks at one member at a time: whoever was not ready and is unchanged still is not. */
  lemma SomeoneStillWaited(before: Who, after: Who, targetMs: int)
    requires !AllReady(before, targetMs)
    requires forall id | id in before.clients && !Ready(before, id, before.clients[id], targetMs) ::
               id in after.clients && !Ready(after, id, after.clients[id], targetMs)
    ensures !AllReady(after, targetMs)
  {
    var id :| id in before.clients && !Ready(before, id, before.clients[id], targetMs);
    assert !Ready(after, id, after.clients[id], targetMs);
  }

  lemma ReportOk(s: State, e: Event)
    requires Inv(s) && e.ReadyReport? && Fair(s, e)
    ensures Inv(Step(s, e))
  {
    if e.id in s.who.clients {
      var t := WithClients(s, s.who.clients[e.id := s.who.clients[e.id].(report := e.report.(received := true))]);
      if t.gate.Some? { EvaluatedOk(t, e.io.release); } else { WatchedOk(t, e.edgeMs, e.durationMs, e.io); }
    }
  }

  /** A newcomer, or a seat's new socket, is one more to wait for and never one less. */
  lemma ArrivalOk(s: State, e: Event)
    requires Inv(s) && (e.Join? || e.Reseat?) && Fair(s, e)
    ensures Inv(Step(s, e))
  {
    var t := Step(s, e);
    if s.gate.Some? {
      SomeoneStillWaited(s.who, t.who, s.gate.value.targetMs);
    }
  }

  lemma DepartureOk(s: State, e: Event)
    requires Inv(s) && (e.Disconnect? || e.Leave?)
    ensures Inv(Step(s, e))
  {
  }

  lemma AllowanceOk(s: State, e: Event)
    requires Inv(s) && (e.Ignore? || e.LocalCopyFailed? || e.SetGating?)
    ensures Inv(Step(s, e))
  {
  }

  lemma MediaOk(s: State, e: Event)
    requires Inv(s) && (e.RefreshMedia? || e.SwapMedia?) && Fair(s, e)
    ensures Inv(Step(s, e))
  {
    if e.RefreshMedia? && s.gate.Some? && Step(s, e) != s {
      SomeoneStillWaited(s.who, Step(s, e).who, s.gate.value.targetMs);
    }
  }

  lemma InvStep(s: State, e: Event)
    requires Inv(s) && Fair(s, e)
    ensures Inv(Step(s, e))
  {
    match e
    case Drive(command, gated, io) => DrivenOk(s, command, gated, io);
    case ReadyReport(_, _, _, _, _) => ReportOk(s, e);
    case Join(_, _) => ArrivalOk(s, e);
    case Reseat(_, _) => ArrivalOk(s, e);
    case Disconnect(_, _) => DepartureOk(s, e);
    case Leave(_, _) => DepartureOk(s, e);
    case RefreshMedia(_, _) => MediaOk(s, e);
    case SwapMedia(_, _) => MediaOk(s, e);
    case Tick(_) =>
    case Ring =>
    case TakeRing(_) =>
    case _ => AllowanceOk(s, e);
  }

  lemma {:induction false} InvAlways(run: Run, k: nat)
    requires k <= |run.events| && run.FairTo(k)
    ensures Inv(run.At(k))
  {
    if k > 0 {
      InvAlways(run, k - 1);
      InvStep(run.At(k - 1), run.events[k - 1]);
    }
  }

  lemma PendingHasWaited(s: State)
    requires Inv(s) && s.gate.Some?
    ensures exists id :: && id in s.who.clients && WaitsFor(s.who.media, id, s.who.clients[id])
                         && id !in s.who.ignored && !Buffered(s.who.clients[id].report, s.gate.value.targetMs)
  {
    var id :| id in s.who.clients && !Ready(s.who, id, s.who.clients[id], s.gate.value.targetMs);
  }

  /** A pending start always means the room is stored paused at its target and some connected member is not ready. */
  lemma PendingMeansPaused(run: Run, k: nat)
    requires k <= |run.events| && run.FairTo(k) && run.At(k).gate.Some?
    ensures var s := run.At(k); var target := s.gate.value.targetMs;
            && !s.play.playing && s.play.positionMs == target
            && exists id :: && id in s.who.clients && WaitsFor(s.who.media, id, s.who.clients[id])
                            && id !in s.who.ignored && !Buffered(s.who.clients[id].report, target)
  {
    InvAlways(run, k);
    PendingHasWaited(run.At(k));
  }

  // --------------------------------------------------------------- how it ends

  /** Where a pending start is aimed once an event has been taken. */
  function Target(s: State, e: Event): int
    requires s.gate.Some?
  {
    if e.Drive? && Gates(s, e.command, e.gated) && ValidCommand(e.command) && e.io.written then e.command.positionMs
    else s.gate.value.targetMs
  }

  /** Every connected member that is waited for and not ignored has media at the target. */
  predicate WaitedForBuffered(who: Who, targetMs: int) {
    forall id | id in who.clients && WaitsFor(who.media, id, who.clients[id]) && id !in who.ignored ::
      Buffered(who.clients[id].report, targetMs)
  }

  lemma ReleasedOnlyWhen(s: State, e: Event)
    requires Inv(s) && s.gate.Some? && Step(s, e).play.playing
    ensures Step(s, e).gate.None?
    ensures var t := Step(s, e);
            && (e.TakeRing? || (e.SetGating? && !e.enabled)
                || (e.Drive? && e.command.PlayAt? && !Gates(s, e.command, e.gated))
                || (t.play.positionMs == Target(s, e)
                    && WaitedForBuffered(t.who, Target(s, e))))
  {
    var t := Step(s, e);
    assert e.Drive? && !Gates(s, e.command, e.gated) ==> e.command.PlayAt? by {
      if e.Drive? && !Gates(s, e.command, e.gated) { DrivenUngated(s, e.command, e.gated, e.io); }
    }
    if !e.TakeRing? && !e.SetGating? && !(e.Drive? && !Gates(s, e.command, e.gated)) {
      assert AllReady(t.who, Target(s, e));
      forall id | id in t.who.clients && WaitsFor(t.who.media, id, t.who.clients[id]) && id !in t.who.ignored
        ensures Buffered(t.who.clients[id].report, Target(s, e))
      {
        assert Ready(t.who, id, t.who.clients[id], Target(s, e));
      }
    }
  }

  /**
   While a start is pending, the room starts playing only at its target with everyone
   waited for and not ignored buffered there, or by the wait running out, the setting
   being turned off, or a play that the room no longer holds back.
   */
  lemma PlaysOnlyWhen(run: Run, k: nat)
    requires k < |run.events| && run.FairTo(k)
    requires run.At(k).gate.Some? && run.At(k + 1).play.playing
    ensures var s, e, t := run.At(k), run.events[k], run.At(k + 1);
            && t.gate.None?
            && (e.TakeRing? || (e.SetGating? && !e.enabled)
                || (e.Drive? && e.command.PlayAt? && !Gates(s, e.command, e.gated))
                || (t.play.positionMs == Target(s, e)
                    && WaitedForBuffered(t.who, Target(s, e))))
  {
    InvAlways(run, k);
    ReleasedOnlyWhen(run.At(k), run.events[k]);
  }

  lemma DrivenUngated(s: State, c: Command, gated: bool, io: Io)
    requires Inv(s) && s.gate.Some? && !Gates(s, c, gated) && Driven(s, c, gated, io).play.playing
    ensures c.PlayAt?
  {
  }

  lemma RingTaken(s: State, io: Io)
    requires Inv(s) && Step(s, TakeRing(io)) != s
    ensures s.now >= s.openedAt + GATE_MAX_WAIT_MS
  {
  }

  /** The wait never runs out early: however often the start is aimed anew, it is the last opening that counts. */
  lemma TimesOutAfterTheWholeWait(run: Run, k: nat, io: Io)
    requires k <= |run.events| && run.FairTo(k)
    requires Step(run.At(k), TakeRing(io)) != run.At(k)
    ensures run.At(k).now >= run.At(k).openedAt + GATE_MAX_WAIT_MS
  {
    InvAlways(run, k);
    RingTaken(run.At(k), io);
  }

  lemma RingDue(s: State)
    requires Inv(s) && s.gate.Some? && s.now >= s.openedAt + GATE_MAX_WAIT_MS
    ensures var t := Step(Step(s, Ring), TakeRing(Io(true, true)));
            t.gate.None? && t.play.playing && t.play.positionMs == s.gate.value.targetMs
  {
  }

  /** And once it has run out the ring is there to be taken, and starts the room at the target. */
  lemma TimesOutWhenDue(run: Run, k: nat)
    requires k <= |run.events| && run.FairTo(k)
    requires run.At(k).gate.Some? && run.At(k).now >= run.At(k).openedAt + GATE_MAX_WAIT_MS
    ensures var s := run.At(k); var t := Step(Step(s, Ring), TakeRing(Io(true, true)));
            t.gate.None? && t.play.playing && t.play.positionMs == s.gate.value.targetMs
  {
    InvAlways(run, k);
    RingDue(run.At(k));
  }

  /** The wait has run out and its ring is not yet taken. */
  predicate Due(s: State) {
    s.gate.Some? && s.now >= s.gate.value.timer.at
  }

  predicate Prompt(s: State, e: Event, grain: nat) {
    e.Tick? ==> !Due(s) && e.ms <= grain
  }

  predicate WithinTheWait(s: State, grain: nat) {
    s.gate.Some? ==> s.now < s.openedAt + GATE_MAX_WAIT_MS + grain
  }

  lemma WaitStep(s: State, e: Event, grain: nat)
    requires Inv(s) && Prompt(s, e, grain) && WithinTheWait(s, grain)
    ensures WithinTheWait(Step(s, e), grain)
  {
  }

  /** A loop that takes a ring as soon as it comes round holds no start longer than the wait and one round more. */
  lemma {:induction false} NeverHeldPastTheWait(run: Run, k: nat, grain: nat)
    requires k <= |run.events| && run.FairTo(k) && run.PromptTo(k, grain)
    ensures WithinTheWait(run.At(k), grain)
  {
    if k > 0 {
      InvAlways(run, k - 1);
      NeverHeldPastTheWait(run, k - 1, grain);
      WaitStep(run.At(k - 1), run.events[k - 1], grain);
    }
  }

  // ------------------------------------------------------------- stalls, and quirks

  predicate Cooling(s: State, since: int) {
    s.stallReadyAt.Some? && s.stallReadyAt.value >= since + STALL_REGATE_COOLDOWN_MS && s.now >= since
  }

  lemma CoolingStep(s: State, e: Event, since: int)
    requires Cooling(s, since)
    ensures Cooling(Step(s, e), since)
  {
  }

  lemma {:induction false} CoolingSince(run: Run, j: nat, k: nat)
    requires j < k <= |run.events| && Cooling(run.At(j + 1), run.At(j).now)
    ensures Cooling(run.At(k), run.At(j).now)
  {
    if k > j + 1 {
      CoolingSince(run, j, k - 1);
      CoolingStep(run.At(k - 1), run.events[k - 1], run.At(j).now);
    }
  }

  lemma StallOpens(s: State, e: Event)
    requires e.ReadyReport? && s.gate.None? && Step(s, e).gate.Some?
    ensures s.stallReadyAt.None? || s.now >= s.stallReadyAt.value
  {
  }

  lemma ReleaseCools(s: State, e: Event)
    requires Step(s, e).stallReadyAt != s.stallReadyAt
    ensures Cooling(Step(s, e), s.now)
  {
  }

  /** After a start is released, no stall stops the room again before the cooldown is over. */
  lemma StallsWaitOutTheCooldown(run: Run, j: nat, k: nat)
    requires j < k < |run.events| && run.At(j + 1).stallReadyAt != run.At(j).stallReadyAt
    requires run.events[k].ReadyReport? && run.At(k).gate.None? && run.At(k + 1).gate.Some?
    ensures run.At(k).now >= run.At(j).now + STALL_REGATE_COOLDOWN_MS
  {
    ReleaseCools(run.At(j), run.events[j]);
    CoolingSince(run, j, k);
    StallOpens(run.At(k), run.events[k]);
  }

  /**
   When the last socket drops, a pending start plays with nobody connected to see it;
   when the last connected seat is given up it is abandoned, held seats or not.
   */
  lemma LastToDropReleases(s: State, id: Id)
    requires s.gate.Some? && s.who.clients.Keys == {id}
    ensures Step(s, Disconnect(id, Io(true, true))).play.playing
    ensures Step(s, Leave(id, Io(true, true))).play == s.play && Step(s, Leave(id, Io(true, true))).gate.None?
  {
    assert s.who.clients - {id} == map[];
  }

  // ---------------------------------------- looked at again, or not, by others

  /** The connected members a pending start waits for, as the room is told. */
  function Waited(s: State): set<Id>
    requires s.gate.Some?
  {
    set id | id in s.who.clients && !Ready(s.who, id, s.who.clients[id], s.gate.value.targetMs)
  }

  /** A resume that cannot read the room drops a seat unasked: wrong exactly when it was the only one waited for. */
  lemma FailedReseatKeepsExactly(s: State, id: Id)
    requires Inv(s) && s.gate.Some? && id in s.who.clients
    ensures Inv(Step(s, Reseat(id, false))) <==> Waited(s) != {id}
  {
    var t := Step(s, Reseat(id, false));
    assert Waited(t) == Waited(s) - {id};
    assert AllReady(t.who, t.gate.value.targetMs) <==> Waited(t) == {} by {
      AllReadyIsNoneWaited(t);
    }
    AllReadyIsNoneWaited(s);
    assert Waited(s) - {id} == {} <==> Waited(s) == {} || Waited(s) == {id};
  }

  lemma AllReadyIsNoneWaited(s: State)
    requires s.gate.Some?
    ensures AllReady(s.who, s.gate.value.targetMs) <==> Waited(s) == {}
  {
    if Waited(s) == {} {
      forall id | id in s.who.clients
        ensures Ready(s.who, id, s.who.clients[id], s.gate.value.targetMs)
      {
        assert id !in Waited(s);
      }
    }
  }

  /** The apps among those waited for that play the media as reread for themselves. */
  function AppsWaited(s: State, media: Media): set<Id>
    requires s.gate.Some?
  {
    set id | && id in s.who.clients && (Produces(media, id, s.who.clients[id]) || Copies(media, id, s.who.clients[id]))
             && !s.who.clients[id].tv && id !in s.who.ignored
             && !Buffered(s.who.clients[id].report, s.gate.value.targetMs)
  }

  /**
   Rereading the media does not look at a pending start either: right exactly when the
   bucket has something to play, or some app that plays for itself is not yet buffered.
   */
  lemma RefreshKeepsExactly(s: State, status: Status, producer: Option<Id>)
    requires Inv(s) && s.gate.Some?
    ensures var media := MediaOf(s.source, status, producer);
            Inv(Step(s, RefreshMedia(status, producer))) <==> !media.bare || AppsWaited(s, media) != {}
  {
    var media := MediaOf(s.source, status, producer);
    var t := Step(s, RefreshMedia(status, producer));
    AllReadyIsNoneWaited(t);
    if media.bare {
      assert Waited(t) == AppsWaited(s, media);
    } else {
      SomeoneStillWaited(s.who, t.who, s.gate.value.targetMs);
    }
  }

  const BROWSER := Member(false, false, false, 0, NO_REPORT)
  const APP := Member(false, true, false, 0, NO_REPORT)
  const ALL_WELL := Io(true, true)
  const BUFFERED := Report(0, GATE_READY_BUFFER_MS, false, true)

  /** Two join, the host plays, and one is buffered; the other's socket then fails to come back. */
  function FailingResume(host: Id, guest: Id): Run {
    Run(Opening(0, [RoomStore.Uploading], RoomStore.Ready, None, Play(false, 0, 1.0, 0), true),
        [Join(host, BROWSER), Join(guest, BROWSER), Drive(PlayAt(0, None), true, ALL_WELL),
         ReadyReport(host, BUFFERED, None, 0, ALL_WELL), Reseat(guest, false)])
  }

  lemma PlayWaits(s: State, a: Id, b: Id)
    requires a != b && s.who.clients.Keys == {a, b} && s.gate.None?
    requires !s.who.clients[a].tv && !s.who.clients[b].tv && s.play.rate == 1.0
    requires !Ready(s.who, a, s.who.clients[a], 0)
    ensures var t := Step(s, Drive(PlayAt(0, None), true, ALL_WELL));
            t == s.(gate := Some(Gate(0, 1.0, Timer(s.now + GATE_MAX_WAIT_MS, false))), openedAt := s.now,
                    play := Play(false, 0, 1.0, s.now))
  {
    assert People(s.who.clients) == {a, b};
  }

  lemma JoinsRoom(s: State, id: Id, m: Member)
    requires id !in s.who.clients && id !in s.who.detached && m.copyFailed == 0 && m.report == NO_REPORT
    ensures Step(s, Join(id, m)) == WithClients(s, s.who.clients[id := m]) && Fair(s, Join(id, m))
  {
  }

  lemma ReportsWhileOthersWait(s: State, id: Id, report: Report, other: Id)
    requires s.gate.Some? && id in s.who.clients
    requires report.received && report.positionMs >= 0 && report.bufferAheadMs >= 0
    requires other != id && other in Waited(s)
    ensures var e := ReadyReport(id, report, None, 0, ALL_WELL);
            && Step(s, e) == WithClients(s, s.who.clients[id := s.who.clients[id].(report := report)]) && Fair(s, e)
  {
    var t := WithClients(s, s.who.clients[id := s.who.clients[id].(report := report)]);
    assert !Ready(t.who, other, t.who.clients[other], t.gate.value.targetMs);
  }

  lemma NextIs(run: Run, k: nat)
    requires k < |run.events|
    ensures run.At(k + 1) == Step(run.At(k), run.events[k])
    ensures run.FairTo(k + 1) == (run.FairTo(k) && Fair(run.At(k), run.events[k]))
  {
  }

  lemma TwoJoined(run: Run, n: nat, a: Id, b: Id, first: Member, second: Member)
    requires n == 0 && a != b && |run.events| >= 2
    requires run.events[0] == Join(a, first) && run.events[1] == Join(b, second)
    requires first.copyFailed == second.copyFailed == 0 && first.report == second.report == NO_REPORT
    ensures run.At(n + 2) == WithClients(Start(run.opening), map[a := first, b := second]) && run.FairTo(n + 2)
  {
    JoinsRoom(Start(run.opening), a, first);
    NextIs(run, n);
    JoinsRoom(run.At(n + 1), b, second);
    NextIs(run, n + 1);
  }

  /** Reachable: a start pending though everyone left is ready. */
  lemma FailedResumeLeavesNobodyWaited(run: Run, n: nat, host: Id, guest: Id)
    requires host != guest && run == FailingResume(host, guest) && n + 1 == |run.events|
    ensures run.FairTo(n) && run.At(n + 1).gate.Some? && AllReady(run.At(n + 1).who, 0) && !Inv(run.At(n + 1))
  {
    TwoJoined(run, n - 4, host, guest, BROWSER, BROWSER);
    assert SourceAfter([RoomStore.Uploading]) == Source(false, 1);
    PlayWaits(run.At(n - 2), host, guest);
    NextIs(run, n - 2);
    assert guest in Waited(run.At(n - 1));
    ReportsWhileOthersWait(run.At(n - 1), host, BUFFERED, guest);
    NextIs(run, n - 1);
    NextIs(run, n);
    assert run.At(n + 1).who.clients == map[host := BROWSER.(report := BUFFERED)];
  }

  /** The host's app produces and is waited for; the guest is then recorded as holding the source. */
  function FailingReread(host: Id, guest: Id): Run {
    Run(Opening(0, [RoomStore.Local], RoomStore.Local, Some(host), Play(false, 0, 1.0, 0), true),
        [Join(host, APP), Join(guest, BROWSER), Drive(PlayAt(0, None), true, ALL_WELL),
         RefreshMedia(RoomStore.Local, Some(guest))])
  }

  lemma RereadLeavesNobodyWaited(run: Run, n: nat, host: Id, guest: Id)
    requires host != guest && run == FailingReread(host, guest) && n + 1 == |run.events|
    ensures run.FairTo(n) && run.At(n + 1).gate.Some? && AllReady(run.At(n + 1).who, 0) && !Inv(run.At(n + 1))
  {
    TwoJoined(run, n - 3, host, guest, APP, BROWSER);
    assert SourceAfter([]) == Source(false, 0);
    assert SourceAfter([RoomStore.Local]) == Source(true, 1);
    assert !Ready(run.At(n - 1).who, host, APP, 0);
    PlayWaits(run.At(n - 1), host, guest);
    NextIs(run, n - 1);
    NextIs(run, n);
    assert run.At(n + 1).who.media == Media(true, true, 1, Some(guest));
  }

  // -------------------------------------------------------- who plays its own copy

  /** A new socket in the seat, which has failed at nothing yet. */
  predicate NewSocket(s: State, e: Event, id: Id) {
    (e.Join? || e.Reseat?) && e.id == id && (e.Join? <==> id !in s.who.clients && id !in s.who.detached)
  }

  predicate TakesFailure(s: State, e: Event, id: Id) {
    e.LocalCopyFailed? && e.id == id && FailureTaken(s, id, e.generation)
  }

  /** The generation the seat's socket last failed at, or 0. */
  function LastFailed(run: Run, k: nat, id: Id): nat
    requires k <= |run.events|
  {
    if k == 0 || NewSocket(run.At(k - 1), run.events[k - 1], id) then 0
    else if TakesFailure(run.At(k - 1), run.events[k - 1], id) then run.events[k - 1].generation
    else LastFailed(run, k - 1, id)
  }

  function SeatOf(s: State, id: Id): Option<Member> {
    if id in s.who.clients then Some(s.who.clients[id])
    else if id in s.who.detached then Some(s.who.detached[id]) else None
  }

  lemma FailureAfterSocket(s: State, e: Event, id: Id)
    requires (e.Join? || e.Reseat?) && SeatOf(Step(s, e), id).Some?
    ensures var failed := SeatOf(Step(s, e), id).value.copyFailed;
            if NewSocket(s, e, id) then failed == 0
            else SeatOf(s, id).Some? && failed == SeatOf(s, id).value.copyFailed
  {
  }

  lemma FailureAfterOther(s: State, e: Event, id: Id)
    requires !e.Join? && !e.Reseat? && SeatOf(Step(s, e), id).Some?
    ensures var failed := SeatOf(Step(s, e), id).value.copyFailed;
            if TakesFailure(s, e, id) then failed == e.generation
            else SeatOf(s, id).Some? && failed == SeatOf(s, id).value.copyFailed
  {
  }

  lemma FailureAfter(s: State, e: Event, id: Id)
    requires SeatOf(Step(s, e), id).Some?
    ensures var failed := SeatOf(Step(s, e), id).value.copyFailed;
            if NewSocket(s, e, id) then failed == 0
            else if TakesFailure(s, e, id) then failed == e.generation
            else SeatOf(s, id).Some? && failed == SeatOf(s, id).value.copyFailed
  {
    if e.Join? || e.Reseat? {
      FailureAfterSocket(s, e, id);
    } else {
      FailureAfterOther(s, e, id);
    }
  }

  lemma {:induction false} FailureRemembered(run: Run, k: nat, id: Id)
    requires k <= |run.events| && SeatOf(run.At(k), id).Some?
    ensures SeatOf(run.At(k), id).value.copyFailed == LastFailed(run, k, id)
  {
    FailureAfter(run.At(k - 1), run.events[k - 1], id);
    if !NewSocket(run.At(k - 1), run.events[k - 1], id) && !TakesFailure(run.At(k - 1), run.events[k - 1], id) {
      FailureRemembered(run, k - 1, id);
    }
  }

  lemma GenerationsStep(s: State, e: Event)
    requires Generations(s)
    ensures Generations(Step(s, e)) && Step(s, e).source.generation >= s.source.generation
  {
  }

  lemma {:induction false} GenerationsAlways(run: Run, j: nat, k: nat)
    requires j <= k <= |run.events|
    ensures Generations(run.At(k)) && run.At(j).source.generation <= run.At(k).source.generation
  {
    if k > 0 {
      GenerationsAlways(run, if j < k then j else k - 1, k - 1);
      GenerationsStep(run.At(k - 1), run.events[k - 1]);
    }
  }

  /** The seat's present socket failed at this generation, by an event of the run. */
  predicate FailedAt(run: Run, k: nat, id: Id, generation: nat, j: nat)
    requires k <= |run.events|
  {
    && j < k && TakesFailure(run.At(j), run.events[j], id) && run.events[j].generation == generation
    && forall i | j < i < k :: !NewSocket(run.At(i), run.events[i], id)
  }

  lemma {:induction false} FailureHasItsEvent(run: Run, k: nat, id: Id) returns (j: nat)
    requires k <= |run.events| && LastFailed(run, k, id) > 0
    ensures FailedAt(run, k, id, LastFailed(run, k, id), j)
  {
    j := k - 1;
    if !TakesFailure(run.At(j), run.events[j], id) {
      j := FailureHasItsEvent(run, k - 1, id);
    }
  }

  lemma SameGeneration(run: Run, j: nat, i: nat, k: nat, id: Id)
    requires j <= i <= k <= |run.events| && j < |run.events| && TakesFailure(run.At(j), run.events[j], id)
    requires run.events[j].generation == run.At(k).source.generation
    ensures run.At(i).source.generation == run.At(k).source.generation && Generations(run.At(i))
  {
    GenerationsAlways(run, j, j);
    GenerationsAlways(run, j, i);
    GenerationsAlways(run, i, k);
  }

  /** While its generation lasts, a failure is the last one of its socket: an app that failed is not asked again. */
  lemma {:induction false} FailureLasts(run: Run, k: nat, id: Id, generation: nat, j: nat)
    requires k <= |run.events| && FailedAt(run, k, id, generation, j)
    requires generation == run.At(k).source.generation
    ensures LastFailed(run, k, id) == generation
  {
    if k > j + 1 {
      SameGeneration(run, j, k - 1, k, id);
      FailureLasts(run, k - 1, id, generation, j);
      NoneTakenTwice(run, k - 1, id);
    }
  }

  lemma NoneTakenTwice(run: Run, k: nat, id: Id)
    requires k < |run.events| && LastFailed(run, k, id) == run.At(k).source.generation && Generations(run.At(k))
    ensures !TakesFailure(run.At(k), run.events[k], id)
  {
    if id in run.At(k).who.clients {
      FailureRemembered(run, k, id);
    }
  }

  /**
   In every reachable state an app that can play its own copy of a local source it does
   not produce is taken to, unless its present socket said it could not for this very
   generation: a fresh socket's zero is no generation of a local source.
   */
  lemma CopiesUnlessItFailed(run: Run, k: nat, id: Id)
    requires k <= |run.events| && id in run.At(k).who.clients
    requires var media, m := run.At(k).who.media, run.At(k).who.clients[id];
             media.local && m.localCopy && media.producer != Some(id)
    ensures var s := run.At(k);
            Copies(s.who.media, id, s.who.clients[id]) <==>
            !exists j :: FailedAt(run, k, id, s.who.media.generation, j)
  {
    var generation := run.At(k).who.media.generation;
    GenerationsAlways(run, k, k);
    FailureRemembered(run, k, id);
    if LastFailed(run, k, id) == generation {
      var j := FailureHasItsEvent(run, k, id);
    }
    if j :| FailedAt(run, k, id, generation, j) {
      FailureLasts(run, k, id, generation, j);
    }
  }

  // -------------------------------------------------------------- the code itself

  class GateLoop {
    var clients: map<Id, Member>
    var detached: map<Id, Member>
    var ignored: set<Id>
    var media: Media
    var gate: Option<Gate>
    var stored: Play               // what SetState last wrote
    var gating: bool
    var stallGateReadyAt: Option<int>
    ghost var openedAt: int
    ghost var source: Source

    ghost function View(now: int): State
      reads this
    {
      State(now, Who(clients, detached, ignored, media), gate, stored, gating, stallGateReadyAt, openedAt, source)
    }

    constructor (o: Opening)
      ensures View(o.now) == Start(o)
    {
      clients, detached, ignored, gate, stallGateReadyAt := map[], map[], {}, None, None;
      var held := SourceAfter(o.swaps);
      media, source, stored, gating, openedAt := MediaOf(held, o.status, o.producer), held, o.play, o.gating, o.now;
    }

    method ClientReady(id: Id, targetMs: int) returns (ready: bool)
      requires id in clients
      ensures ready == Ready(Who(clients, detached, ignored, media), id, clients[id], targetMs)
    {
      if !WaitsFor(media, id, clients[id]) || id in ignored {
        return true;
      }
      var report := clients[id].report;
      if !report.received || RunningDry(report) {
        return false;
      }
      var drift := report.positionMs - targetMs;
      if drift < 0 {
        drift := -drift;
      }
      ready := drift <= GATE_POSITION_SLACK_MS && report.bufferAheadMs >= GATE_READY_BUFFER_MS;
    }

    method EveryoneReady(targetMs: int) returns (ready: bool)
      ensures ready == AllReady(Who(clients, detached, ignored, media), targetMs)
    {
      var todo := clients.Keys;
      while todo != {}
        invariant todo <= clients.Keys
        invariant forall id | id in clients && id !in todo ::
                    Ready(Who(clients, detached, ignored, media), id, clients[id], targetMs)
        decreases |todo|
      {
        var id :| id in todo;
        var one := ClientReady(id, targetMs);
        if !one {
          return false;
        }
        todo := todo - {id};
      }
      return true;
    }

    method ReleaseGate(now: int, ok: bool)
      modifies this`gate, this`stallGateReadyAt, this`stored
      ensures View(now) == if old(gate).None? then old(View(now)) else Released(old(View(now)), ok)
    {
      if gate.None? {
        return;
      }
      var held := gate.value;
      gate := None;
      stallGateReadyAt := Some(now + STALL_REGATE_COOLDOWN_MS);
      if ok {
        var rate := if stored.rate == 0.0 then 1.0 else stored.rate;
        stored := Play(true, held.targetMs, rate, now);
      }
    }

    method EvaluateGate(now: int, ok: bool) returns (released: bool)
      modifies this`gate, this`stallGateReadyAt, this`stored
      ensures View(now) == Evaluated(old(View(now)), ok)
      ensures released == (old(gate).Some? && gate.None?)
    {
      if gate.None? {
        return false;
      }
      var ready := EveryoneReady(gate.value.targetMs);
      if !ready {
        return false;
      }
      ReleaseGate(now, ok);
      return true;
    }

    /** The timer of a pending gate is stopped, a ring it left behind is drained, and it starts over. */
    method OpenGate(now: int, targetMs: int, rate: real, io: Io)
      modifies this`gate, this`stallGateReadyAt, this`stored, this`openedAt
      ensures View(now) == Opened(old(View(now)), targetMs, rate, io)
    {
      if !io.written {
        return;
      }
      stored := Play(false, targetMs, rate, now);
      if gate.None? {
        gate := Some(Gate(0, 0.0, Timer(now + GATE_MAX_WAIT_MS, false)));
      } else {
        gate := Some(gate.value.(timer := gate.value.timer.(rung := false)));
        gate := Some(gate.value.(timer := gate.value.timer.(at := now + GATE_MAX_WAIT_MS)));
      }
      openedAt := now;
      gate := Some(gate.value.(targetMs := targetMs));
      gate := Some(gate.value.(rate := rate));
      var _ := EvaluateGate(now, io.release);
    }

    method CountPeople() returns (n: nat)
      ensures n == |People(clients)|
    {
      n := |set id | id in clients && !clients[id].tv|;
    }

    method StalledMember() returns (found: bool)
      ensures found == SomeoneStalled(Who(clients, detached, ignored, media))
    {
      var todo := clients.Keys;
      while todo != {}
        invariant todo <= clients.Keys
        invariant forall id | id in clients && id !in todo && id !in ignored && WaitsFor(media, id, clients[id]) ::
                    !(clients[id].report.received && RunningDry(clients[id].report))
        decreases |todo|
      {
        var id :| id in todo;
        var report := clients[id].report;
        if id !in ignored && WaitsFor(media, id, clients[id]) && report.received && RunningDry(report) {
          return true;
        }
        todo := todo - {id};
      }
      return false;
    }

    method GateOnStall(now: int, durationMs: int, io: Io)
      modifies this`gate, this`stallGateReadyAt, this`stored, this`openedAt
      ensures View(now) == Watched(old(View(now)), None, durationMs, io)
    {
      var people := CountPeople();
      if gate.Some? || !gating || people < 2 {
        return;
      }
      if stallGateReadyAt.Some? && now < stallGateReadyAt.value {
        return;
      }
      var stalled := StalledMember();
      if !stalled || !stored.playing {
        return;
      }
      var positionMs := ExpectedPositionMs(stored, now);
      if durationMs > 0 && positionMs >= durationMs - END_SLACK_MS {
        if io.written {
          stored := Play(false, durationMs, stored.rate, now);
        }
        return;
      }
      OpenGate(now, positionMs, stored.rate, io);
    }

    method HandleState(now: int, c: Command, gated: bool, io: Io)
      modifies this`gate, this`stallGateReadyAt, this`stored, this`openedAt
      ensures View(now) == Driven(old(View(now)), c, gated, io)
    {
      if !ValidCommand(c) {
        return;
      }
      var held := if stored.rate == 0.0 then 1.0 else stored.rate;
      var people := CountPeople();
      var shouldGate := gated && people >= 2;
      match c {
        case PlayAt(positionMs, asked) =>
          if shouldGate {
            OpenGate(now, positionMs, RateOr(asked, held), io);
          } else if io.written {
            stored, gate := Play(true, positionMs, RateOr(asked, held), now), None;
          }
        case Pause(positionMs, asked) =>
          if io.written {
            stored, gate := Play(false, positionMs, RateOr(asked, held), now), None;
          }
        case Seek(positionMs) =>
          if (stored.playing || gate.Some?) && shouldGate {
            OpenGate(now, positionMs, held, io);
          } else if io.written {
            stored, gate := Play(stored.playing, positionMs, held, now), None;
          }
        case Rate(rate) =>
          if io.written {
            var positionMs := ExpectedPositionMs(stored.(rate := held), now);
            stored := Play(stored.playing, positionMs, rate, now);
          }
      }
    }

    method HandleIgnore(now: int, id: Id, io: Io)
      modifies this`ignored, this`gate, this`stallGateReadyAt, this`stored
      ensures View(now) == Step(old(View(now)), Ignore(id, io))
    {
      if id !in clients {
        return;
      }
      ignored := ignored + {id};
      var _ := EvaluateGate(now, io.release);
    }

    method HandleDisconnect(now: int, id: Id, io: Io)
      modifies this`clients, this`detached, this`gate, this`stallGateReadyAt, this`stored
      ensures View(now) == Step(old(View(now)), Disconnect(id, io))
    {
      if id !in clients {
        return;
      }
      detached := detached[id := clients[id]];
      clients := clients - {id};
      var _ := EvaluateGate(now, io.release);
    }

    method Vacate(now: int, id: Id)
      modifies this`clients, this`detached, this`ignored
      ensures View(now) == Vacated(old(View(now)), id)
    {
      clients, detached := clients - {id}, detached - {id};
      ignored := ignored - {id};
    }

    method FinalizeLeave(now: int, id: Id, io: Io)
      requires id in clients || id in detached
      modifies this`clients, this`detached, this`ignored, this`gate, this`stallGateReadyAt, this`stored
      ensures View(now) == Step(old(View(now)), Leave(id, io))
    {
      Vacate(now, id);
      if |clients| == 0 {
        gate := None;
      } else {
        var _ := EvaluateGate(now, io.release);
      }
    }
  }
}
