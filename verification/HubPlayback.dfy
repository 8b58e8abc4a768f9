/**
 What a room plays (internal/sync/hub.go:1180-1252, gate.go:63-271): what a command, a
 report or a departure leaves it playing, told from the numbers on the wire.
 */
module HubPlayback {
  import opened Wrappers
  import opened HubGate

  /** Where the room is now. */
  function Shown(s: State): int {
    ExpectedPositionMs(s.play, s.now)
  }

  predicate InRange(positionMs: int) {
    0 <= positionMs <= MAX_INT64
  }

  /** All that is neither playback nor a pending start is as it was. */
  predicate SameRoom(s: State, t: State) {
    t.now == s.now && t.who == s.who && t.gating == s.gating && t.source == s.source
  }

  // ------------------------------------------------------------- the room's clock

  /** A room left alone is where its stored position, its rate and the time since put it, to the millisecond. */
  lemma PlaysOn(s: State, ms: nat)
    requires s.play.playing
    ensures var exact := s.play.positionMs as real + (s.now + ms - s.play.serverTimeMs) as real * s.play.rate;
            var shown := Shown(Step(s, Tick(ms)));
            && InRange(shown)
            && (0.0 <= exact <= MAX_INT64 as real ==> shown as real <= exact < shown as real + 1.0)
            && (exact < 0.0 ==> shown == 0) && (exact > MAX_INT64 as real ==> shown == MAX_INT64)
  {
  }

  lemma StandsStill(s: State, ms: nat)
    requires !s.play.playing && InRange(s.play.positionMs)
    ensures Shown(Step(s, Tick(ms))) == s.play.positionMs
  {
  }

  // ------------------------------------------------------- commands that are not gated

  /** The room would have to wait: it synchronizes its starts and more than one person is there. */
  predicate Synchronizes(s: State, gated: bool) {
    gated && exists a, b | a in s.who.clients && b in s.who.clients :: a != b && Person(s, a) && Person(s, b)
  }

  predicate Person(s: State, id: Id) {
    id in s.who.clients && !s.who.clients[id].tv
  }

  lemma TwoPeople(s: State)
    ensures |People(s.who.clients)| >= 2 <==> exists a, b :: a != b && Person(s, a) && Person(s, b)
  {
    var people := People(s.who.clients);
    if |people| >= 2 {
      var a :| a in people;
      assert |people - {a}| == |people| - 1;
      var b :| b in people - {a};
      assert Person(s, a) && Person(s, b);
    }
    if a, b :| a != b && Person(s, a) && Person(s, b) {
      SubsetSize({a, b}, people);
    }
  }

  /** Driven to a position, the room is there at once, plays or not as told, and any pending start is given up. */
  predicate DrivenTo(s: State, t: State, playing: bool, positionMs: int, rate: real) {
    && Shown(t) == positionMs && t.play.playing == playing && t.play.rate == rate
    && (playing ==> t.play.serverTimeMs == t.now)
    && t.gate.None? && SameRoom(s, t) && t.stallReadyAt == s.stallReadyAt
  }

  /** The rate a command names, or else the one the room has; a room with none plays at its natural speed. */
  predicate RateNow(s: State, asked: Option<real>, rate: real) {
    if asked.Some? && asked.value != 0.0 then rate == asked.value
    else if s.play.rate != 0.0 then rate == s.play.rate
    else rate == 1.0
  }

  lemma PlayPlays(s: State, positionMs: int, asked: Option<real>, gated: bool, io: Io)
    requires InRange(positionMs) && (asked.Some? && asked.value != 0.0 ==> 0.25 <= asked.value <= 4.0)
    requires !Synchronizes(s, gated) && io.written
    ensures var t := Step(s, Drive(PlayAt(positionMs, asked), gated, io));
            RateNow(s, asked, t.play.rate) && DrivenTo(s, t, true, positionMs, t.play.rate)
  {
    TwoPeople(s);
  }

  /** A pause or a rate is never held back. */
  lemma PausePauses(s: State, positionMs: int, asked: Option<real>, gated: bool, io: Io)
    requires InRange(positionMs) && (asked.Some? && asked.value != 0.0 ==> 0.25 <= asked.value <= 4.0)
    requires io.written
    ensures var t := Step(s, Drive(Pause(positionMs, asked), gated, io));
            RateNow(s, asked, t.play.rate) && DrivenTo(s, t, false, positionMs, t.play.rate)
  {
  }

  /** A seek of a paused room with nothing pending has nobody to wait for. */
  lemma SeekSeeks(s: State, positionMs: int, gated: bool, io: Io)
    requires InRange(positionMs) && io.written
    requires !Synchronizes(s, gated) || (!s.play.playing && s.gate.None?)
    ensures var t := Step(s, Drive(Seek(positionMs), gated, io));
            RateNow(s, None, t.play.rate) && DrivenTo(s, t, s.play.playing, positionMs, t.play.rate)
  {
    TwoPeople(s);
  }

  /**
   A change of rate moves nobody: the room is where it was, played at its natural speed
   if it had no rate, and a pending start stays pending.
   */
  lemma RateKeepsThePosition(s: State, rate: real, gated: bool, io: Io)
    requires 0.25 <= rate <= 4.0 && io.written
    ensures var t := Step(s, Drive(HubGate.Rate(rate), gated, io));
            var natural := if s.play.rate == 0.0 then s.(play := s.play.(rate := 1.0)) else s;
            && Shown(t) == Shown(natural) && t.play.playing == s.play.playing && t.play.rate == rate
            && (t.play.playing ==> t.play.serverTimeMs == t.now)
            && t.gate == s.gate && SameRoom(s, t) && t.stallReadyAt == s.stallReadyAt
  {
  }

  /** A command that says something impossible, or that the store did not take, changes nothing. */
  lemma NonsenseIsDropped(s: State, c: Command, gated: bool, io: Io)
    requires || (c.Rate? && !(0.25 <= c.rate <= 4.0)) || (!c.Rate? && c.positionMs < 0) || !io.written
             || ((c.PlayAt? || c.Pause?) && c.asked.Some? && c.asked.value != 0.0 && !(0.25 <= c.asked.value <= 4.0))
    ensures Step(s, Drive(c, gated, io)) == s
  {
  }

  // ---------------------------------------------------------------- who is settled

  /** The room is not held up by this member: told from what it said and what the room plays. */
  predicate Settled(who: Who, id: Id, targetMs: int)
    requires id in who.clients
  {
    var m, media := who.clients[id], who.media;
    || m.tv || id in who.ignored || HasMedia(m.report, targetMs)
    || (media.bare && !PlaysItsOwn(media, id, m))
  }

  /** A source held in an app alone is played by the app that produces it and by those that copy it. */
  predicate PlaysItsOwn(media: Media, id: Id, m: Member) {
    && media.local
    && if media.producer == Some(id) then m.localSource else m.localCopy && m.copyFailed != media.generation
  }

  /** Three seconds are buffered within two of the target, and the picture is not standing still for lack of more. */
  predicate HasMedia(report: Report, targetMs: int) {
    && report.received && report.bufferAheadMs >= 3_000
    && targetMs - 2_000 <= report.positionMs <= targetMs + 2_000
    && (report.stalled ==> report.bufferAheadMs >= 5_000)
  }

  predicate AllSettled(who: Who, targetMs: int) {
    forall id | id in who.clients :: Settled(who, id, targetMs)
  }

  lemma SettledIsReady(who: Who, id: Id, targetMs: int)
    requires id in who.clients
    ensures Settled(who, id, targetMs) <==> Ready(who, id, who.clients[id], targetMs)
  {
  }

  lemma AllSettledIsAllReady(who: Who, targetMs: int)
    ensures AllSettled(who, targetMs) <==> AllReady(who, targetMs)
  {
    forall id | id in who.clients
      ensures Settled(who, id, targetMs) <==> Ready(who, id, who.clients[id], targetMs)
    {
      SettledIsReady(who, id, targetMs);
    }
  }

  // -------------------------------------------------------------- a start, and its end

  /** The room plays from the target, and rests before a stall may stop it. */
  predicate StartedAt(s: State, t: State, targetMs: int, rate: real) {
    && t.gate.None? && t.play.playing && Shown(t) == targetMs && t.play.serverTimeMs == t.now
    && t.play.rate == (if rate == 0.0 then 1.0 else rate)
    && t.stallReadyAt == Some(s.now + 20_000) && t.now == s.now
  }

  /** The room stands at the target, for twenty seconds from the last opening at most. */
  predicate HeldAt(s: State, t: State, targetMs: int, rate: real) {
    && t.gate.Some? && t.gate.value == Gate(targetMs, rate, Timer(s.now + 20_000, false))
    && !t.play.playing && Shown(t) == targetMs && t.play.rate == rate && t.openedAt == s.now
    && t.stallReadyAt == s.stallReadyAt && t.now == s.now
  }

  lemma OpenedStarts(s: State, targetMs: int, rate: real, io: Io)
    requires InRange(targetMs) && io.written && io.release
    ensures var t := Opened(s, targetMs, rate, io);
            && SameRoom(s, t)
            && if AllSettled(s.who, targetMs) then StartedAt(s, t, targetMs, rate) else HeldAt(s, t, targetMs, rate)
  {
    AllSettledIsAllReady(s.who, targetMs);
  }

  /**
   A play in a room that synchronizes: everybody stands at the target until each is
   settled, and plays at once if they already are.
   */
  lemma PlayIsHeldBack(s: State, positionMs: int, asked: Option<real>, io: Io)
    requires InRange(positionMs) && (asked.Some? && asked.value != 0.0 ==> 0.25 <= asked.value <= 4.0)
    requires Synchronizes(s, true) && io.written && io.release
    ensures var t := Step(s, Drive(PlayAt(positionMs, asked), true, io));
            && RateNow(s, asked, t.play.rate) && SameRoom(s, t)
            && if AllSettled(s.who, positionMs) then StartedAt(s, t, positionMs, t.play.rate)
               else HeldAt(s, t, positionMs, t.play.rate)
  {
    TwoPeople(s);
    OpenedStarts(s, positionMs, RateOr(asked, if s.play.rate == 0.0 then 1.0 else s.play.rate), io);
  }

  lemma SeekIsHeldBack(s: State, positionMs: int, io: Io)
    requires InRange(positionMs) && Synchronizes(s, true) && io.written && io.release
    requires s.play.playing || s.gate.Some?
    ensures var t := Step(s, Drive(Seek(positionMs), true, io));
            && RateNow(s, None, t.play.rate) && SameRoom(s, t)
            && if AllSettled(s.who, positionMs) then StartedAt(s, t, positionMs, t.play.rate)
               else HeldAt(s, t, positionMs, t.play.rate)
  {
    TwoPeople(s);
    OpenedStarts(s, positionMs, if s.play.rate == 0.0 then 1.0 else s.play.rate, io);
  }

  /** What a member's word or its absence changes about who is there. */
  predicate Heard(s: State, e: Event, t: State) {
    match e
    case ReadyReport(id, report, _, _, _) =>
      && report.positionMs >= 0 && report.bufferAheadMs >= 0 && id in s.who.clients
      && t.who == s.who.(clients := s.who.clients[id := s.who.clients[id].(report := report.(received := true))])
    case Ignore(id, _) => id in s.who.clients && t.who == s.who.(ignored := s.who.ignored + {id})
    case Disconnect(id, _) =>
      && id in s.who.clients
      && t.who == s.who.(clients := s.who.clients - {id}, detached := s.who.detached[id := s.who.clients[id]])
    case LocalCopyFailed(id, generation, _) =>
      && id in s.who.clients && generation == s.who.media.generation
      && t.who == s.who.(clients := s.who.clients[id := s.who.clients[id].(copyFailed := generation)])
    case Leave(id, _) =>
      && (id in s.who.clients || id in s.who.detached) && s.who.clients - {id} != map[]
      && t.who == s.who.(clients := s.who.clients - {id}, detached := s.who.detached - {id},
                         ignored := s.who.ignored - {id})
    case _ => false
  }

  /** The event is one that can settle a start, and is not turned away. */
  predicate MaySettle(s: State, e: Event) {
    match e
    case ReadyReport(id, report, _, _, io) =>
      id in s.who.clients && report.positionMs >= 0 && report.bufferAheadMs >= 0 && io.release
    case Ignore(id, io) => id in s.who.clients && io.release
    case Disconnect(id, io) => id in s.who.clients && io.release
    case LocalCopyFailed(id, generation, io) =>
      && id in s.who.clients && generation == s.who.media.generation && s.who.media.local && io.release
      && s.who.clients[id].localCopy && s.who.clients[id].copyFailed != generation
      && s.who.media.producer != Some(id)
    case Leave(id, io) =>
      (id in s.who.clients || id in s.who.detached) && s.who.clients - {id} != map[] && io.release
    case _ => false
  }

  predicate EndsByQuorum(s: State, t: State)
    requires s.gate.Some?
  {
    if AllSettled(t.who, s.gate.value.targetMs)
    then StartedAt(s, t, s.gate.value.targetMs, t.play.rate) && RateNow(s, None, t.play.rate)
    else t.gate == s.gate && t.play == s.play && t.stallReadyAt == s.stallReadyAt && t.now == s.now
  }

  lemma EvaluatedEnds(s: State, was: State)
    requires s.gate.Some? && InRange(s.gate.value.targetMs) && was.gate == s.gate && was.play == s.play
    requires was.now == s.now && was.stallReadyAt == s.stallReadyAt
    ensures EndsByQuorum(was, Evaluated(s, true)) && Evaluated(s, true).who == s.who
  {
    AllSettledIsAllReady(s.who, s.gate.value.targetMs);
  }

  /**
   Whatever a pending start hears, a report, a departure, an ignored member or an app
   whose copy failed: it is taken down as said, and the room starts if and only if
   everyone still connected is settled then.
   */
  lemma StartsExactlyWhenSettled(s: State, e: Event)
    requires s.gate.Some? && InRange(s.gate.value.targetMs) && MaySettle(s, e)
    ensures Heard(s, e, Step(s, e)) && EndsByQuorum(s, Step(s, e))
  {
    match e
    case ReadyReport(id, report, _, _, _) =>
      EvaluatedEnds(WithClients(s, s.who.clients[id := s.who.clients[id].(report := report.(received := true))]), s);
    case Ignore(id, _) => EvaluatedEnds(s.(who := s.who.(ignored := s.who.ignored + {id})), s);
    case Disconnect(id, _) =>
      EvaluatedEnds(s.(who := s.who.(clients := s.who.clients - {id},
                                     detached := s.who.detached[id := s.who.clients[id]])), s);
    case LocalCopyFailed(id, generation, _) =>
      EvaluatedEnds(WithClients(s, s.who.clients[id := s.who.clients[id].(copyFailed := generation)]), s);
    case Leave(id, _) => EvaluatedEnds(Vacated(s, id), s);
  }

  /** Over a run: no start that can be waited for is lost, and none is held once everyone is settled. */
  lemma StartsAsSoonAsSettled(run: Run, k: nat)
    requires k < |run.events| && run.FairTo(k) && run.At(k).gate.Some? && MaySettle(run.At(k), run.events[k])
    ensures var s, t := run.At(k), run.At(k + 1); var target := s.gate.value.targetMs;
            && Heard(s, run.events[k], t)
            && (t.play.playing <==> AllSettled(t.who, target)) && (t.gate.None? <==> AllSettled(t.who, target))
            && Shown(t) == target
  {
    InvAlways(run, k);
    StartsExactlyWhenSettled(run.At(k), run.events[k]);
  }

  /** Turning the setting off starts the room where it was to start. */
  lemma TurningOffStarts(s: State, io: Io)
    requires s.gate.Some? && InRange(s.gate.value.targetMs) && io.written && io.release
    ensures var t := Step(s, SetGating(false, io));
            && StartedAt(s, t, s.gate.value.targetMs, t.play.rate) && RateNow(s, None, t.play.rate)
            && t.who == s.who && !t.gating
  {
  }

  // --------------------------------------------------------------------- stalls

  /** The picture stands still with less than five seconds in hand. */
  predicate Dry(report: Report) {
    report.received && report.stalled && report.bufferAheadMs < 5_000
  }

  /** Nobody connected produces the source, someone has run dry, and the room is within three seconds of its end. */
  predicate AtTheEdge(s: State, edgeMs: Option<int>) {
    && s.who.media.local && (forall id | id in s.who.clients :: s.who.media.producer != Some(id))
    && (exists id | id in s.who.clients :: Dry(s.who.clients[id].report))
    && s.play.playing && edgeMs.Some? && edgeMs.value - 3_000 <= Shown(s)
  }

  /** Someone the room waits for has run dry, and it may stop for that. */
  predicate StopsFor(s: State) {
    && s.gating && s.play.playing && (s.stallReadyAt.Some? ==> s.stallReadyAt.value <= s.now)
    && Synchronizes(s, true)
    && exists id | id in s.who.clients :: HoldsUp(s.who, id) && Dry(s.who.clients[id].report)
  }

  predicate HoldsUp(who: Who, id: Id)
    requires id in who.clients
  {
    && !who.clients[id].tv && id !in who.ignored
    && (who.media.bare ==> PlaysItsOwn(who.media, id, who.clients[id]))
  }

  lemma EdgeIsProduced(s: State, edgeMs: Option<int>)
    ensures AtTheEdge(s, edgeMs) <==> AtProducedEdge(s, edgeMs)
  {
  }

  lemma StopIsStall(s: State)
    requires s.gate.None?
    ensures StopsFor(s) <==> StallGates(s)
  {
    TwoPeople(s);
    if StopsFor(s) {
      var id :| id in s.who.clients && HoldsUp(s.who, id) && Dry(s.who.clients[id].report);
      assert WaitsFor(s.who.media, id, s.who.clients[id]);
      assert SomeoneStalled(s.who);
    }
    if StallGates(s) {
      var id :| id in s.who.clients && id !in s.who.ignored && WaitsFor(s.who.media, id, s.who.clients[id])
                && s.who.clients[id].report.received && RunningDry(s.who.clients[id].report);
      assert HoldsUp(s.who, id) && Dry(s.who.clients[id].report);
    }
  }

  /** Who has run dry is not settled anywhere. */
  lemma DryIsNotSettled(s: State, targetMs: int)
    requires StopsFor(s)
    ensures !AllSettled(s.who, targetMs)
  {
    var id :| id in s.who.clients && HoldsUp(s.who, id) && Dry(s.who.clients[id].report);
    assert !Settled(s.who, id, targetMs);
  }

  /** What becomes of a room that reports are heard in with no start pending. */
  predicate StopsAsItShould(s: State, t: State, edgeMs: Option<int>, durationMs: int) {
    if AtTheEdge(s, edgeMs) then PausedAt(s, t, if Shown(s) < edgeMs.value then Shown(s) else edgeMs.value)
    else if !StopsFor(s) then t == s
    else if durationMs > 0 && Shown(s) >= durationMs - 1_000 then PausedAt(s, t, durationMs)
    else HeldAt(s, t, Shown(s), s.play.rate) && SameRoom(s, t)
  }

  predicate PausedAt(s: State, t: State, positionMs: int) {
    && t.play == Play(false, positionMs, s.play.rate, s.now)
    && t.gate.None? && SameRoom(s, t) && t.stallReadyAt == s.stallReadyAt
  }

  lemma WatchedStops(s: State, edgeMs: Option<int>, durationMs: int, io: Io)
    requires s.gate.None? && io.written && io.release
    ensures StopsAsItShould(s, Watched(s, edgeMs, durationMs, io), edgeMs, durationMs)
  {
    EdgeIsProduced(s, edgeMs);
    StopIsStall(s);
    if !AtTheEdge(s, edgeMs) && StopsFor(s) {
      DryIsNotSettled(s, Shown(s));
      OpenedStarts(s, Shown(s), s.play.rate, io);
    }
  }

  /** A report heard with no start pending is taken down, and stops the room exactly when and where it should. */
  lemma ReportStopsExactly(s: State, id: Id, report: Report, edgeMs: Option<int>, durationMs: int, io: Io)
    requires s.gate.None? && io.written && io.release
    requires id in s.who.clients && report.positionMs >= 0 && report.bufferAheadMs >= 0
    ensures var heard := s.(who := s.who.(clients :=
                             s.who.clients[id := s.who.clients[id].(report := report.(received := true))]));
            StopsAsItShould(heard, Step(s, ReadyReport(id, report, edgeMs, durationMs, io)), edgeMs, durationMs)
  {
    var heard := WithClients(s, s.who.clients[id := s.who.clients[id].(report := report.(received := true))]);
    WatchedStops(heard, edgeMs, durationMs, io);
  }

  // ------------------------------------------------------------- sources and seats

  /** A swap leaves the room paused at the start of the new source, with no start pending. */
  lemma SwapStartsOver(s: State, status: Status, producer: Option<Id>)
    ensures var t := Step(s, SwapMedia(status, producer));
            && t.gate.None? && !t.play.playing && Shown(t) == 0 && t.play.rate == 1.0
            && t.source == Source(status.Local?, s.source.generation + 1)
            && t.who.clients == s.who.clients && t.who.detached == s.who.detached && t.who.ignored == s.who.ignored
            && ReadAs(t.who.media, t.source, status, producer)
  {
  }

  /** A source in an app is waited for while it can be played: in that app alone until it is published whole. */
  predicate ReadAs(media: Media, source: Source, status: Status, producer: Option<Id>) {
    && (media.local <==> source.local && (status.Local? || status.Uploading? || status.Ready?))
    && (media.bare <==> media.local && !status.Ready?)
    && (media.local ==> media.generation == source.generation && media.producer == producer)
  }

  lemma RereadAsStored(s: State, status: Status, producer: Option<Id>)
    ensures var t := Step(s, RefreshMedia(status, producer));
            ReadAs(t.who.media, s.source, status, producer) && t == s.(who := s.who.(media := t.who.media))
  {
  }

  lemma DroppedWho(s: State, id: Id, io: Io)
    requires id in s.who.clients
    ensures Step(s, Disconnect(id, io)).who ==
            s.who.(clients := s.who.clients - {id}, detached := s.who.detached[id := s.who.clients[id]])
  {
  }

  lemma ReseatedWho(s: State, id: Id)
    requires id !in s.who.clients && id in s.who.detached
    ensures Step(s, Reseat(id, true)) ==
            s.(who := s.who.(clients := s.who.clients[id := s.who.detached[id].(copyFailed := 0)],
                             detached := s.who.detached - {id}))
  {
  }

  /** Whoever comes back is who it was, with its last report, and has failed at nothing yet. */
  lemma ComesBack(s: State, id: Id, io: Io)
    requires id in s.who.clients && id !in s.who.detached
    ensures var gone := Step(s, Disconnect(id, io));
            var back := Step(gone, Reseat(id, true));
            && id !in gone.who.clients && id in gone.who.detached
            && back.who == s.who.(clients := s.who.clients[id := s.who.clients[id].(copyFailed := 0)])
            && back.gate == gone.gate && back.play == gone.play
  {
    var m := s.who.clients[id];
    DroppedWho(s, id, io);
    ReseatedWho(Step(s, Disconnect(id, io)), id);
    assert s.who.detached[id := m] - {id} == s.who.detached;
    assert (s.who.clients - {id})[id := m.(copyFailed := 0)] == s.who.clients[id := m.(copyFailed := 0)];
  }
}
