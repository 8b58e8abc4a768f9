/**
 The room's media fields in the store and the scripts that change them, one atomic
 step each: the publish commit and its fences (internal/room/commit.go), and the
 claim, promote, release, swap and offset scripts (internal/room/store.go).
 */
module RoomStore {
  import opened Wrappers
  import opened Playlists

  /** Claims, run ids and digests: opaque values, compared and never read. */
  datatype Token = Token(text: string)

  datatype Status = Empty | Local | Uploading | Processing | Ready | Error

  datatype Region = Region(startMs: int, producedMs: int, growing: bool)

  datatype Stored = MediaPlaylist(lines: seq<OutLine>) | MasterPlaylist(body: MasterBody)

  /** Which run may publish, and the last publish it made. */
  datatype Fence = Fence(run: Option<Token>, lastSeq: Option<int>, digest: Option<Token>)

  const UNSET := Fence(None, None, None)

  datatype Timeline = Timeline(regions: map<nat, Region>, durationMs: Option<int>, offsetMs: Option<int>, version: int)

  const BLANK := Timeline(map[], None, None, 0)

  datatype Progress = Progress(received: Option<int>, source: Option<int>, touched: Option<int>)

  const NO_PROGRESS := Progress(None, None, None)

  datatype Room = Room(
    expires: int, status: Status, localSource: bool, generation: nat,
    claim: Option<Token>,     // upload_id, in the room's hash
    claimKey: Option<Token>,  // the same reservation under its own key
    fence: Fence, timeline: Timeline, progress: Progress,
    playlists: map<Name, Stored>, published: set<string>)

  predicate Live(room: Room, now: int) {
    room.expires > now
  }

  // ------------------------------------------------------------ the publish commit

  datatype Commit = Commit(
    claim: Token, generation: nat, run: Option<Token>, seqNo: int, digest: Option<Token>,
    confirmed: seq<string>, playlists: map<Name, Stored>, regions: Option<map<nat, Region>>,
    durationMs: int, offsetMs: Option<int>, received: Option<int>, source: Option<int>, heartbeat: bool)

  datatype Outcome = Ok(bumped: bool) | Replayed | Gone | ClaimMismatch | StaleGeneration | StaleRun | StaleSeq

  /** The sequence the next publish must exceed. */
  function LastSeq(fence: Fence): int {
    if fence.lastSeq.Some? then fence.lastSeq.value else -1
  }

  predicate IsReplay(fence: Fence, c: Commit) {
    c.seqNo == LastSeq(fence) && c.digest.Some? && fence.digest == c.digest
  }

  /** What the run fence makes of a publish that carries a run. */
  function Fenced(fence: Fence, c: Commit): (Fence, Outcome) {
    if fence.run.Some? && fence.run != c.run then (fence, StaleRun)
    else if IsReplay(fence, c) then (fence.(run := c.run), Replayed)
    else if c.seqNo <= LastSeq(fence) then (fence.(run := c.run), StaleSeq)
    else (Fence(c.run, Some(c.seqNo), c.digest), Ok(false))
  }

  predicate Moved(timeline: Timeline, c: Commit) {
    c.offsetMs.Some? && timeline.offsetMs != c.offsetMs
  }

  function NextTimeline(timeline: Timeline, c: Commit): Timeline {
    Timeline(if c.regions.Some? then c.regions.value else timeline.regions,
             if c.durationMs > 0 then Some(c.durationMs) else timeline.durationMs,
             if Moved(timeline, c) then c.offsetMs else timeline.offsetMs,
             if Moved(timeline, c) then timeline.version + 1 else timeline.version)
  }

  function NextProgress(progress: Progress, c: Commit, now: int): Progress {
    Progress(if c.received.Some? then c.received else progress.received,
             if c.source.Some? then c.source else progress.source,
             if c.heartbeat then Some(now) else progress.touched)
  }

  /** Everything an accepted publish changes besides the fence. */
  function Applied(room: Room, c: Commit, now: int): Room {
    room.(timeline := NextTimeline(room.timeline, c),
          progress := NextProgress(room.progress, c, now),
          playlists := room.playlists + c.playlists,
          published := room.published + (set name | name in c.confirmed))
  }

  function Committed(room: Room, c: Commit, now: int): (Room, Outcome) {
    if !Live(room, now) then (room, Gone)
    else if room.claim != Some(c.claim) then (room, ClaimMismatch)
    else if room.generation != c.generation then (room, StaleGeneration)
    else
      var (fence, verdict) := if c.run.None? then (room.fence, Ok(false)) else Fenced(room.fence, c);
      if verdict.Ok? then (Applied(room.(fence := fence), c, now), Ok(Moved(room.timeline, c)))
      else (room.(fence := fence), verdict)
  }

  /** Under its claim and generation, a publish with no run passes; one with a run must also move that run on. */
  lemma AcceptedExactly(room: Room, c: Commit, now: int)
    ensures Committed(room, c, now).1.Ok? <==>
            && Live(room, now) && room.claim == Some(c.claim) && room.generation == c.generation
            && (c.run.Some? ==> (room.fence.run.None? || room.fence.run == c.run) && c.seqNo > LastSeq(room.fence))
  {
  }

  /** What a publish is told: the first thing wrong with it, or whether it moved the offset. */
  lemma AnswersExactly(room: Room, c: Commit, now: int)
    ensures var (after, told) := Committed(room, c, now);
            var ours := room.expires > now && room.claim == Some(c.claim);
            var current := ours && room.generation == c.generation;
            var named := current && c.run.Some? && (room.fence.run == None || room.fence.run == c.run);
            var last := if room.fence.lastSeq == None then -1 else room.fence.lastSeq.value;
            && (told == Gone <==> room.expires <= now)
            && (told == ClaimMismatch <==> room.expires > now && !ours)
            && (told == StaleGeneration <==> ours && !current)
            && (told == StaleRun <==> current && c.run.Some? && !named)
            && (told == Replayed <==> named && c.seqNo == last && c.digest.Some? && room.fence.digest == c.digest)
            && (told == StaleSeq <==> named && told != Replayed && c.seqNo <= last)
            && (told.Ok? ==> (told.bumped <==> after.timeline.offsetMs != room.timeline.offsetMs))
  {
  }

  /** A fence with a last publish names the run that made it. */
  predicate WellFenced(fence: Fence) {
    fence.lastSeq.Some? || fence.digest.Some? ==> fence.run.Some?
  }

  /**
   A refused publish leaves the room exactly as it was, unless it met an unset fence
   with a sequence no publish may carry: that one is refused and still names the run.
   */
  lemma RefusedChangesNothing(room: Room, c: Commit, now: int)
    requires WellFenced(room.fence) && !Committed(room, c, now).1.Ok?
    ensures var (after, outcome) := Committed(room, c, now);
            && after == room.(fence := after.fence)
            && (after == room <==> !(outcome == StaleSeq && room.fence.run.None?))
  {
  }

  /** That takes a negative sequence, which nothing keeps a client from sending. */
  lemma UnsetFenceRefusal(room: Room, c: Commit, now: int)
    requires WellFenced(room.fence) && room.fence.run.None?
    ensures Committed(room, c, now).1 == StaleSeq <==>
            && Live(room, now) && room.claim == Some(c.claim) && room.generation == c.generation
            && c.run.Some? && c.seqNo < 0
  {
  }

  /**
   The retry of an accepted publish is answered as such and changes nothing, though it
   may carry other results: the digest is of what was sent, not of what was found since.
   */
  lemma RetryIsReplayed(room: Room, c: Commit, retry: Commit, now: int, later: int)
    requires Committed(room, c, now).1.Ok? && c.run.Some? && c.digest.Some? && Live(room, later)
    requires retry.claim == c.claim && retry.generation == c.generation && retry.run == c.run
    requires retry.seqNo == c.seqNo && retry.digest == c.digest
    ensures var after := Committed(room, c, now).0; Committed(after, retry, later) == (after, Replayed)
  {
  }

  /** Another publish reusing its sequence is not. */
  lemma ReuseIsRefused(room: Room, c: Commit, other: Commit, now: int, later: int)
    requires Committed(room, c, now).1.Ok? && c.run.Some?
    requires other.run.Some? && other.seqNo <= c.seqNo && other.digest != c.digest
    ensures var after := Committed(room, c, now).0;
            Committed(after, other, later).0 == after
            && Committed(after, other, later).1 in {Gone, ClaimMismatch, StaleGeneration, StaleRun, StaleSeq}
  {
  }

  // ------------------------------------------------------- the scripts around it

  function WithRun(room: Room, run: Token): Room {
    room.(fence := Fence(Some(run), None, None))
  }

  datatype Reservation = Reserved | NotAllowed | AlreadyReserved

  function Reserve(room: Room, claim: Token, now: int): (Room, Reservation) {
    if room.status != Uploading || !Live(room, now) then (room, NotAllowed)
    else if room.claim.Some? then (room, AlreadyReserved)
    else (room.(claim := Some(claim), claimKey := Some(claim)), Reserved)
  }

  datatype Promotion = Promoted(generation: nat) | PromoteGone | PromoteNotAllowed

  function Promote(room: Room, claim: Token, now: int): (Room, Promotion) {
    if !Live(room, now) then (room, PromoteGone)
    else if !room.localSource || room.status !in {Local, Uploading, Status.Ready} then (room, PromoteNotAllowed)
    else
      (room.(status := if room.status == Local then Uploading else room.status, fence := UNSET,
             claim := Some(claim), claimKey := Some(claim), progress := room.progress.(touched := Some(now))),
       Promoted(room.generation))
  }

  function Release(room: Room, claim: Token): Room {
    if room.claim != Some(claim) then room
    else room.(claim := None, claimKey := None, fence := UNSET, progress := room.progress.(touched := None))
  }

  /** A new source: the next generation, with nothing of the last one's media left. */
  function Swap(room: Room, status: Status, now: int): Option<Room> {
    if !Live(room, now) then None
    else
      Some(Created(room.expires).(status := status, localSource := status == Local, generation := room.generation + 1))
  }

  /** What a claim, a promotion and a swap are told. */
  lemma ScriptsAnswer(room: Room, claim: Token, status: Status, now: int)
    ensures var live := room.expires > now;
            var told, promoted := Reserve(room, claim, now).1, Promote(room, claim, now).1;
            && (told == Reserved <==> live && room.status == Uploading && room.claim == None)
            && (told == AlreadyReserved <==> live && room.status == Uploading && room.claim != None)
            && (promoted == PromoteGone <==> !live)
            && (promoted.Promoted? <==>
                  live && room.localSource && room.status != Empty && room.status != Processing && room.status != Error)
            && (promoted.Promoted? ==> promoted.generation == room.generation)
            && (Swap(room, status, now).Some? <==> live)
  {
  }

  function SetOffset(room: Room, offsetMs: int, now: int): Room {
    var held := room.timeline;
    if !Live(room, now) || held.offsetMs == Some(offsetMs) then room
    else room.(timeline := held.(offsetMs := Some(offsetMs), version := held.version + 1))
  }

  /** A room as created: empty, with no source yet. */
  function Created(expires: int): Room {
    Room(expires, Empty, false, 0, None, None, UNSET, BLANK, NO_PROGRESS, map[], {})
  }

  // ------------------------------------------------------------ the code itself

  class Store {
    const expires: int
    var status: Status
    var localSource: bool
    var generation: nat
    var claim: Option<Token>
    var claimKey: Option<Token>
    var fence: Fence
    var timeline: Timeline
    var progress: Progress
    var playlists: map<Name, Stored>
    var published: set<string>

    function View(): Room
      reads this
    {
      Room(expires, status, localSource, generation, claim, claimKey, fence, timeline, progress, playlists, published)
    }

    constructor (expires: int)
      ensures View() == Created(expires)
    {
      this.expires, status, localSource, generation := expires, Empty, false, 0;
      claim, claimKey, fence, timeline, progress := None, None, UNSET, BLANK, NO_PROGRESS;
      playlists, published := map[], {};
    }

    method CommitPublish(c: Commit, now: int) returns (outcome: Outcome)
      modifies this
      ensures (View(), outcome) == Committed(old(View()), c, now)
    {
      if expires <= now { return Gone; }
      if claim != Some(c.claim) { return ClaimMismatch; }
      if generation != c.generation { return StaleGeneration; }
      if c.run.Some? {
        outcome := PassFence(c);
        if !outcome.Ok? { return; }
      }
      AddConfirmed(c.confirmed);
      WritePlaylists(c.playlists);
      var bumped := WriteTimeline(c);
      WriteProgress(c, now);
      outcome := Ok(bumped);
    }

    method PassFence(c: Commit) returns (outcome: Outcome)
      modifies this`fence
      ensures (fence, outcome) == Fenced(old(fence), c)
    {
      if fence.run.None? {
        fence := fence.(run := c.run);
      } else if fence.run != c.run {
        return StaleRun;
      }
      var last := if fence.lastSeq.Some? then fence.lastSeq.value else -1;
      if c.seqNo == last && c.digest.Some? && fence.digest == c.digest { return Replayed; }
      if c.seqNo <= last { return StaleSeq; }
      fence := fence.(lastSeq := Some(c.seqNo), digest := c.digest);
      return Ok(false);
    }

    method AddConfirmed(confirmed: seq<string>)
      modifies this`published
      ensures published == old(published) + (set name | name in confirmed)
    {
      for i := 0 to |confirmed|
        invariant published == old(published) + (set name | name in confirmed[..i])
      {
        assert confirmed[..i + 1] == confirmed[..i] + [confirmed[i]];
        published := published + {confirmed[i]};
      }
      assert confirmed[..|confirmed|] == confirmed;
    }

    method WritePlaylists(bodies: map<Name, Stored>)
      modifies this`playlists
      ensures playlists == old(playlists) + bodies
    {
      var todo := bodies.Keys;
      while todo != {}
        invariant todo <= bodies.Keys
        invariant playlists.Keys == old(playlists.Keys) + (bodies.Keys - todo)
        invariant forall name | name in playlists ::
                    playlists[name] == if name in bodies && name !in todo then bodies[name] else old(playlists)[name]
        decreases |todo|
      {
        var name :| name in todo;
        playlists := playlists[name := bodies[name]];
        todo := todo - {name};
      }
    }

    method WriteTimeline(c: Commit) returns (bumped: bool)
      modifies this`timeline
      ensures timeline == NextTimeline(old(timeline), c) && bumped == Moved(old(timeline), c)
    {
      if c.regions.Some? { timeline := timeline.(regions := c.regions.value); }
      if c.durationMs > 0 && timeline.durationMs != Some(c.durationMs) {
        timeline := timeline.(durationMs := Some(c.durationMs));
      }
      bumped := c.offsetMs.Some? && timeline.offsetMs != c.offsetMs;
      if bumped {
        timeline := timeline.(offsetMs := c.offsetMs, version := timeline.version + 1);
      }
    }

    method WriteProgress(c: Commit, now: int)
      modifies this`progress
      ensures progress == NextProgress(old(progress), c, now)
    {
      if c.received.Some? { progress := progress.(received := c.received); }
      if c.source.Some? { progress := progress.(source := c.source); }
      if c.heartbeat { progress := progress.(touched := Some(now)); }
    }

    method SetProducerRun(run: Token)
      modifies this`fence
      ensures View() == WithRun(old(View()), run)
    {
      fence := fence.(run := Some(run));
      fence := fence.(lastSeq := None, digest := None);
    }

    method ReserveUpload(uploadId: Token, now: int) returns (r: Reservation)
      modifies this`claim, this`claimKey
      ensures (View(), r) == Reserve(old(View()), uploadId, now)
    {
      if status != Uploading || expires <= now { return NotAllowed; }
      if claim.Some? { return AlreadyReserved; }
      claim := Some(uploadId);
      claimKey := Some(uploadId);
      return Reserved;
    }

    method PromoteLocal(uploadId: Token, now: int) returns (r: Promotion)
      modifies this`status, this`claim, this`claimKey, this`fence, this`progress
      ensures (View(), r) == Promote(old(View()), uploadId, now)
    {
      if expires <= now { return PromoteGone; }
      if !localSource { return PromoteNotAllowed; }
      if status != Local && status != Uploading && status != Status.Ready { return PromoteNotAllowed; }
      if status == Local { status := Uploading; }
      claim, progress := Some(uploadId), progress.(touched := Some(now));
      fence := UNSET;
      claimKey := Some(uploadId);
      return Promoted(generation);
    }

    method ReleaseUpload(uploadId: Token)
      modifies this`claim, this`claimKey, this`fence, this`progress
      ensures View() == Release(old(View()), uploadId)
    {
      if claim != Some(uploadId) { return; }
      claim, progress, fence := None, progress.(touched := None), UNSET;
      claimKey := None;
    }

    method SwapSource(next: Status, now: int) returns (previous: Option<Token>, ok: bool)
      modifies this
      ensures ok == Live(old(View()), now)
      ensures ok ==> previous == old(claim) && View() == Swap(old(View()), next, now).value
      ensures !ok ==> View() == old(View())
    {
      if expires <= now { return None, false; }
      previous, ok := claim, true;
      status, generation := next, generation + 1;
      localSource := next == Local;
      claim, progress, timeline, fence := None, NO_PROGRESS, BLANK, UNSET;
      claimKey := None;
      playlists, published := map[], {};
    }

    method SetMediaOffset(ms: int, now: int) returns (found: bool)
      modifies this`timeline
      ensures View() == SetOffset(old(View()), ms, now) && found == Live(old(View()), now)
    {
      if expires <= now { return false; }
      if timeline.offsetMs == Some(ms) { return true; }
      timeline := timeline.(offsetMs := Some(ms), version := timeline.version + 1);
      return true;
    }
  }
}
