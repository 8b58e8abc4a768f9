/**
 Who may publish, said from what happened to the room: its claim, its fence and its
 source are each what the last event to set them set (internal/room/commit.go:150-167,
 232-245; internal/room/store.go:141-254, 881-936).
 */
module ClaimHistory {
  import opened Wrappers
  import opened History
  import opened RoomStore
  import opened Publish
  import opened PublishHistory

  // ------------------------------------------------------------------ what happened

  /** An uploading room that nobody holds is claimed. */
  predicate Reserves(s: State, e: Event) {
    && e.ClaimRoom? && e.claim !in s.claims && s.room.expires > e.now
    && s.room.status.Uploading? && s.room.claim.None?
  }

  /** The holder, and nobody else, gives its claim back. */
  predicate Releases(s: State, e: Event) {
    e.ReleaseRoom? && s.room.claim == Some(e.claim)
  }

  predicate MovesFence(s: State, e: Event) {
    e.MoveFence? && e.run !in s.runs
  }

  /** The claim or the source changed hands, and no run is named any more. */
  predicate Unfences(s: State, e: Event) {
    Promotes(s, e) || Releases(s, e) || Swapped(s, e)
  }

  /** A publish reaches the fence with a run that the fence does not keep out. */
  predicate NamesItsRun(s: State, e: Event) {
    && e.SendCommit? && At(s, e.id, Judging)
    && var p := s.publishes[e.id];
       && (p.req.timeline.Some? ==> ValidTimeline(p.req.timeline.value))
       && s.room.expires > e.now && s.room.claim == Some(p.req.claim) && s.room.generation == p.generation
       && p.req.run.Some? && (s.room.fence.run.None? || s.room.fence.run == p.req.run)
  }

  predicate AcceptedWithRun(s: State, e: Event) {
    Accepted(s, e) && s.publishes[e.id].req.run.Some?
  }

  // ------------------------------------------------------------- what one event writes

  function ClaimWritten(s: State, e: Event): Write<Option<Token>> {
    if Reserves(s, e) || Promotes(s, e) then Written(Some(e.claim))
    else if Releases(s, e) || Swapped(s, e) then Written(None)
    else Untouched
  }

  function RunWritten(s: State, e: Event): Write<Option<Token>> {
    if MovesFence(s, e) then Written(Some(e.run))
    else if Unfences(s, e) then Written(None)
    else if NamesItsRun(s, e) then Written(s.publishes[e.id].req.run)
    else Untouched
  }

  function SeqWritten(s: State, e: Event): Write<Option<int>> {
    if MovesFence(s, e) || Unfences(s, e) then Written(None)
    else if AcceptedWithRun(s, e) then Written(Some(s.publishes[e.id].req.seqNo))
    else Untouched
  }

  function DigestWritten(s: State, e: Event): Write<Option<Token>> {
    if MovesFence(s, e) || Unfences(s, e) then Written(None)
    else if AcceptedWithRun(s, e) then Written(Some(s.publishes[e.id].req.digest))
    else Untouched
  }

  /** Only a swap makes a source local, or not. */
  function LocalWritten(s: State, e: Event): Write<bool> {
    if Swapped(s, e) then Written(e.status.Local?) else Untouched
  }

  function StatusWritten(s: State, e: Event): Write<Status> {
    if Swapped(s, e) || e.SetStatus? then Written(e.status)
    else if Promotes(s, e) && s.room.status.Local? then Written(Uploading)
    else Untouched
  }

  function GenerationWritten(s: State, e: Event): Write<nat> {
    if Swapped(s, e) then Written(s.room.generation + 1) else Untouched
  }

  // ------------------------------------------------------------------ one step of each

  /** The claim is kept twice, and both are written together. */
  predicate ClaimStepped(s: State, e: Event, room: Room) {
    && room.claim == Now(ClaimWritten(s, e), s.room.claim)
    && room.claimKey == Now(ClaimWritten(s, e), s.room.claimKey)
  }

  predicate FenceStepped(s: State, e: Event, room: Room) {
    && room.fence.run == Now(RunWritten(s, e), s.room.fence.run)
    && room.fence.lastSeq == Now(SeqWritten(s, e), s.room.fence.lastSeq)
    && room.fence.digest == Now(DigestWritten(s, e), s.room.fence.digest)
  }

  predicate SourceStepped(s: State, e: Event, room: Room) {
    && room.localSource == Now(LocalWritten(s, e), s.room.localSource)
    && room.status == Now(StatusWritten(s, e), s.room.status)
    && room.generation == Now(GenerationWritten(s, e), s.room.generation)
  }

  predicate Stepped(s: State, e: Event, room: Room) {
    ClaimStepped(s, e, room) && FenceStepped(s, e, room) && SourceStepped(s, e, room)
  }

  lemma ClaimEvent(s: State, e: Event)
    requires e.ClaimRoom?
    ensures Stepped(s, e, Step(s, e).room)
  {
  }

  lemma PromoteEvent(s: State, e: Event)
    requires e.PromoteRoom?
    ensures Stepped(s, e, Step(s, e).room)
  {
  }

  lemma ReleaseEvent(s: State, e: Event)
    requires e.ReleaseRoom?
    ensures Stepped(s, e, Step(s, e).room)
  {
  }

  lemma SwapEvent(s: State, e: Event)
    requires e.SwapRoom?
    ensures Stepped(s, e, Step(s, e).room)
  {
  }

  lemma FenceEvent(s: State, e: Event)
    requires e.MoveFence?
    ensures Stepped(s, e, Step(s, e).room)
  {
  }

  lemma OffsetEvent(s: State, e: Event)
    requires e.MoveOffset? || e.SetStatus?
    ensures Stepped(s, e, Step(s, e).room)
  {
  }

  lemma FencedFields(fence: Fence, c: Commit)
    requires c.run.Some?
    ensures var (after, outcome) := Fenced(fence, c);
            && after.run == (if fence.run.None? || fence.run == c.run then c.run else fence.run)
            && (outcome.Ok? ==> after.lastSeq == Some(c.seqNo) && after.digest == c.digest)
            && (!outcome.Ok? ==> after.lastSeq == fence.lastSeq && after.digest == fence.digest)
  {
  }

  lemma CommittedFields(room: Room, c: Commit, now: int)
    ensures var (after, outcome) := Committed(room, c, now);
            && after.claim == room.claim && after.claimKey == room.claimKey && after.status == room.status
            && after.localSource == room.localSource && after.generation == room.generation
            && after.fence == if Live(room, now) && room.claim == Some(c.claim) && room.generation == c.generation
                                 && c.run.Some? then Fenced(room.fence, c).0 else room.fence
  {
  }

  /** A publish answered before the script leaves the room alone, and one that reaches it what the script does. */
  lemma CommitSteps(s: State, e: Event)
    requires e.SendCommit? && At(s, e.id, Judging)
    ensures var p := s.publishes[e.id];
            Step(s, e).room == if p.req.timeline.Some? && !ValidTimeline(p.req.timeline.value) then s.room
                               else Committed(s.room, CommitOf(p), e.now).0
  {
  }

  lemma CommitWrites(s: State, e: Event)
    requires e.SendCommit?
    ensures ClaimWritten(s, e) == Untouched && LocalWritten(s, e) == Untouched
    ensures StatusWritten(s, e) == Untouched && GenerationWritten(s, e) == Untouched
    ensures !MovesFence(s, e) && !Unfences(s, e)
  {
  }

  lemma CommitEvent(s: State, e: Event)
    requires e.SendCommit? && At(s, e.id, Judging)
    ensures Stepped(s, e, Step(s, e).room)
  {
    var c := CommitOf(s.publishes[e.id]);
    CommitSteps(s, e);
    CommitWrites(s, e);
    CommittedFields(s.room, c, e.now);
    AcceptedExactly(s.room, c, e.now);
    if c.run.Some? {
      FencedFields(s.room.fence, c);
    }
  }

  lemma EveryStep(s: State, e: Event)
    ensures Stepped(s, e, Step(s, e).room)
  {
    match e
    case SendCommit(id, _) => if At(s, id, Judging) { CommitEvent(s, e); } else { CommitWrites(s, e); }
    case ClaimRoom(_, _) => ClaimEvent(s, e);
    case PromoteRoom(_, _) => PromoteEvent(s, e);
    case ReleaseRoom(_) => ReleaseEvent(s, e);
    case SwapRoom(_, _) => SwapEvent(s, e);
    case MoveFence(_) => FenceEvent(s, e);
    case MoveOffset(_, _) => OffsetEvent(s, e);
    case SetStatus(_) => OffsetEvent(s, e);
    case _ => OtherStep(s, e);
  }

  // -------------------------------------------------------------------- over every run

  /** The claim held is the last one reserved or promoted to, unless it was released or the source swapped since. */
  lemma ClaimStored(expires: int, states: seq<State>, events: seq<Event>)
    requires IsRun(expires, states, events)
    ensures IsLastWritten(states, events, (s: State) => s.room.claim, ClaimWritten)
    ensures IsLastWritten(states, events, (s: State) => s.room.claimKey, ClaimWritten)
    ensures states[0].room.claim == None && states[0].room.claimKey == None
  {
    forall n | 0 <= n < |events| { EveryStep(states[n], events[n]); }
    FieldStands(expires, states, events, (s: State) => s.room.claim, ClaimWritten);
    FieldStands(expires, states, events, (s: State) => s.room.claimKey, ClaimWritten);
  }

  /**
   The fence names the run it was last moved to, or the first to publish since the claim
   or the source changed hands; it remembers the last publish accepted since then.
   */
  lemma FenceStored(expires: int, states: seq<State>, events: seq<Event>)
    requires IsRun(expires, states, events)
    ensures IsLastWritten(states, events, (s: State) => s.room.fence.run, RunWritten)
    ensures IsLastWritten(states, events, (s: State) => s.room.fence.lastSeq, SeqWritten)
    ensures IsLastWritten(states, events, (s: State) => s.room.fence.digest, DigestWritten)
    ensures states[0].room.fence == Fence(None, None, None)
  {
    forall n | 0 <= n < |events| { EveryStep(states[n], events[n]); }
    FieldStands(expires, states, events, (s: State) => s.room.fence.run, RunWritten);
    FieldStands(expires, states, events, (s: State) => s.room.fence.lastSeq, SeqWritten);
    FieldStands(expires, states, events, (s: State) => s.room.fence.digest, DigestWritten);
  }

  /** The source is local as the last swap made it, and the room's status what was last made of it. */
  lemma SourceStored(expires: int, states: seq<State>, events: seq<Event>)
    requires IsRun(expires, states, events)
    ensures IsLastWritten(states, events, (s: State) => s.room.localSource, LocalWritten)
    ensures IsLastWritten(states, events, (s: State) => s.room.status, StatusWritten)
    ensures states[0].room.localSource == false && states[0].room.status == Empty
  {
    forall n | 0 <= n < |events| { EveryStep(states[n], events[n]); }
    FieldStands(expires, states, events, (s: State) => s.room.localSource, LocalWritten);
    FieldStands(expires, states, events, (s: State) => s.room.status, StatusWritten);
  }

  ghost function Swaps(states: seq<State>, events: seq<Event>, n: nat): nat
    requires |states| == |events| + 1 && n <= |events|
  {
    if n == 0 then 0 else Swaps(states, events, n - 1) + if Swapped(states[n - 1], events[n - 1]) then 1 else 0
  }

  /** The generation is how often the source was swapped. */
  lemma {:induction false} GenerationCountsSwaps(expires: int, states: seq<State>, events: seq<Event>, n: nat)
    requires IsRun(expires, states, events) && n <= |events|
    ensures states[n].room.generation == Swaps(states, events, n)
  {
    if n > 0 {
      var k := n - 1;
      GenerationCountsSwaps(expires, states, events, k);
      EveryStep(states[k], events[k]);
      assert states[k + 1] == Step(states[k], events[k]);
    }
  }
}
