/**
 What a room has stored, said from the publishes it accepted: each field is what the
 last accepted publish to send it sent, since the last swap of the source
 (internal/httpapi/clientmedia.go:318-397; internal/room/commit.go:142-198). And what a
 publish sends, said from its request and from what its own steps found.
 */
module PublishHistory {
  import opened Wrappers
  import opened History
  import opened Playlists
  import opened RoomStore
  import opened Publish

  // ------------------------------------------------------------- accepted, swapped

  /** The publish passes: live room, its claim, its generation and, with a run, the fence. */
  predicate Passes(room: Room, p: Publish, now: int) {
    && room.expires > now && room.claim == Some(p.req.claim) && room.generation == p.generation
    && (p.req.run.Some? ==>
          && (room.fence.run == None || room.fence.run == p.req.run)
          && p.req.seqNo > if room.fence.lastSeq.Some? then room.fence.lastSeq.value else -1)
  }

  predicate Accepted(s: State, e: Event) {
    && e.SendCommit? && At(s, e.id, Judging)
    && (s.publishes[e.id].req.timeline.Some? ==> ValidTimeline(s.publishes[e.id].req.timeline.value))
    && Passes(s.room, s.publishes[e.id], e.now)
  }

  function Sent(s: State, e: Event): Commit
    requires Accepted(s, e)
  {
    CommitOf(s.publishes[e.id])
  }

  predicate Swapped(s: State, e: Event) {
    e.SwapRoom? && s.room.expires > e.now
  }

  // --------------------------------------------------------- what one event writes

  function RegionsWritten(s: State, e: Event): Write<map<nat, Region>> {
    if Swapped(s, e) then Written(map[])
    else if Accepted(s, e) && Sent(s, e).regions.Some? then Written(Sent(s, e).regions.value) else Untouched
  }

  function PlaylistWritten(s: State, e: Event, name: Name): Write<Option<Stored>> {
    if Swapped(s, e) then Written(None)
    else if Accepted(s, e) && name in Sent(s, e).playlists then Written(Some(Sent(s, e).playlists[name])) else Untouched
  }

  function ConfirmedWritten(s: State, e: Event, name: string): Write<bool> {
    if Swapped(s, e) then Written(false)
    else if Accepted(s, e) && name in Sent(s, e).confirmed then Written(true) else Untouched
  }

  function DurationWritten(s: State, e: Event): Write<Option<int>> {
    if Swapped(s, e) then Written(None)
    else if Accepted(s, e) && Sent(s, e).durationMs > 0 then Written(Some(Sent(s, e).durationMs)) else Untouched
  }

  /** The offset may also be moved by itself. */
  function OffsetWritten(s: State, e: Event): Write<Option<int>> {
    if Swapped(s, e) then Written(None)
    else if e.MoveOffset? && s.room.expires > e.now then Written(Some(e.offsetMs))
    else if Accepted(s, e) && Sent(s, e).offsetMs.Some? then Written(Sent(s, e).offsetMs) else Untouched
  }

  function ReceivedWritten(s: State, e: Event): Write<Option<int>> {
    if Swapped(s, e) then Written(None)
    else if Accepted(s, e) && Sent(s, e).received.Some? then Written(Sent(s, e).received) else Untouched
  }

  function SourceWritten(s: State, e: Event): Write<Option<int>> {
    if Swapped(s, e) then Written(None)
    else if Accepted(s, e) && Sent(s, e).source.Some? then Written(Sent(s, e).source) else Untouched
  }

  /** A promoted room is given a new claim. */
  predicate Promotes(s: State, e: Event) {
    && e.PromoteRoom? && e.claim !in s.claims && s.room.expires > e.now && s.room.localSource
    && (s.room.status.Local? || s.room.status.Uploading? || s.room.status.Ready?)
  }

  /** The heartbeat starts with a promoted claim, beats with publishes and ends with the claim. */
  function TouchedWritten(s: State, e: Event): Write<Option<int>> {
    if Swapped(s, e) || (e.ReleaseRoom? && s.room.claim == Some(e.claim)) then Written(None)
    else if Promotes(s, e) || (Accepted(s, e) && Sent(s, e).heartbeat) then Written(Some(e.now)) else Untouched
  }

  // ------------------------------------------------------------------ one step of each

  lemma AcceptedStep(s: State, e: Event)
    requires Accepted(s, e)
    ensures Step(s, e).room.(fence := s.room.fence) == Applied(s.room, Sent(s, e), e.now)
  {
    AcceptedExactly(s.room, Sent(s, e), e.now);
  }

  lemma RefusedStep(s: State, e: Event)
    requires e.SendCommit? && !Accepted(s, e)
    ensures Step(s, e).room == s.room.(fence := Step(s, e).room.fence)
  {
    if At(s, e.id, Judging) {
      AcceptedExactly(s.room, CommitOf(s.publishes[e.id]), e.now);
    }
  }

  lemma SwappedStep(s: State, e: Event)
    requires Swapped(s, e)
    ensures var room := Step(s, e).room;
            && room.playlists == map[] && room.published == {} && room.timeline == Timeline(map[], None, None, 0)
            && room.progress == Progress(None, None, None)
  {
  }

  lemma ClaimStep(s: State, e: Event)
    requires MovesClaim(e)
    ensures var room := Step(s, e).room;
            && room.playlists == s.room.playlists && room.published == s.room.published
            && room.timeline == s.room.timeline
            && room.progress == s.room.progress.(touched := Now(TouchedWritten(s, e), s.room.progress.touched))
  {
  }

  lemma OffsetStep(s: State, e: Event)
    requires e.MoveOffset? || e.SetStatus? || (e.SwapRoom? && !Swapped(s, e))
    ensures var room := Step(s, e).room;
            && room.playlists == s.room.playlists && room.published == s.room.published
            && room.progress == s.room.progress
            && room.timeline.regions == s.room.timeline.regions
            && room.timeline.durationMs == s.room.timeline.durationMs
            && room.timeline.offsetMs == Now(OffsetWritten(s, e), s.room.timeline.offsetMs)
  {
  }

  /** The other events touch nothing of the room, and write nothing. */
  lemma OtherStep(s: State, e: Event)
    requires !e.SendCommit? && !MovesClaim(e) && !MovesMedia(e)
    ensures Step(s, e).room == s.room
  {
    RoomOtherwise(s, e);
  }

  lemma CasesOf(s: State, e: Event)
    ensures Accepted(s, e) ==> Step(s, e).room.(fence := s.room.fence) == Applied(s.room, Sent(s, e), e.now)
    ensures e.SendCommit? && !Accepted(s, e) ==> Step(s, e).room == s.room.(fence := Step(s, e).room.fence)
    ensures !e.SendCommit? && !MovesClaim(e) && !MovesMedia(e) ==> Step(s, e).room == s.room
  {
    if Accepted(s, e) {
      AcceptedStep(s, e);
    } else if e.SendCommit? {
      RefusedStep(s, e);
    } else if !MovesClaim(e) && !MovesMedia(e) {
      OtherStep(s, e);
    }
  }

  lemma AppliedTimeline(room: Room, c: Commit, now: int)
    ensures var before, after := room.timeline, Applied(room, c, now).timeline;
            && after.regions == (if c.regions.Some? then c.regions.value else before.regions)
            && after.durationMs == (if c.durationMs > 0 then Some(c.durationMs) else before.durationMs)
            && after.offsetMs == (if c.offsetMs.Some? then c.offsetMs else before.offsetMs)
  {
  }

  lemma AppliedProgress(room: Room, c: Commit, now: int)
    ensures var before, after := room.progress, Applied(room, c, now).progress;
            && after.received == (if c.received.Some? then c.received else before.received)
            && after.source == (if c.source.Some? then c.source else before.source)
            && after.touched == (if c.heartbeat then Some(now) else before.touched)
  {
  }

  lemma TimelineStep(s: State, e: Event)
    ensures var before, after := s.room.timeline, Step(s, e).room.timeline;
            && after.regions == Now(RegionsWritten(s, e), before.regions)
            && after.durationMs == Now(DurationWritten(s, e), before.durationMs)
            && after.offsetMs == Now(OffsetWritten(s, e), before.offsetMs)
  {
    CasesOf(s, e);
    if Accepted(s, e) {
      AppliedTimeline(s.room, Sent(s, e), e.now);
      assert Step(s, e).room.timeline == Applied(s.room, Sent(s, e), e.now).timeline;
    } else if Swapped(s, e) {
      SwappedStep(s, e);
    } else if MovesClaim(e) {
      ClaimStep(s, e);
    } else if MovesMedia(e) {
      OffsetStep(s, e);
    }
  }

  lemma ProgressStep(s: State, e: Event)
    ensures var before, after := s.room.progress, Step(s, e).room.progress;
            && after.received == Now(ReceivedWritten(s, e), before.received)
            && after.source == Now(SourceWritten(s, e), before.source)
            && after.touched == Now(TouchedWritten(s, e), before.touched)
  {
    CasesOf(s, e);
    if Accepted(s, e) {
      AppliedProgress(s.room, Sent(s, e), e.now);
      assert Step(s, e).room.progress == Applied(s.room, Sent(s, e), e.now).progress;
    } else if Swapped(s, e) {
      SwappedStep(s, e);
    } else if MovesClaim(e) {
      ClaimStep(s, e);
    } else if MovesMedia(e) {
      OffsetStep(s, e);
    }
  }

  function Held(room: Room, name: Name): Option<Stored> {
    if name in room.playlists then Some(room.playlists[name]) else None
  }

  lemma AppliedMedia(room: Room, c: Commit, now: int)
    ensures Applied(room, c, now).playlists == room.playlists + c.playlists
    ensures Applied(room, c, now).published == room.published + set name | name in c.confirmed
  {
  }

  /** What an event that is not an accepted publish leaves of the media: all of it, unless it swaps the source. */
  lemma MediaOtherwise(s: State, e: Event)
    requires !Accepted(s, e)
    ensures var room := Step(s, e).room;
            if Swapped(s, e) then room.playlists == map[] && room.published == {}
            else room.playlists == s.room.playlists && room.published == s.room.published
  {
    CasesOf(s, e);
    if Swapped(s, e) {
      SwappedStep(s, e);
    } else if MovesClaim(e) {
      ClaimStep(s, e);
    } else if MovesMedia(e) {
      OffsetStep(s, e);
    }
  }

  lemma MediaAccepted(s: State, e: Event)
    requires Accepted(s, e)
    ensures var room := Step(s, e).room;
            && room.playlists == s.room.playlists + Sent(s, e).playlists
            && room.published == s.room.published + set name | name in Sent(s, e).confirmed
  {
    AcceptedStep(s, e);
    AppliedMedia(s.room, Sent(s, e), e.now);
    var room := Step(s, e).room;
    assert room.playlists == room.(fence := s.room.fence).playlists;
    assert room.published == room.(fence := s.room.fence).published;
  }

  lemma PlaylistStep(s: State, e: Event, name: Name)
    ensures Held(Step(s, e).room, name) == Now(PlaylistWritten(s, e, name), Held(s.room, name))
  {
    if Accepted(s, e) {
      MediaAccepted(s, e);
    } else {
      MediaOtherwise(s, e);
    }
  }

  lemma ConfirmedStep(s: State, e: Event, item: string)
    ensures item in Step(s, e).room.published <==> Now(ConfirmedWritten(s, e, item), item in s.room.published)
  {
    if Accepted(s, e) {
      MediaAccepted(s, e);
    } else {
      MediaOtherwise(s, e);
    }
  }

  // -------------------------------------------------------------------- over every run

  /** The states a room goes through from its creation, event by event. */
  ghost predicate IsRun(expires: int, states: seq<State>, events: seq<Event>) {
    && |states| == |events| + 1 && states[0] == Init(expires)
    && forall n | 0 <= n < |events| :: states[n + 1] == Step(states[n], events[n])
  }

  ghost function Writes<T>(states: seq<State>, events: seq<Event>, w: (State, Event) -> Write<T>): seq<Write<T>>
    requires |states| == |events| + 1
  {
    seq(|events|, n requires 0 <= n < |events| => w(states[n], events[n]))
  }

  ghost function Values<T>(states: seq<State>, f: State -> T): seq<T> {
    seq(|states|, n requires 0 <= n < |states| => f(states[n]))
  }

  /** What the field is now is what was last written to it, or what it was at first. */
  ghost predicate IsLastWritten<T>(states: seq<State>, events: seq<Event>, f: State -> T, w: (State, Event) -> Write<T>)
    requires |states| == |events| + 1
  {
    Stands(f(states[|events|]), f(states[0]), Writes(states, events, w), |events|)
  }

  lemma FieldStands<T>(expires: int, states: seq<State>, events: seq<Event>, f: State -> T,
                       w: (State, Event) -> Write<T>)
    requires IsRun(expires, states, events)
    requires forall n | 0 <= n < |events| ::
               f(Step(states[n], events[n])) == Now(w(states[n], events[n]), f(states[n]))
    ensures IsLastWritten(states, events, f, w)
  {
    var values, writes := Values(states, f), Writes(states, events, w);
    forall n | 0 <= n < |events|
      ensures values[n + 1] == Now(writes[n], values[n])
    {
      assert states[n + 1] == Step(states[n], events[n]);
    }
    TheLastStands(values, writes, |events|);
  }

  /**
   The regions, duration and offset stored are each what the last accepted publish to
   send any sent, or nothing, if none has since the source was swapped.
   */
  lemma TimelineStored(expires: int, states: seq<State>, events: seq<Event>)
    requires IsRun(expires, states, events)
    ensures IsLastWritten(states, events, (s: State) => s.room.timeline.regions, RegionsWritten)
    ensures IsLastWritten(states, events, (s: State) => s.room.timeline.durationMs, DurationWritten)
    ensures IsLastWritten(states, events, (s: State) => s.room.timeline.offsetMs, OffsetWritten)
    ensures states[0].room.timeline == Timeline(map[], None, None, 0)
  {
    forall n | 0 <= n < |events| { TimelineStep(states[n], events[n]); }
    FieldStands(expires, states, events, (s: State) => s.room.timeline.regions, RegionsWritten);
    FieldStands(expires, states, events, (s: State) => s.room.timeline.durationMs, DurationWritten);
    FieldStands(expires, states, events, (s: State) => s.room.timeline.offsetMs, OffsetWritten);
  }

  /** So is each part of the progress; the heartbeat also starts and ends with a claim. */
  lemma ProgressStored(expires: int, states: seq<State>, events: seq<Event>)
    requires IsRun(expires, states, events)
    ensures IsLastWritten(states, events, (s: State) => s.room.progress.received, ReceivedWritten)
    ensures IsLastWritten(states, events, (s: State) => s.room.progress.source, SourceWritten)
    ensures IsLastWritten(states, events, (s: State) => s.room.progress.touched, TouchedWritten)
    ensures states[0].room.progress == Progress(None, None, None)
  {
    forall n | 0 <= n < |events| { ProgressStep(states[n], events[n]); }
    FieldStands(expires, states, events, (s: State) => s.room.progress.received, ReceivedWritten);
    FieldStands(expires, states, events, (s: State) => s.room.progress.source, SourceWritten);
    FieldStands(expires, states, events, (s: State) => s.room.progress.touched, TouchedWritten);
  }

  /** And each playlist, by its name. */
  lemma PlaylistStored(expires: int, states: seq<State>, events: seq<Event>, name: Name)
    requires IsRun(expires, states, events)
    ensures IsLastWritten(states, events, (s: State) => Held(s.room, name), (s, e) => PlaylistWritten(s, e, name))
    ensures Held(states[0].room, name) == None
  {
    forall n | 0 <= n < |events| { PlaylistStep(states[n], events[n], name); }
    FieldStands(expires, states, events, (s: State) => Held(s.room, name), (s, e) => PlaylistWritten(s, e, name));
  }

  ghost predicate ConfirmedSinceSwap(states: seq<State>, events: seq<Event>, item: string, i: nat)
    requires |states| == |events| + 1 && i < |events|
  {
    && Accepted(states[i], events[i]) && item in Sent(states[i], events[i]).confirmed
    && forall n | i < n < |events| :: !Swapped(states[n], events[n])
  }

  /** The published set is exactly what accepted publishes confirmed since the source was swapped. */
  lemma PublishedIsWhatWasConfirmed(expires: int, states: seq<State>, events: seq<Event>, item: string)
    requires IsRun(expires, states, events)
    ensures item in states[|events|].room.published <==>
            exists i | 0 <= i < |events| :: ConfirmedSinceSwap(states, events, item, i)
  {
    var f := (s: State) => item in s.room.published;
    var w := (s, e) => ConfirmedWritten(s, e, item);
    forall n | 0 <= n < |events| { ConfirmedStep(states[n], events[n], item); }
    FieldStands(expires, states, events, f, w);
    var writes, held := Writes(states, events, w), f(states[|events|]);
    if i :| 0 <= i < |events| && ConfirmedSinceSwap(states, events, item, i) {
      assert writes[i] == Written(true);
      if j :| 0 <= j < |events| && LastWritten(held, writes, j, |events|) {
        assert j >= i && writes[j] == w(states[j], events[j]);
        assert j > i ==> !Swapped(states[j], events[j]);
      }
    }
    if held {
      var j :| 0 <= j < |events| && LastWritten(held, writes, j, |events|);
      assert writes[j] == w(states[j], events[j]);
      forall n | j < n < |events|
        ensures !Swapped(states[n], events[n])
      {
        assert writes[n] == w(states[n], events[n]);
      }
      assert ConfirmedSinceSwap(states, events, item, j);
    }
  }

  // ---------------------------------------------------------- what a publish sends

  /** This region is listed: its master is rendered or was found, or it was known and the lookup failed. */
  predicate MasterHeld(p: Publish, n: nat) {
    var master := RegionMaster(n);
    || master in p.rendered
    || (master in p.asked && p.asked[master].Has?)
    || ((master !in p.asked || p.asked[master].Unknown?) && n in p.regions)
  }

  lemma {:induction false} SentAsListed(sent: seq<Listed>, r: Listed)
    requires ValidRegions(sent)
    ensures r in sent <==> r.n in SentAs(sent) && SentAs(sent)[r.n] == r.region
  {
    if sent != [] {
      var n := |sent| - 1;
      assert sent == sent[..n] + [sent[n]];
      assert ValidRegions(sent[..n]);
      SentAsListed(sent[..n], r);
      if r.n == sent[n].n && r.n in SentAs(sent[..n]) {
        SentAsListed(sent[..n], Listed(r.n, SentAs(sent[..n])[r.n]));
      }
    }
  }

  /**
   Of the regions a publish names, those with a master are stored as it sent them, and
   no others; of those it does not name, all it knew, no longer growing.
   */
  lemma RegionsSent(p: Publish, sent: seq<Listed>, n: nat)
    requires p.req.timeline.Some? && ValidTimeline(p.req.timeline.value) && p.req.timeline.value.regions == Some(sent)
    ensures var c := CommitOf(p);
            var after := if c.regions.Some? then c.regions.value else p.regions;
            && (forall r | r in sent && r.n == n ::
                  if MasterHeld(p, n) then n in after && after[n] == r.region else n !in after)
            && ((forall r | r in sent :: r.n != n) ==>
                  if n in p.regions
                  then n in after && after[n] == Region(p.regions[n].startMs, p.regions[n].producedMs, false)
                  else n !in after)
  {
    forall r | r in sent && r.n == n { SentAsListed(sent, r); }
    if n in SentAs(sent) {
      SentAsListed(sent, Listed(n, SentAs(sent)[n]));
    }
  }

  /** The rest of a commit is the request's own, and what its steps made. */
  lemma CommitIsOfTheRequest(p: Publish)
    ensures var c, req := CommitOf(p), p.req;
            && c.claim == req.claim && c.generation == p.generation && c.run == req.run && c.seqNo == req.seqNo
            && c.digest == Some(req.digest) && c.confirmed == p.confirmed && c.playlists == p.rendered
            && c.received == req.received && c.source == req.source && c.heartbeat == !req.complete
            && (c.durationMs > 0 ==> req.timeline.Some?)
            && (req.timeline.Some? ==> c.durationMs == req.timeline.value.durationMs)
            && (c.offsetMs.Some? <==> req.timeline.Some? && Master(None) in p.rendered)
            && (c.offsetMs.Some? ==> c.offsetMs == Some(req.timeline.value.offsetMs))
            && (req.timeline.None? || req.timeline.value.regions.None? ==> c.regions == None)
  {
  }

  lemma {:induction false} ConfirmedByStats(confirm: seq<string>, stats: map<nat, bool>, n: nat, name: string)
    requires n <= |confirm|
    ensures name in ConfirmedOf(confirm, stats, n) <==>
            exists k | 0 <= k < n :: confirm[k] == name && k in stats && stats[k]
  {
    if n > 0 {
      ConfirmedByStats(confirm, stats, n - 1, name);
    }
  }
}
