/**
 What a publish's own steps make of its request (internal/httpapi/clientmedia.go:318-397,
 500-565): what is true of it when it sends its commit, whatever happens meanwhile, and
 what an undisturbed publish stores.
 */
module PublishSteps {
  import opened Wrappers
  import opened Playlists
  import opened RoomStore
  import opened Publish
  import opened PublishHistory

  // ------------------------------------------------- true of it, whatever interleaves

  ghost predicate ConfirmedAsFound(p: Publish) {
    forall name :: name in p.confirmed <==>
      exists k | 0 <= k < |p.req.confirm| :: p.req.confirm[k] == name && k in p.stats && p.stats[k]
  }

  /** A media playlist is rendered exactly when it renders, and as it renders against what is known confirmed. */
  predicate MediaAsRendered(p: Publish, name: Name)
    requires name.Stream?
  {
    var known := p.published + set item | item in p.confirmed;
    && (name in p.rendered <==> name in p.req.playlists && Renders(p.req.playlists[name].lines, known))
    && (name in p.rendered ==>
          p.rendered[name] == MediaPlaylist(Rendered(p.generation, p.req.playlists[name].lines, known).value))
  }

  predicate MasterAsSent(p: Publish, name: Name)
    requires name.Master?
  {
    name in p.rendered ==>
      && name in p.req.playlists && Sound(p.req.playlists[name].master)
      && p.rendered[name] == MasterPlaylist(p.req.playlists[name].master)
  }

  predicate AsSent(p: Publish, name: Name) {
    if name.Stream? then MediaAsRendered(p, name) else MasterAsSent(p, name)
  }

  ghost predicate Honest(p: Publish) {
    && (p.pc in {Counted, Rendering, Judging} ==> ConfirmedAsFound(p))
    && (p.pc in {Counted, Rendering} ==> p.rendered == map[])
    && (p.pc == Judging ==> forall name :: AsSent(p, name))
  }

  /** Nothing that honesty is about has changed. */
  predicate SameWork(p: Publish, next: Publish) {
    && next.req == p.req && next.generation == p.generation && next.stats == p.stats
    && next.confirmed == p.confirmed && next.published == p.published && next.rendered == p.rendered
  }

  lemma SameWorkSame(p: Publish, next: Publish, name: Name)
    requires SameWork(p, next)
    ensures AsSent(next, name) == AsSent(p, name) && ConfirmedAsFound(next) == ConfirmedAsFound(p)
  {
  }

  lemma HonestSame(p: Publish, next: Publish)
    requires Honest(p) && SameWork(p, next) && (next.pc == p.pc || next.pc !in {Counted, Rendering, Judging})
    ensures Honest(next)
  {
    forall name { SameWorkSame(p, next, name); }
    SameWorkSame(p, next, ROOM_MASTER);
  }

  lemma GatherHonest(p: Publish, room: Room, bucket: set<ObjectKey>, e: Event)
    requires e.Gather? && p.pc == Stating && p.rendered == map[]
    ensures Honest(Advance(p, room, bucket, e))
  {
    forall name {
      ConfirmedByStats(p.req.confirm, p.stats, |p.req.confirm|, name);
    }
  }

  lemma ReadHonest(p: Publish, room: Room, bucket: set<ObjectKey>, e: Event)
    requires e.ReadPublished? && p.pc == Counted && Honest(p)
    ensures Honest(Advance(p, room, bucket, e))
  {
    var next := Advance(p, room, bucket, e);
    assert ConfirmedAsFound(p);
    assert next.confirmed == p.confirmed && next.stats == p.stats && next.req == p.req;
  }

  lemma RenderedAsSent(p: Publish, next: Publish, name: Name)
    requires next == p.(pc := Judging, rendered := RenderedMedia(p))
    ensures AsSent(next, name)
  {
    assert KnownHere(p) == next.published + set item | item in next.confirmed;
  }

  lemma RenderHonest(p: Publish, room: Room, bucket: set<ObjectKey>, e: Event)
    requires e.RenderMedia? && p.pc == Rendering && Honest(p)
    ensures Honest(Advance(p, room, bucket, e))
  {
    var next := Advance(p, room, bucket, e);
    if next.pc == Judging {
      assert ConfirmedAsFound(p);
      assert next.confirmed == p.confirmed && next.stats == p.stats && next.req == p.req;
      forall name { RenderedAsSent(p, next, name); }
    }
  }

  lemma MasterAsJudged(p: Publish, next: Publish, name: Name, other: Name)
    requires name.Master? && name in p.req.playlists && Sound(p.req.playlists[name].master) && AsSent(p, other)
    requires next == p.(rendered := p.rendered[name := MasterPlaylist(p.req.playlists[name].master)])
    ensures AsSent(next, other)
  {
  }

  lemma JudgeHonest(p: Publish, room: Room, bucket: set<ObjectKey>, e: Event)
    requires e.JudgeMaster? && p.pc == Judging && Honest(p)
    ensures Honest(Advance(p, room, bucket, e))
  {
    var next := Advance(p, room, bucket, e);
    if next.pc == p.pc && next != p {
      assert ConfirmedAsFound(p);
      assert next.confirmed == p.confirmed && next.stats == p.stats && next.req == p.req;
      forall name {
        MasterAsJudged(p, next, e.name, name);
      }
    } else {
      HonestSame(p, next);
    }
  }

  /** The other steps read the room, ask it or start over. */
  lemma OtherWork(p: Publish, room: Room, bucket: set<ObjectKey>, e: Event)
    requires !e.Gather? && !e.RenderMedia? && !e.JudgeMaster? && !(e.ReadPublished? && p.pc == Counted)
    ensures var next := Advance(p, room, bucket, e);
            (SameWork(p, next) && next.pc == p.pc) || next.pc in {Loaded, Stating, Answered}
  {
  }

  lemma OtherHonest(p: Publish, room: Room, bucket: set<ObjectKey>, e: Event)
    requires Honest(p) && !e.Gather? && !e.RenderMedia? && !e.JudgeMaster? && !(e.ReadPublished? && p.pc == Counted)
    ensures Honest(Advance(p, room, bucket, e))
  {
    var next := Advance(p, room, bucket, e);
    OtherWork(p, room, bucket, e);
    if SameWork(p, next) && next.pc == p.pc {
      HonestSame(p, next);
    }
  }

  lemma AdvanceHonest(p: Publish, room: Room, bucket: set<ObjectKey>, e: Event)
    requires Honest(p) && Orderly(p)
    ensures Honest(Advance(p, room, bucket, e))
  {
    if e.Gather? && p.pc == Stating {
      GatherHonest(p, room, bucket, e);
    } else if e.ReadPublished? && p.pc == Counted {
      ReadHonest(p, room, bucket, e);
    } else if e.RenderMedia? && p.pc == Rendering {
      RenderHonest(p, room, bucket, e);
    } else if e.JudgeMaster? && p.pc == Judging {
      JudgeHonest(p, room, bucket, e);
    } else if e.Gather? || e.RenderMedia? || e.JudgeMaster? {
      assert Advance(p, room, bucket, e) == p;
    } else {
      OtherHonest(p, room, bucket, e);
    }
  }

  lemma HonestStep(s: State, e: Event, id: nat)
    requires id in Step(s, e).publishes
    requires id in s.publishes ==> Honest(s.publishes[id]) && Orderly(s.publishes[id])
    ensures Honest(Step(s, e).publishes[id])
  {
    PublishAfter(s, e, id);
    if id in s.publishes {
      AdvanceHonest(s.publishes[id], s.room, s.bucket, e);
    }
  }

  /** Whatever interleaves, a publish about to commit carries what it was sent, rendered against what it found. */
  lemma {:induction false} SendsWhatItFound(expires: int, events: seq<Event>, k: nat, id: nat)
    requires k <= |events| && id in After(Init(expires), events, k).publishes
    ensures Honest(After(Init(expires), events, k).publishes[id])
  {
    var s := After(Init(expires), events, k - 1);
    if id in s.publishes {
      SendsWhatItFound(expires, events, k - 1, id);
      InvAlways(expires, events, k - 1);
      assert PublishOk(s.publishes[id], s.room, s.bucket);
    }
    HonestStep(s, events[k - 1], id);
  }

  // --------------------------------------------------------------------- one step each

  /** A master that breaks the grammar ends the publish; else it is stored exactly when all it names is there. */
  lemma JudgedExactly(p: Publish, room: Room, bucket: set<ObjectKey>, id: nat, name: Name)
    requires p.pc == Judging && name in p.req.playlists && name.Master?
    ensures var next, body := Advance(p, room, bucket, JudgeMaster(id, name)), p.req.playlists[name].master;
            && (next.pc == Answered <==> !Sound(body))
            && (Sound(body) && (forall ref :: RefersTo(body, ref) ==> ref in p.rendered || ref in p.seen) ==>
                  next.rendered == p.rendered[name := MasterPlaylist(body)])
            && (!(forall ref :: RefersTo(body, ref) ==> ref in p.rendered || ref in p.seen) ==>
                  next.rendered == p.rendered)
  {
  }

  lemma AskTells(p: Publish, room: Room, bucket: set<ObjectKey>, id: nat, name: Name, answered: bool)
    requires p.pc == Judging
    ensures Advance(p, room, bucket, Ask(id, name, answered)).seen ==
            if answered && name in room.playlists then p.seen + {name} else p.seen
  {
  }

  // ------------------------------------------------------------- with nobody else about

  ghost function Statted(s: State, id: nat, n: nat): State {
    if n == 0 then s else Step(Statted(s, id, n - 1), Stat(id, n - 1, true))
  }

  /** Every step of one publish, one after another. */
  ghost function Prepared(s: State, id: nat, req: Request): State {
    Step(Step(Step(s, Arrive(id, req)), Load(id)), Authorize(id))
  }

  ghost function AfterLooking(s: State, id: nat, req: Request): State {
    Statted(Prepared(s, id, req), id, |req.confirm|)
  }

  ghost function AfterReading(s: State, id: nat, req: Request): State {
    Step(Step(AfterLooking(s, id, req), Gather(id)), ReadPublished(id))
  }

  ghost function MediaReady(s: State, id: nat, req: Request): State {
    Step(AfterReading(s, id, req), RenderMedia(id))
  }

  ghost function RoomAfter(t: State, id: nat, now: int): Room {
    Step(t, SendCommit(id, now)).room
  }

  predicate Welcome(room: Room, req: Request, now: int) {
    && room.claim == room.claimKey == Some(req.claim) && room.expires > now
    && (req.generation.Some? ==> req.generation.value == room.generation)
    && (req.run.Some? ==>
          && (room.fence.run == None || room.fence.run == req.run)
          && req.seqNo > if room.fence.lastSeq.Some? then room.fence.lastSeq.value else -1)
    && (req.timeline.Some? ==> ValidTimeline(req.timeline.value))
    && (forall name | name in req.playlists && name.Stream? ::
          !req.playlists[name].master.streamInf && req.playlists[name].sane)
  }

  /** The objects it confirms that are there. */
  function Found(bucket: set<ObjectKey>, req: Request, generation: nat): set<string> {
    set k | 0 <= k < |req.confirm| && ObjectKey(generation, req.confirm[k]) in bucket :: req.confirm[k]
  }

  function StatsTo(p: Publish, bucket: set<ObjectKey>, n: nat): map<nat, bool>
    requires n <= |p.req.confirm|
  {
    map k: nat | k < n :: ObjectKey(p.generation, p.req.confirm[k]) in bucket
  }

  lemma PreparedIs(s: State, id: nat, req: Request, now: int)
    requires id !in s.publishes && Welcome(s.room, req, now)
    ensures Prepared(s, id, req) ==
            With(s, id, Begun(req).(pc := Stating, generation := s.room.generation, regions := s.room.timeline.regions))
  {
    var one := Step(s, Arrive(id, req));
    var two := Step(one, Load(id));
    var p := Begun(req).(pc := Loaded, generation := s.room.generation, regions := s.room.timeline.regions);
    assert two == With(s, id, p);
  }

  lemma OneStat(s: State, id: nat, p: Publish, k: nat)
    requires p.pc == Stating && k < |p.req.confirm|
    ensures Step(With(s, id, p), Stat(id, k, true)) ==
            With(s, id, p.(stats := p.stats[k := ObjectKey(p.generation, p.req.confirm[k]) in s.bucket]))
  {
    var held := With(s, id, p);
    assert held.publishes[id] == p && held.bucket == s.bucket;
    var next := p.(stats := p.stats[k := ObjectKey(p.generation, p.req.confirm[k]) in s.bucket]);
    assert held.publishes[id := next] == s.publishes[id := next];
  }

  lemma StatsOneMore(p: Publish, bucket: set<ObjectKey>, n: nat)
    requires n < |p.req.confirm|
    ensures StatsTo(p, bucket, n + 1) ==
            StatsTo(p, bucket, n)[n := ObjectKey(p.generation, p.req.confirm[n]) in bucket]
  {
  }

  ghost function WithStats(s: State, id: nat, p: Publish, n: nat): State
    requires n <= |p.req.confirm|
  {
    With(s, id, p.(stats := StatsTo(p, s.bucket, n)))
  }

  lemma NextStat(s: State, id: nat, p: Publish, n: nat)
    requires p.pc == Stating && n < |p.req.confirm|
    ensures Step(WithStats(s, id, p, n), Stat(id, n, true)) == WithStats(s, id, p, n + 1)
  {
    OneStat(s, id, p.(stats := StatsTo(p, s.bucket, n)), n);
    StatsOneMore(p, s.bucket, n);
  }

  ghost predicate StatsAre(s: State, id: nat, p: Publish, n: nat)
    requires n <= |p.req.confirm|
  {
    Statted(With(s, id, p), id, n) == WithStats(s, id, p, n)
  }

  lemma NoStats(s: State, id: nat, p: Publish, n: nat)
    requires n == 0 && p.stats == map[]
    ensures StatsAre(s, id, p, n)
  {
    assert StatsTo(p, s.bucket, n) == p.stats;
  }

  lemma StattedOnce(s: State, id: nat, p: Publish, n: nat, next: nat)
    requires p.pc == Stating && next == n + 1 <= |p.req.confirm| && StatsAre(s, id, p, n)
    ensures StatsAre(s, id, p, next)
  {
    NextStat(s, id, p, n);
  }

  lemma {:induction false} StattedIs(s: State, id: nat, p: Publish, n: nat)
    requires p.pc == Stating && n <= |p.req.confirm| && p.stats == map[]
    ensures StatsAre(s, id, p, n)
  {
    if n == 0 {
      NoStats(s, id, p, n);
    } else {
      StattedIs(s, id, p, n - 1);
      StattedOnce(s, id, p, n - 1, n);
    }
  }

  lemma FoundByStats(p: Publish, bucket: set<ObjectKey>)
    ensures var confirmed := ConfirmedOf(p.req.confirm, StatsTo(p, bucket, |p.req.confirm|), |p.req.confirm|);
            (set item | item in confirmed) == Found(bucket, p.req, p.generation)
  {
    var stats := StatsTo(p, bucket, |p.req.confirm|);
    var confirmed := ConfirmedOf(p.req.confirm, stats, |p.req.confirm|);
    forall item
      ensures item in confirmed <==> item in Found(bucket, p.req, p.generation)
    {
      ConfirmedByStats(p.req.confirm, stats, |p.req.confirm|, item);
    }
  }

  /** A publish once its objects were looked for, and once rendered. */
  function Looked(s: State, req: Request): Publish {
    var p := Begun(req).(pc := Stating, generation := s.room.generation, regions := s.room.timeline.regions);
    p.(stats := StatsTo(p, s.bucket, |req.confirm|))
  }

  function Gathered(s: State, req: Request): Publish {
    var p := Looked(s, req);
    p.(pc := Rendering, confirmed := ConfirmedOf(req.confirm, p.stats, |req.confirm|), published := s.room.published)
  }

  function AllRendered(s: State, req: Request): Publish {
    Gathered(s, req).(pc := Judging, rendered := RenderedMedia(Gathered(s, req)))
  }

  lemma LookedIs(s: State, id: nat, req: Request, now: int)
    requires id !in s.publishes && Welcome(s.room, req, now)
    ensures AfterLooking(s, id, req) == With(s, id, Looked(s, req))
  {
    var p := Begun(req).(pc := Stating, generation := s.room.generation, regions := s.room.timeline.regions);
    PreparedIs(s, id, req, now);
    StattedIs(s, id, p, |req.confirm|);
  }

  lemma OwnStep(s: State, id: nat, p: Publish, e: Event)
    requires e.Gather? || e.ReadPublished? || e.RenderMedia? || e.JudgeMaster?
    requires e.id == id
    ensures Step(With(s, id, p), e) == With(s, id, Advance(p, s.room, s.bucket, e))
  {
    var held, next := With(s, id, p), Advance(p, s.room, s.bucket, e);
    assert held.publishes[id := next] == s.publishes[id := next];
  }

  lemma ReadIs(s: State, id: nat, p: Publish)
    requires p.pc == Stating
    ensures Step(Step(With(s, id, p), Gather(id)), ReadPublished(id)) ==
            With(s, id, p.(pc := Rendering, confirmed := ConfirmedOf(p.req.confirm, p.stats, |p.req.confirm|),
                           published := s.room.published))
  {
    OwnStep(s, id, p, Gather(id));
    OwnStep(s, id, p.(pc := Counted, confirmed := ConfirmedOf(p.req.confirm, p.stats, |p.req.confirm|)),
            ReadPublished(id));
  }

  lemma MediaIs(s: State, id: nat, p: Publish)
    requires p.pc == Rendering && !AnyBadMedia(p)
    ensures Step(With(s, id, p), RenderMedia(id)) == With(s, id, p.(pc := Judging, rendered := RenderedMedia(p)))
  {
    OwnStep(s, id, p, RenderMedia(id));
  }

  lemma RenderedIs(s: State, id: nat, req: Request, now: int)
    requires id !in s.publishes && Welcome(s.room, req, now)
    ensures MediaReady(s, id, req) == With(s, id, AllRendered(s, req))
  {
    LookedIs(s, id, req, now);
    ReadIs(s, id, Looked(s, req));
    assert AfterReading(s, id, req) == With(s, id, Gathered(s, req));
    NoneBad(s, req, now);
    MediaIs(s, id, Gathered(s, req));
  }

  lemma NoneBad(s: State, req: Request, now: int)
    requires Welcome(s.room, req, now)
    ensures !AnyBadMedia(Gathered(s, req))
  {
  }

  /** What it will have stored once it commits: what was, and each playlist that renders against all now confirmed. */
  lemma RenderedStores(s: State, req: Request, name: Name)
    requires name.Stream?
    ensures var p := AllRendered(s, req); var known := s.room.published + Found(s.bucket, req, s.room.generation);
            && (set item | item in p.confirmed) == Found(s.bucket, req, s.room.generation)
            && (name in p.rendered <==> name in req.playlists && Renders(req.playlists[name].lines, known))
            && (name in p.rendered ==>
                  var lines := Rendered(s.room.generation, req.playlists[name].lines, known);
                  p.rendered[name] == MediaPlaylist(lines.value))
  {
    var p := Looked(s, req);
    FoundByStats(p, s.bucket);
    assert StatsTo(p, s.bucket, |req.confirm|) == p.stats;
    assert KnownHere(Gathered(s, req)) == s.room.published + Found(s.bucket, req, s.room.generation);
  }

  lemma AloneAccepted(s: State, id: nat, p: Publish, now: int)
    requires Welcome(s.room, p.req, now) && p.pc == Judging && p.generation == s.room.generation
    ensures var room := RoomAfter(With(s, id, p), id, now);
            && room.playlists == s.room.playlists + p.rendered
            && room.published == s.room.published + set item | item in p.confirmed
  {
    var held, e := With(s, id, p), SendCommit(id, now);
    assert held.room == s.room && held.publishes[id] == p;
    assert Accepted(held, e);
    MediaAccepted(held, e);
    CommitIsOfTheRequest(p);
  }

  /** The media playlist of this name is stored as it renders against all that is confirmed, or left as it was. */
  predicate MediaStored(before: Room, after: Room, req: Request, name: Name) {
    if name in req.playlists && Renders(req.playlists[name].lines, after.published) then
      Held(after, name) ==
      Some(MediaPlaylist(Rendered(before.generation, req.playlists[name].lines, after.published).value))
    else Held(after, name) == Held(before, name)
  }

  lemma StoredAsRendered(s: State, req: Request, after: Room, name: Name)
    requires name.Stream? && after.playlists == s.room.playlists + AllRendered(s, req).rendered
    requires after.published == s.room.published + set item | item in AllRendered(s, req).confirmed
    ensures after.published == s.room.published + Found(s.bucket, req, s.room.generation)
    ensures MediaStored(s.room, after, req, name)
  {
    RenderedStores(s, req, name);
  }

  lemma AllRenderedIsOf(s: State, req: Request)
    ensures var p := AllRendered(s, req); p.req == req && p.pc == Judging && p.generation == s.room.generation
  {
  }

  /**
   With nobody else about, a welcome publish stores what it confirms and finds, and every
   media playlist that renders against all that is then confirmed; no other changes.
   */
  lemma AloneIsStored(s: State, id: nat, req: Request, now: int, name: Name)
    requires id !in s.publishes && Welcome(s.room, req, now) && name.Stream?
    ensures var after := RoomAfter(MediaReady(s, id, req), id, now);
            && after.published == s.room.published + Found(s.bucket, req, s.room.generation)
            && MediaStored(s.room, after, req, name)
  {
    RenderedIs(s, id, req, now);
    AllRenderedIsOf(s, req);
    AloneAccepted(s, id, AllRendered(s, req), now);
    StoredAsRendered(s, req, RoomAfter(MediaReady(s, id, req), id, now), name);
  }

  /** Every playlist a master names is one of the media playlists sent with it, and renders. */
  ghost predicate NamesWhatRenders(s: State, req: Request, body: MasterBody) {
    var known := s.room.published + Found(s.bucket, req, s.room.generation);
    forall ref :: RefersTo(body, ref) ==>
      ref.Stream? && ref in req.playlists && Renders(req.playlists[ref].lines, known)
  }

  lemma NamedAreRendered(s: State, req: Request, body: MasterBody)
    requires NamesWhatRenders(s, req, body)
    ensures forall ref :: RefersTo(body, ref) ==> ref in AllRendered(s, req).rendered
  {
    forall ref | RefersTo(body, ref)
      ensures ref in AllRendered(s, req).rendered
    {
      RenderedStores(s, req, ref);
    }
  }

  lemma JudgedIs(s: State, id: nat, p: Publish, name: Name)
    requires p.pc == Judging && name.Master? && name in p.req.playlists && Sound(p.req.playlists[name].master)
    requires forall ref :: RefersTo(p.req.playlists[name].master, ref) ==> ref in p.rendered
    ensures Step(With(s, id, p), JudgeMaster(id, name)) ==
            With(s, id, p.(rendered := p.rendered[name := MasterPlaylist(p.req.playlists[name].master)]))
  {
    OwnStep(s, id, p, JudgeMaster(id, name));
  }

  /** And its master, when all it names is rendered with it. */
  lemma AloneStoresItsMaster(s: State, id: nat, req: Request, now: int, name: Name)
    requires id !in s.publishes && Welcome(s.room, req, now) && name.Master? && name in req.playlists
    requires Sound(req.playlists[name].master) && NamesWhatRenders(s, req, req.playlists[name].master)
    ensures Held(RoomAfter(Step(MediaReady(s, id, req), JudgeMaster(id, name)), id, now), name) ==
            Some(MasterPlaylist(req.playlists[name].master))
  {
    var p := AllRendered(s, req);
    RenderedIs(s, id, req, now);
    AllRenderedIsOf(s, req);
    NamedAreRendered(s, req, req.playlists[name].master);
    JudgedIs(s, id, p, name);
    AloneAccepted(s, id, p.(rendered := p.rendered[name := MasterPlaylist(req.playlists[name].master)]), now);
  }
}
