/**
 A producer's publish against everything that can happen to its room meanwhile.
 The handler (internal/httpapi/clientmedia.go) reads the room, asks the bucket,
 reads the confirmed set, renders, asks which playlists exist and only then
 commits; every one of those is its own step here, and claims, promotes, releases,
 swaps, fence moves, uploads and other publishes fall anywhere between them.
 */
module Publish {
  import opened Wrappers
  import opened Playlists
  import opened RoomStore

  // ------------------------------------------------------------------ a request

  /** A playlist as sent, read both as a media playlist and as a master. */
  datatype Submitted = Submitted(lines: seq<Line>, sane: bool, master: MasterBody)

  datatype Listed = Listed(n: nat, region: Region)

  /** Regions may be left out, which is not the same as sending none. */
  datatype TimelineSent = TimelineSent(durationMs: int, offsetMs: int, regions: Option<seq<Listed>>)

  datatype Request = Request(
    claim: Token, generation: Option<nat>, run: Option<Token>, seqNo: int, digest: Token,
    confirm: seq<string>, playlists: map<Name, Submitted>, timeline: Option<TimelineSent>,
    received: Option<int>, source: Option<int>, complete: bool)

  const MAX_REGIONS := 64
  const MAX_REGION := 999_999

  predicate ValidRegions(regions: seq<Listed>) {
    && |regions| <= MAX_REGIONS
    && (forall r | r in regions :: r.n <= MAX_REGION && r.region.startMs >= 0 && r.region.producedMs >= 0)
    && (forall j, k | 0 <= j < k < |regions| :: regions[j].n != regions[k].n)
  }

  predicate ValidTimeline(t: TimelineSent) {
    t.durationMs >= 0 && t.offsetMs >= 0 && (t.regions.Some? ==> ValidRegions(t.regions.value))
  }

  /** What the store said of a playlist: it is there, it is not, or the lookup failed. */
  datatype Answer = Has | Missing | Unknown

  function AnswerFor(asked: map<Name, Answer>, name: Name): Answer {
    if name in asked then asked[name] else Unknown
  }

  // ------------------------------------------------------- the regions it lists

  function SentAs(sent: seq<Listed>): map<nat, Region> {
    if sent == [] then map[] else SentAs(sent[..|sent| - 1])[sent[|sent| - 1].n := sent[|sent| - 1].region]
  }

  /** A named region is listed with its master held, or known before and its lookup failed. */
  predicate Lists(n: nat, rendered: set<Name>, asked: map<Name, Answer>, known: map<nat, Region>) {
    var master := RegionMaster(n);
    || master in rendered
    || AnswerFor(asked, master) == Has
    || (AnswerFor(asked, master) == Unknown && n in known)
  }

  function NamedListed(named: map<nat, Region>, rendered: set<Name>, asked: map<Name, Answer>, known: map<nat, Region>)
    : map<nat, Region>
  {
    map n | n in named && Lists(n, rendered, asked, known) :: named[n]
  }

  function Settled(known: map<nat, Region>, named: set<nat>): map<nat, Region> {
    map n | n in known && n !in named :: known[n].(growing := false)
  }

  /** The regions sent that may be listed, and those it did not name, no longer growing. */
  function RegionsAfter(sent: seq<Listed>, rendered: set<Name>, asked: map<Name, Answer>, known: map<nat, Region>)
    : map<nat, Region>
  {
    NamedListed(SentAs(sent), rendered, asked, known) + Settled(known, SentAs(sent).Keys)
  }

  method RenderedRegions(sent: seq<Listed>, rendered: set<Name>, asked: map<Name, Answer>, known: map<nat, Region>)
    returns (out: map<nat, Region>)
    requires ValidRegions(sent)
    ensures out == RegionsAfter(sent, rendered, asked, known)
  {
    var named: set<nat>;
    out, named := TakeNamed(sent, rendered, asked, known);
    var settled := TakeUnnamed(known, named);
    out := out + settled;
  }

  method TakeNamed(sent: seq<Listed>, rendered: set<Name>, asked: map<Name, Answer>, known: map<nat, Region>)
    returns (out: map<nat, Region>, named: set<nat>)
    requires ValidRegions(sent)
    ensures named == SentAs(sent).Keys
    ensures out == NamedListed(SentAs(sent), rendered, asked, known)
  {
    out, named := map[], {};
    for k := 0 to |sent|
      invariant named == SentAs(sent[..k]).Keys
      invariant forall n | n in named :: exists j :: 0 <= j < k && sent[j].n == n
      invariant out == NamedListed(SentAs(sent[..k]), rendered, asked, known)
    {
      assert sent[..k + 1][..k] == sent[..k];
      var r := sent[k];
      ListOneMore(SentAs(sent[..k]), r.n, r.region, rendered, asked, known);
      named := named + {r.n};
      var master := RegionMaster(r.n);
      if master in rendered {
        out := out[r.n := r.region];
      } else if master !in asked || asked[master] == Unknown {
        if r.n in known {
          out := out[r.n := r.region];
        }
      } else if asked[master] == Has {
        out := out[r.n := r.region];
      }
    }
    assert sent[..|sent|] == sent;
  }

  lemma ListOneMore(named: map<nat, Region>, n: nat, region: Region,
                    rendered: set<Name>, asked: map<Name, Answer>, known: map<nat, Region>)
    requires n !in named
    ensures NamedListed(named[n := region], rendered, asked, known) ==
            if Lists(n, rendered, asked, known) then NamedListed(named, rendered, asked, known)[n := region]
            else NamedListed(named, rendered, asked, known)
  {
  }

  method TakeUnnamed(known: map<nat, Region>, named: set<nat>) returns (out: map<nat, Region>)
    ensures out == Settled(known, named)
  {
    out := map[];
    var todo := known.Keys;
    while todo != {}
      invariant todo <= known.Keys
      invariant out.Keys == known.Keys - named - todo
      invariant forall n | n in out :: out[n] == known[n].(growing := false)
      decreases |todo|
    {
      var n :| n in todo;
      if n !in named {
        out := out[n := known[n].(growing := false)];
      }
      todo := todo - {n};
    }
  }

  // ------------------------------------------------------------ publishes in flight

  datatype Pc = Arrived | Loaded | Stating | Counted | Rendering | Judging | Answered

  datatype Publish = Publish(
    req: Request, pc: Pc,
    generation: nat, regions: map<nat, Region>,  // as read when the room was loaded
    stats: map<nat, bool>, confirmed: seq<string>,
    published: set<string>, rendered: map<Name, Stored>,
    asked: map<Name, Answer>, seen: set<Name>,   // the latest answer about a playlist; those ever found
    outcome: Option<Outcome>)

  function Begun(req: Request): Publish {
    Publish(req, Arrived, 0, map[], map[], [], {}, map[], map[], {}, None)
  }

  function ConfirmedOf(confirm: seq<string>, stats: map<nat, bool>, n: nat): seq<string>
    requires n <= |confirm|
  {
    if n == 0 then []
    else if n - 1 in stats && stats[n - 1] then ConfirmedOf(confirm, stats, n - 1) + [confirm[n - 1]]
    else ConfirmedOf(confirm, stats, n - 1)
  }

  /** The set a publish renders against: what was confirmed before, and what it confirmed. */
  function KnownHere(p: Publish): set<string> {
    p.published + set name | name in p.confirmed
  }

  /** Every media playlist that renders, rendered; the rest wait for a later publish. */
  function RenderedMedia(p: Publish): map<Name, Stored> {
    map name | name in p.req.playlists && name.Stream? && Renders(p.req.playlists[name].lines, KnownHere(p)) ::
      MediaPlaylist(Rendered(p.generation, p.req.playlists[name].lines, KnownHere(p)).value)
  }

  predicate BadMedia(sent: Submitted, name: Name) {
    name.Stream? && (sent.master.streamInf || !sent.sane)
  }

  predicate AnyBadMedia(p: Publish) {
    exists name | name in p.req.playlists :: BadMedia(p.req.playlists[name], name)
  }

  method TakeConfirmed(confirm: seq<string>, stats: map<nat, bool>) returns (confirmed: seq<string>)
    ensures confirmed == ConfirmedOf(confirm, stats, |confirm|)
  {
    confirmed := [];
    for i := 0 to |confirm|
      invariant confirmed == ConfirmedOf(confirm, stats, i)
    {
      if i in stats && stats[i] {
        confirmed := confirmed + [confirm[i]];
      }
    }
  }

  /** The media half of renderClientPlaylists: one malformed playlist refuses them all. */
  method RenderAllMedia(p: Publish) returns (rendered: Option<map<Name, Stored>>)
    ensures rendered.None? <==> AnyBadMedia(p)
    ensures rendered.Some? ==> rendered.value == RenderedMedia(p)
  {
    var out: map<Name, Stored>, todo, known := map[], p.req.playlists.Keys, KnownHere(p);
    while todo != {}
      invariant todo <= p.req.playlists.Keys
      invariant forall name | name in p.req.playlists && name !in todo :: !BadMedia(p.req.playlists[name], name)
      invariant forall name :: name in out <==> name in RenderedMedia(p) && name !in todo
      invariant forall name | name in out :: out[name] == RenderedMedia(p)[name]
      decreases |todo|
    {
      var name :| name in todo;
      todo := todo - {name};
      if name.Stream? {
        var sent := p.req.playlists[name];
        if sent.master.streamInf || !sent.sane {
          return None;
        }
        var body := Render(p.generation, sent.lines, known);
        if body.Some? {
          out := out[name := MediaPlaylist(body.value)];
        }
      }
    }
    rendered := Some(out);
  }

  function AnswerOf(room: Room, name: Name, answered: bool): Answer {
    if !answered then Unknown else if name in room.playlists then Has else Missing
  }

  predicate Available(p: Publish, name: Name) {
    name in p.rendered || name in p.seen
  }

  ghost predicate AllAvailable(p: Publish, body: MasterBody) {
    forall name :: RefersTo(body, name) ==> Available(p, name)
  }

  function CommitOf(p: Publish): Commit {
    var t := p.req.timeline;
    var regions := if t.Some? && t.value.regions.Some?
                   then RegionsAfter(t.value.regions.value, p.rendered.Keys, p.asked, p.regions) else p.regions;
    Commit(p.req.claim, p.generation, p.req.run, p.req.seqNo, Some(p.req.digest), p.confirmed, p.rendered,
           if regions != p.regions then Some(regions) else None,
           if t.Some? then t.value.durationMs else 0,
           if t.Some? && ROOM_MASTER in p.rendered then Some(t.value.offsetMs) else None,
           p.req.received, p.req.source, !p.req.complete)
  }

  // ------------------------------------------------------------------- the machine

  datatype Accept = Accept(run: Token, seqNo: int)

  datatype State = State(
    room: Room, bucket: set<ObjectKey>, publishes: map<nat, Publish>,
    claims: set<Token>, runs: set<Token>,   // every claim and every fenced run so far
    retired: set<(Token, Token)>,           // a claim, and a run the fence was moved off under it
    accepted: seq<Accept>)                  // publishes with a run accepted since the fence last moved

  datatype Event =
    // A publish's own steps.
    | Arrive(id: nat, req: Request)
    | Load(id: nat)                                 // HGETALL of the room
    | Authorize(id: nat)                            // GET of the claim's own key
    | Stat(id: nat, k: nat, answered: bool)         // one HEAD of the bucket
    | Gather(id: nat)
    | ReadPublished(id: nat)                        // SMEMBERS of the confirmed set
    | RenderMedia(id: nat)
    | Ask(id: nat, name: Name, answered: bool)      // HEXISTS of one playlist
    | JudgeMaster(id: nat, name: Name)
    | SendCommit(id: nat, now: int)                 // the commit script
    // Everything else that happens to the room.
    | ClaimRoom(claim: Token, now: int)
    | PromoteRoom(claim: Token, now: int)
    | ReleaseRoom(claim: Token)
    | SwapRoom(status: Status, now: int)
    | MoveFence(run: Token)
    | MoveOffset(offsetMs: int, now: int)
    | SetStatus(status: Status)
    | Upload(key: ObjectKey)

  function Init(expires: int): State {
    State(Created(expires), {}, map[], {}, {}, {}, [])
  }

  predicate At(s: State, id: nat, pc: Pc) {
    id in s.publishes && s.publishes[id].pc == pc
  }

  function With(s: State, id: nat, p: Publish): State {
    s.(publishes := s.publishes[id := p])
  }

  /** A publish answered without ever reaching the commit. */
  function Dropped(p: Publish): Publish {
    p.(pc := Answered)
  }

  /** The next state of one publish, given the room and the bucket it looks at; the commit aside. */
  ghost function Advance(p: Publish, room: Room, bucket: set<ObjectKey>, e: Event): Publish {
    match e
    case Load(_) =>
      if p.pc != Arrived then p
      else p.(pc := Loaded, generation := room.generation, regions := room.timeline.regions)
    case Authorize(_) =>
      if p.pc != Loaded then p
      else if room.claimKey != Some(p.req.claim) || (p.req.generation.Some? && p.req.generation.value != p.generation)
      then Dropped(p)
      else p.(pc := Stating)
    case Stat(_, k, answered) =>
      if p.pc != Stating || k >= |p.req.confirm| then p
      else p.(stats := p.stats[k := answered && ObjectKey(p.generation, p.req.confirm[k]) in bucket])
    case Gather(_) =>
      if p.pc != Stating then p
      else p.(pc := Counted, confirmed := ConfirmedOf(p.req.confirm, p.stats, |p.req.confirm|))
    case ReadPublished(_) =>
      if p.pc != Counted then p else p.(pc := Rendering, published := room.published)
    case RenderMedia(_) =>
      if p.pc != Rendering then p
      else if AnyBadMedia(p) then Dropped(p)
      else p.(pc := Judging, rendered := RenderedMedia(p))
    case Ask(_, name, answered) =>
      if p.pc != Judging then p
      else
        var answer := AnswerOf(room, name, answered);
        p.(asked := p.asked[name := answer], seen := if answer == Has then p.seen + {name} else p.seen)
    case JudgeMaster(_, name) =>
      if p.pc != Judging || name !in p.req.playlists || !name.Master? then p
      else
        var body := p.req.playlists[name].master;
        if !Sound(body) then Dropped(p)
        else if AllAvailable(p, body) then p.(rendered := p.rendered[name := MasterPlaylist(body)])
        else p
    case _ => p
  }

  function FenceMoved(s: State, room: Room): State {
    s.(room := room, accepted := [],
       runs := if room.fence.run.Some? then s.runs + {room.fence.run.value} else s.runs)
  }

  function CommitStep(s: State, id: nat, now: int): State
    requires id in s.publishes
  {
    var p := s.publishes[id];
    if p.req.timeline.Some? && !ValidTimeline(p.req.timeline.value) then With(s, id, Dropped(p))
    else
      var (room, outcome) := Committed(s.room, CommitOf(p), now);
      With(s, id, p.(pc := Answered, outcome := Some(outcome))).(
        room := room,
        runs := if room.fence.run.Some? then s.runs + {room.fence.run.value} else s.runs,
        accepted := if outcome.Ok? && p.req.run.Some? then s.accepted + [Accept(p.req.run.value, p.req.seqNo)]
                    else s.accepted)
  }

  ghost function Step(s: State, e: Event): State {
    match e
    case Arrive(id, req) => if id in s.publishes then s else With(s, id, Begun(req))
    case SendCommit(id, now) => if At(s, id, Judging) then CommitStep(s, id, now) else s
    case ClaimRoom(claim, now) =>
      if claim in s.claims then s
      else s.(room := Reserve(s.room, claim, now).0, claims := s.claims + {claim})
    case PromoteRoom(claim, now) =>
      if claim in s.claims then s
      else
        var (room, result) := Promote(s.room, claim, now);
        (if result.Promoted? then FenceMoved(s, room) else s).(claims := s.claims + {claim})
    case ReleaseRoom(claim) => if s.room.claim == Some(claim) then FenceMoved(s, Release(s.room, claim)) else s
    case SwapRoom(status, now) =>
      var room := Swap(s.room, status, now);
      if room.Some? then FenceMoved(s, room.value) else s
    case MoveFence(run) =>
      if run in s.runs then s
      else
        FenceMoved(s, WithRun(s.room, run)).(
          retired := if s.room.claim.Some? && s.room.fence.run.Some?
                     then s.retired + {(s.room.claim.value, s.room.fence.run.value)} else s.retired)
    case MoveOffset(offsetMs, now) => s.(room := SetOffset(s.room, offsetMs, now))
    case SetStatus(status) => s.(room := s.room.(status := status))
    case Upload(key) => s.(bucket := s.bucket + {key})
    case _ => if e.id in s.publishes then With(s, e.id, Advance(s.publishes[e.id], s.room, s.bucket, e)) else s
  }

  /** The state after the first `k` events. */
  ghost function After(start: State, events: seq<Event>, k: nat): State
    requires k <= |events|
  {
    if k == 0 then start else Step(After(start, events, k - 1), events[k - 1])
  }

  // ---------------------------------------------------------------- what always holds

  /** Every object a stored playlist names is confirmed, under the room's generation. */
  ghost predicate NamesConfirmed(room: Room) {
    forall name, key | name in room.playlists && room.playlists[name].MediaPlaylist?
                       && key in Named(room.playlists[name].lines) ::
      key.generation == room.generation && key.name in room.published
  }

  /** And everything confirmed is in the bucket, under that generation. */
  ghost predicate ConfirmedUploaded(room: Room, bucket: set<ObjectKey>) {
    forall name | name in room.published :: ObjectKey(room.generation, name) in bucket
  }

  /** Every playlist a stored master names is stored. */
  ghost predicate MastersClosed(room: Room) {
    forall name, ref | name in room.playlists && room.playlists[name].MasterPlaylist?
                       && RefersTo(room.playlists[name].body, ref) ::
      ref in room.playlists
  }

  /** Every listed region has its own master stored. */
  ghost predicate RegionsHeld(room: Room) {
    forall n | n in room.timeline.regions :: RegionMaster(n) in room.playlists
  }

  ghost predicate RoomOk(room: Room, bucket: set<ObjectKey>) {
    && NamesConfirmed(room) && ConfirmedUploaded(room, bucket) && MastersClosed(room) && RegionsHeld(room)
    && room.claim == room.claimKey && WellFenced(room.fence)
  }

  /** A publish makes nothing before its time. */
  ghost predicate Orderly(p: Publish) {
    && (p.pc == Arrived ==> p == Begun(p.req))
    && (p.pc != Judging && p.pc != Answered ==> p.rendered == map[])
    && (forall name | AnswerFor(p.asked, name) == Has :: name in p.seen)
  }

  /** What a publish has made by itself, whatever happened to the room. */
  ghost predicate OwnWorkOk(p: Publish, bucket: set<ObjectKey>) {
    && Orderly(p)
    && (forall name | name in p.confirmed :: ObjectKey(p.generation, name) in bucket)
    && (forall k | k in p.stats && p.stats[k] && k < |p.req.confirm| ::
          ObjectKey(p.generation, p.req.confirm[k]) in bucket)
    && (forall name, key | name in p.rendered && p.rendered[name].MediaPlaylist?
                           && key in Named(p.rendered[name].lines) ::
          key.generation == p.generation && key.name in KnownHere(p))
    && (forall name, ref | name in p.rendered && p.rendered[name].MasterPlaylist?
                           && RefersTo(p.rendered[name].body, ref) :: Available(p, ref))
  }

  /** What a publish learned of the room still holds while the generation it read is current. */
  ghost predicate Current(p: Publish, room: Room) {
    && p.generation <= room.generation
    && (p.generation == room.generation ==>
          && p.published <= room.published
          && p.seen <= room.playlists.Keys
          && (forall n | n in p.regions :: RegionMaster(n) in room.playlists))
  }

  ghost predicate PublishOk(p: Publish, room: Room, bucket: set<ObjectKey>) {
    OwnWorkOk(p, bucket) && Current(p, room)
  }

  ghost predicate Inv(s: State) {
    && RoomOk(s.room, s.bucket)
    && forall id | id in s.publishes :: PublishOk(s.publishes[id], s.room, s.bucket)
  }

  /** The room only grows within a generation, and never returns to one it left. */
  predicate Grew(before: Room, after: Room) {
    && before.generation <= after.generation
    && (before.generation == after.generation ==>
          before.published <= after.published && before.playlists.Keys <= after.playlists.Keys)
  }

  lemma StillCurrent(p: Publish, before: Room, after: Room)
    requires Current(p, before) && Grew(before, after)
    ensures Current(p, after)
  {
  }

  lemma StillOwn(p: Publish, before: set<ObjectKey>, after: set<ObjectKey>)
    requires OwnWorkOk(p, before) && before <= after
    ensures OwnWorkOk(p, after)
  {
  }

  lemma {:induction false} ConfirmedFromStats(p: Publish, n: nat, name: string, bucket: set<ObjectKey>)
    requires n <= |p.req.confirm| && OwnWorkOk(p, bucket)
    requires name in ConfirmedOf(p.req.confirm, p.stats, n)
    ensures ObjectKey(p.generation, name) in bucket
  {
    if n - 1 in p.stats && p.stats[n - 1] && p.req.confirm[n - 1] == name {
    } else {
      ConfirmedFromStats(p, n - 1, name, bucket);
    }
  }

  lemma RenderMediaOk(p: Publish, bucket: set<ObjectKey>)
    requires OwnWorkOk(p, bucket) && p.pc == Rendering
    ensures OwnWorkOk(p.(pc := Judging, rendered := RenderedMedia(p)), bucket)
  {
    var next := p.(pc := Judging, rendered := RenderedMedia(p));
    forall name, key | name in next.rendered && key in Named(next.rendered[name].lines)
      ensures key.generation == p.generation && key.name in KnownHere(next)
    {
      RenderedNamesConfirmed(p.generation, p.req.playlists[name].lines, KnownHere(p));
    }
  }

  lemma JudgeMasterOk(p: Publish, bucket: set<ObjectKey>, name: Name, body: MasterBody)
    requires OwnWorkOk(p, bucket) && p.pc == Judging && AllAvailable(p, body)
    ensures OwnWorkOk(p.(rendered := p.rendered[name := MasterPlaylist(body)]), bucket)
  {
    var next := p.(rendered := p.rendered[name := MasterPlaylist(body)]);
    forall n, ref | n in next.rendered && next.rendered[n].MasterPlaylist? && RefersTo(next.rendered[n].body, ref)
      ensures Available(next, ref)
    {
      assert Available(p, ref);
    }
  }

  lemma AskedOk(p: Publish, bucket: set<ObjectKey>, asked: map<Name, Answer>, seen: set<Name>)
    requires OwnWorkOk(p, bucket) && p.pc == Judging && p.seen <= seen
    requires forall name | AnswerFor(asked, name) == Has :: name in seen
    ensures OwnWorkOk(p.(asked := asked, seen := seen), bucket)
  {
    var next := p.(asked := asked, seen := seen);
    forall n, ref | n in next.rendered && next.rendered[n].MasterPlaylist? && RefersTo(next.rendered[n].body, ref)
      ensures Available(next, ref)
    {
      assert Available(p, ref);
    }
  }

  lemma AskedIsSeen(asked: map<Name, Answer>, seen: set<Name>, name: Name, answer: Answer)
    requires forall n | AnswerFor(asked, n) == Has :: n in seen
    ensures forall n | AnswerFor(asked[name := answer], n) == Has :: n in seen || (answer == Has && n == name)
  {
    forall n | AnswerFor(asked[name := answer], n) == Has
      ensures n in seen || (answer == Has && n == name)
    {
      assert n == name || AnswerFor(asked, n) == Has;
    }
  }

  lemma AskOk(p: Publish, room: Room, bucket: set<ObjectKey>, e: Event)
    requires PublishOk(p, room, bucket) && p.pc == Judging && e.Ask?
    ensures PublishOk(Advance(p, room, bucket, e), room, bucket)
  {
    var answer := AnswerOf(room, e.name, e.answered);
    AskedIsSeen(p.asked, p.seen, e.name, answer);
    AskedOk(p, bucket, p.asked[e.name := answer], if answer == Has then p.seen + {e.name} else p.seen);
  }

  lemma LoadOk(p: Publish, room: Room, bucket: set<ObjectKey>, e: Event)
    requires PublishOk(p, room, bucket) && p.pc == Arrived && RoomOk(room, bucket) && e.Load?
    ensures PublishOk(Advance(p, room, bucket, e), room, bucket)
  {
  }

  lemma GatherOk(p: Publish, room: Room, bucket: set<ObjectKey>, e: Event)
    requires PublishOk(p, room, bucket) && p.pc == Stating && e.Gather?
    ensures PublishOk(Advance(p, room, bucket, e), room, bucket)
  {
    var next := Advance(p, room, bucket, e);
    forall name | name in next.confirmed
      ensures ObjectKey(next.generation, name) in bucket
    {
      ConfirmedFromStats(p, |p.req.confirm|, name, bucket);
    }
  }

  lemma StatOk(p: Publish, room: Room, bucket: set<ObjectKey>, e: Event)
    requires PublishOk(p, room, bucket) && p.pc == Stating && e.Stat?
    ensures PublishOk(Advance(p, room, bucket, e), room, bucket)
  {
  }

  lemma ReadPublishedOk(p: Publish, room: Room, bucket: set<ObjectKey>, e: Event)
    requires PublishOk(p, room, bucket) && p.pc == Counted && e.ReadPublished?
    ensures PublishOk(Advance(p, room, bucket, e), room, bucket)
  {
  }

  /** Where a publish stands in its own steps says nothing of the room. */
  lemma MovedOnOk(p: Publish, room: Room, bucket: set<ObjectKey>, pc: Pc, outcome: Option<Outcome>)
    requires PublishOk(p, room, bucket) && p.pc != Arrived
    requires pc == Answered || (p.pc == Loaded && pc == Stating)
    ensures PublishOk(p.(pc := pc, outcome := outcome), room, bucket)
  {
    var next := p.(pc := pc, outcome := outcome);
    assert KnownHere(next) == KnownHere(p);
    forall n, ref | n in next.rendered && next.rendered[n].MasterPlaylist? && RefersTo(next.rendered[n].body, ref)
      ensures Available(next, ref)
    {
      assert Available(p, ref);
    }
  }

  lemma AuthorizeOk(p: Publish, room: Room, bucket: set<ObjectKey>, e: Event)
    requires PublishOk(p, room, bucket) && p.pc == Loaded && e.Authorize?
    ensures PublishOk(Advance(p, room, bucket, e), room, bucket)
  {
    var next := Advance(p, room, bucket, e);
    MovedOnOk(p, room, bucket, next.pc, next.outcome);
  }

  lemma RenderKeeps(p: Publish, room: Room, bucket: set<ObjectKey>, e: Event)
    requires PublishOk(p, room, bucket) && p.pc == Rendering && e.RenderMedia?
    ensures PublishOk(Advance(p, room, bucket, e), room, bucket)
  {
    if AnyBadMedia(p) {
      MovedOnOk(p, room, bucket, Answered, p.outcome);
    } else {
      RenderMediaOk(p, bucket);
    }
  }

  lemma JudgeKeeps(p: Publish, room: Room, bucket: set<ObjectKey>, e: Event)
    requires PublishOk(p, room, bucket) && p.pc == Judging && e.JudgeMaster?
    ensures PublishOk(Advance(p, room, bucket, e), room, bucket)
  {
    if e.name in p.req.playlists && e.name.Master? {
      var body := p.req.playlists[e.name].master;
      MovedOnOk(p, room, bucket, Answered, p.outcome);
      if AllAvailable(p, body) {
        JudgeMasterOk(p, bucket, e.name, body);
      }
    }
  }

  lemma AdvanceKeeps(p: Publish, room: Room, bucket: set<ObjectKey>, e: Event)
    requires PublishOk(p, room, bucket) && RoomOk(room, bucket)
    ensures PublishOk(Advance(p, room, bucket, e), room, bucket)
  {
    if e.Load? && p.pc == Arrived {
      LoadOk(p, room, bucket, e);
    } else if e.Authorize? && p.pc == Loaded {
      AuthorizeOk(p, room, bucket, e);
    } else if e.Stat? && p.pc == Stating {
      StatOk(p, room, bucket, e);
    } else if e.Gather? && p.pc == Stating {
      GatherOk(p, room, bucket, e);
    } else if e.ReadPublished? && p.pc == Counted {
      ReadPublishedOk(p, room, bucket, e);
    } else if e.RenderMedia? && p.pc == Rendering {
      RenderKeeps(p, room, bucket, e);
    } else if e.Ask? && p.pc == Judging {
      AskOk(p, room, bucket, e);
    } else if e.JudgeMaster? && p.pc == Judging {
      JudgeKeeps(p, room, bucket, e);
    } else {
      assert Advance(p, room, bucket, e) == p;
    }
  }

  // ------------------------------------------------------ an accepted publish

  lemma CommittedNames(p: Publish, room: Room, bucket: set<ObjectKey>, now: int)
    requires OwnWorkOk(p, bucket) && Current(p, room) && RoomOk(room, bucket) && p.generation == room.generation
    ensures NamesConfirmed(Applied(room, CommitOf(p), now))
    ensures ConfirmedUploaded(Applied(room, CommitOf(p), now), bucket)
  {
  }

  lemma CommittedMasters(p: Publish, room: Room, bucket: set<ObjectKey>, now: int)
    requires OwnWorkOk(p, bucket) && Current(p, room) && RoomOk(room, bucket) && p.generation == room.generation
    ensures MastersClosed(Applied(room, CommitOf(p), now))
  {
    var after := Applied(room, CommitOf(p), now);
    forall name, ref | name in after.playlists && after.playlists[name].MasterPlaylist?
                       && RefersTo(after.playlists[name].body, ref)
      ensures ref in after.playlists
    {
      if name in p.rendered {
        assert Available(p, ref);
      }
    }
  }

  lemma RegionsAfterHeld(p: Publish, sent: seq<Listed>, held: set<Name>)
    requires Orderly(p) && p.seen <= held && p.rendered.Keys <= held
    requires forall n | n in p.regions :: RegionMaster(n) in held
    ensures forall n | n in RegionsAfter(sent, p.rendered.Keys, p.asked, p.regions) :: RegionMaster(n) in held
  {
  }

  lemma CommittedRegions(p: Publish, room: Room, bucket: set<ObjectKey>, now: int)
    requires OwnWorkOk(p, bucket) && Current(p, room) && RoomOk(room, bucket) && p.generation == room.generation
    ensures RegionsHeld(Applied(room, CommitOf(p), now))
  {
    var after := Applied(room, CommitOf(p), now);
    if p.req.timeline.Some? && p.req.timeline.value.regions.Some? {
      RegionsAfterHeld(p, p.req.timeline.value.regions.value, after.playlists.Keys);
    }
  }

  lemma FencedWell(fence: Fence, c: Commit)
    requires WellFenced(fence) && c.run.Some?
    ensures WellFenced(Fenced(fence, c).0)
  {
  }

  lemma RefencedOk(room: Room, fence: Fence, bucket: set<ObjectKey>)
    requires RoomOk(room, bucket) && WellFenced(fence)
    ensures RoomOk(room.(fence := fence), bucket)
  {
  }

  lemma CommitOk(p: Publish, room: Room, bucket: set<ObjectKey>, now: int)
    requires OwnWorkOk(p, bucket) && Current(p, room) && RoomOk(room, bucket)
    ensures var after := Committed(room, CommitOf(p), now).0;
            RoomOk(after, bucket) && Grew(room, after)
  {
    var c := CommitOf(p);
    var fence := if c.run.None? then room.fence else Fenced(room.fence, c).0;
    if c.run.Some? { FencedWell(room.fence, c); }
    var fenced := room.(fence := fence);
    RefencedOk(room, fence, bucket);
    if p.generation == room.generation {
      assert Current(p, fenced);
      CommittedNames(p, fenced, bucket, now);
      CommittedMasters(p, fenced, bucket, now);
      CommittedRegions(p, fenced, bucket, now);
    }
  }

  // ------------------------------------------------------- everything else

  /** Only the claim, the fence, the status and the clock of the room may differ. */
  predicate SameMedia(before: Room, after: Room) {
    && before.generation == after.generation && before.playlists == after.playlists
    && before.published == after.published && before.timeline.regions == after.timeline.regions
  }

  ghost predicate Keeps(before: Room, after: Room, bucket: set<ObjectKey>) {
    RoomOk(after, bucket) && Grew(before, after)
  }

  lemma SameMediaOk(before: Room, after: Room, bucket: set<ObjectKey>)
    requires RoomOk(before, bucket) && SameMedia(before, after)
    requires after.claim == after.claimKey && WellFenced(after.fence)
    ensures Keeps(before, after, bucket)
  {
  }

  lemma ClaimOps(room: Room, bucket: set<ObjectKey>, claim: Token, now: int)
    requires RoomOk(room, bucket)
    ensures Keeps(room, Reserve(room, claim, now).0, bucket)
    ensures Keeps(room, Promote(room, claim, now).0, bucket)
    ensures Keeps(room, Release(room, claim), bucket)
    ensures Keeps(room, WithRun(room, claim), bucket)
  {
    SameMediaOk(room, Reserve(room, claim, now).0, bucket);
    SameMediaOk(room, Promote(room, claim, now).0, bucket);
    SameMediaOk(room, Release(room, claim), bucket);
    SameMediaOk(room, WithRun(room, claim), bucket);
  }

  lemma MediaOps(room: Room, bucket: set<ObjectKey>, offsetMs: int, status: Status, now: int)
    requires RoomOk(room, bucket)
    ensures Keeps(room, SetOffset(room, offsetMs, now), bucket)
    ensures Keeps(room, room.(status := status), bucket)
    ensures Swap(room, status, now).Some? ==> Keeps(room, Swap(room, status, now).value, bucket)
  {
    SameMediaOk(room, SetOffset(room, offsetMs, now), bucket);
    SameMediaOk(room, room.(status := status), bucket);
  }

  lemma UploadOk(room: Room, bucket: set<ObjectKey>, key: ObjectKey)
    requires RoomOk(room, bucket)
    ensures RoomOk(room, bucket + {key})
  {
  }

  predicate MovesClaim(e: Event) {
    e.ClaimRoom? || e.PromoteRoom? || e.ReleaseRoom? || e.MoveFence?
  }

  predicate MovesMedia(e: Event) {
    e.SwapRoom? || e.MoveOffset? || e.SetStatus?
  }

  lemma RoomAfterClaim(s: State, e: Event)
    requires RoomOk(s.room, s.bucket) && MovesClaim(e)
    ensures Keeps(s.room, Step(s, e).room, s.bucket)
  {
    SameMediaOk(s.room, s.room, s.bucket);
    match e
    case ClaimRoom(claim, now) => ClaimOps(s.room, s.bucket, claim, now);
    case PromoteRoom(claim, now) => ClaimOps(s.room, s.bucket, claim, now);
    case ReleaseRoom(claim) => ClaimOps(s.room, s.bucket, claim, 0);
    case MoveFence(run) => ClaimOps(s.room, s.bucket, run, 0);
  }

  lemma RoomAfterMedia(s: State, e: Event)
    requires RoomOk(s.room, s.bucket) && MovesMedia(e)
    ensures Keeps(s.room, Step(s, e).room, s.bucket)
  {
    SameMediaOk(s.room, s.room, s.bucket);
    match e
    case SwapRoom(status, now) => MediaOps(s.room, s.bucket, 0, status, now);
    case MoveOffset(offsetMs, now) => MediaOps(s.room, s.bucket, offsetMs, Empty, now);
    case SetStatus(status) => MediaOps(s.room, s.bucket, 0, status, 0);
  }

  /** No other event touches the room but the commit; and only an upload fills the bucket. */
  lemma RoomOtherwise(s: State, e: Event)
    ensures Step(s, e).bucket == if e.Upload? then s.bucket + {e.key} else s.bucket
    ensures !MovesClaim(e) && !MovesMedia(e) && !(e.SendCommit? && At(s, e.id, Judging)) ==> Step(s, e).room == s.room
    ensures e.SendCommit? && At(s, e.id, Judging) ==>
              (Step(s, e).room == s.room
               || Step(s, e).room == Committed(s.room, CommitOf(s.publishes[e.id]), e.now).0)
  {
  }

  lemma RoomStep(s: State, e: Event)
    requires Inv(s)
    ensures Keeps(s.room, Step(s, e).room, Step(s, e).bucket)
    ensures s.bucket <= Step(s, e).bucket
  {
    RoomOtherwise(s, e);
    SameMediaOk(s.room, s.room, s.bucket);
    if MovesClaim(e) {
      RoomAfterClaim(s, e);
    } else if MovesMedia(e) {
      RoomAfterMedia(s, e);
    } else if e.SendCommit? && At(s, e.id, Judging) {
      CommitOk(s.publishes[e.id], s.room, s.bucket, e.now);
    } else if e.Upload? {
      UploadOk(s.room, s.bucket, e.key);
    }
  }

  /** What one event makes of a publish: nothing, its arrival, its own next step or its answer. */
  lemma PublishAfter(s: State, e: Event, id: nat)
    requires id in Step(s, e).publishes
    ensures var next := Step(s, e).publishes[id];
            || (e.Arrive? && next == Begun(e.req))
            || (id in s.publishes
                && (next == s.publishes[id]
                    || next == Advance(s.publishes[id], s.room, s.bucket, e)
                    || (s.publishes[id].pc == Judging
                        && next == s.publishes[id].(pc := Answered, outcome := next.outcome))))
  {
  }

  lemma PublishStep(s: State, e: Event, id: nat)
    requires Inv(s) && id in Step(s, e).publishes
    ensures PublishOk(Step(s, e).publishes[id], s.room, s.bucket)
  {
    var next := Step(s, e).publishes[id];
    PublishAfter(s, e, id);
    if id in s.publishes {
      AdvanceKeeps(s.publishes[id], s.room, s.bucket, e);
      if s.publishes[id].pc == Judging {
        MovedOnOk(s.publishes[id], s.room, s.bucket, Answered, next.outcome);
      }
    }
  }

  lemma InvStep(s: State, e: Event)
    requires Inv(s)
    ensures Inv(Step(s, e))
  {
    var next := Step(s, e);
    RoomStep(s, e);
    forall id | id in next.publishes
      ensures PublishOk(next.publishes[id], next.room, next.bucket)
    {
      PublishStep(s, e, id);
      StillOwn(next.publishes[id], s.bucket, next.bucket);
      StillCurrent(next.publishes[id], s.room, next.room);
    }
  }

  lemma {:induction false} InvAlways(expires: int, events: seq<Event>, k: nat)
    requires k <= |events|
    ensures Inv(After(Init(expires), events, k))
  {
    if k > 0 {
      InvAlways(expires, events, k - 1);
      InvStep(After(Init(expires), events, k - 1), events[k - 1]);
    }
  }

  /**
   A viewer never gets a URL that is not there: whatever interleaves, each object a
   stored media playlist names is of the room's generation, confirmed and in the bucket.
   */
  lemma NoStoredPlaylistNamesAMissingObject(expires: int, events: seq<Event>, k: nat, name: Name, key: ObjectKey)
    requires k <= |events|
    requires var room := After(Init(expires), events, k).room;
             name in room.playlists && room.playlists[name].MediaPlaylist? && key in Named(room.playlists[name].lines)
    ensures var s := After(Init(expires), events, k);
            key.generation == s.room.generation && key.name in s.room.published && key in s.bucket
  {
    InvAlways(expires, events, k);
    assert key == ObjectKey(key.generation, key.name);
  }

  /** Nor a master whose playlists are not stored, nor a region with no master. */
  lemma NoStoredMasterNamesAMissingPlaylist(expires: int, events: seq<Event>, k: nat)
    requires k <= |events|
    ensures var room := After(Init(expires), events, k).room;
            MastersClosed(room) && RegionsHeld(room)
  {
    InvAlways(expires, events, k);
  }

  /** The claim a publish is checked against before its work is the one its commit is checked against. */
  lemma ClaimKeyAgrees(expires: int, events: seq<Event>, k: nat)
    requires k <= |events|
    ensures var room := After(Init(expires), events, k).room; room.claim == room.claimKey
  {
    InvAlways(expires, events, k);
  }

  // ------------------------------------------------------------------ the run fence

  /** The publishes accepted since the fence last moved: one run, in ascending order. */
  ghost predicate LogOk(fence: Fence, accepted: seq<Accept>) {
    && (forall i | 0 <= i < |accepted| :: fence.run == Some(accepted[i].run))
    && (forall i | 0 < i < |accepted| :: accepted[i - 1].seqNo < accepted[i].seqNo)
    && fence.lastSeq == if accepted == [] then None else Some(accepted[|accepted| - 1].seqNo)
  }

  /** A retired run is not the fenced one while its claim lasts, and claims and runs never come back. */
  ghost predicate RetiredOk(room: Room, claims: set<Token>, runs: set<Token>, retired: set<(Token, Token)>) {
    && (room.claim.Some? ==> room.claim.value in claims)
    && (room.fence.run.Some? ==> room.fence.run.value in runs)
    && (forall pair | pair in retired :: pair.0 in claims && pair.1 in runs)
    && (forall pair | pair in retired && room.claim == Some(pair.0) ::
          room.fence.run.Some? && room.fence.run.value != pair.1)
  }

  ghost predicate FenceInv(s: State) {
    LogOk(s.room.fence, s.accepted) && RetiredOk(s.room, s.claims, s.runs, s.retired)
  }

  lemma LogGrows(fence: Fence, accepted: seq<Accept>, c: Commit)
    requires LogOk(fence, accepted) && c.run.Some?
    ensures var (after, verdict) := Fenced(fence, c);
            LogOk(after, if verdict.Ok? then accepted + [Accept(c.run.value, c.seqNo)] else accepted)
  {
  }

  lemma RunStaysIn(room: Room, after: Room, claims: set<Token>, runs: set<Token>, retired: set<(Token, Token)>)
    requires RetiredOk(room, claims, runs, retired) && after.claim == room.claim
    requires room.fence.run.Some? ==> after.fence.run == room.fence.run
    ensures RetiredOk(after, claims, if after.fence.run.Some? then runs + {after.fence.run.value} else runs, retired)
  {
  }

  lemma CommitMovesFence(room: Room, c: Commit, now: int, accepted: seq<Accept>)
    requires LogOk(room.fence, accepted)
    ensures var (after, outcome) := Committed(room, c, now);
            && after.claim == room.claim
            && (room.fence.run.Some? ==> after.fence.run == room.fence.run)
            && LogOk(after.fence,
                     if outcome.Ok? && c.run.Some? then accepted + [Accept(c.run.value, c.seqNo)] else accepted)
  {
    if c.run.Some? {
      LogGrows(room.fence, accepted, c);
    }
  }

  lemma FenceAfterCommit(s: State, e: Event)
    requires FenceInv(s) && e.SendCommit? && At(s, e.id, Judging)
    ensures FenceInv(Step(s, e))
  {
    var p := s.publishes[e.id];
    if p.req.timeline.None? || ValidTimeline(p.req.timeline.value) {
      var c := CommitOf(p);
      CommitMovesFence(s.room, c, e.now, s.accepted);
      RunStaysIn(s.room, Committed(s.room, c, e.now).0, s.claims, s.runs, s.retired);
    }
  }

  /** A claim never held before starts with no run retired. */
  lemma NewClaimOk(room: Room, claims: set<Token>, runs: set<Token>, retired: set<(Token, Token)>, claim: Token)
    requires RetiredOk(room, claims, runs, retired) && claim !in claims
    ensures RetiredOk(room, claims + {claim}, runs, retired)
    ensures forall fence: Fence | fence.run == room.fence.run || fence.run.None? ::
              RetiredOk(room.(claim := Some(claim), fence := fence), claims + {claim}, runs, retired)
  {
  }

  /** What a claim or fence event leaves of the parts the fence is about. */
  lemma FenceAfterReserve(s: State, e: Event)
    requires FenceInv(s) && e.ClaimRoom?
    ensures FenceInv(Step(s, e))
  {
    if e.claim !in s.claims {
      NewClaimOk(s.room, s.claims, s.runs, s.retired, e.claim);
    }
  }

  lemma FenceAfterPromote(s: State, e: Event)
    requires FenceInv(s) && e.PromoteRoom?
    ensures FenceInv(Step(s, e))
  {
    if e.claim !in s.claims {
      NewClaimOk(s.room, s.claims, s.runs, s.retired, e.claim);
      assert RetiredOk(s.room.(claim := Some(e.claim), fence := UNSET), s.claims + {e.claim}, s.runs, s.retired);
    }
  }

  lemma FenceAfterRelease(s: State, e: Event)
    requires FenceInv(s) && e.ReleaseRoom?
    ensures FenceInv(Step(s, e))
  {
  }

  lemma FenceAfterSwap(s: State, e: Event)
    requires FenceInv(s) && e.SwapRoom?
    ensures FenceInv(Step(s, e))
  {
  }

  lemma FenceAfterMove(s: State, e: Event)
    requires FenceInv(s) && e.MoveFence?
    ensures FenceInv(Step(s, e))
  {
  }

  lemma FenceUntouched(s: State, e: Event)
    requires !MovesClaim(e) && !e.SwapRoom? && !(e.SendCommit? && At(s, e.id, Judging))
    ensures var next := Step(s, e);
            && next.room.fence == s.room.fence && next.room.claim == s.room.claim
            && next.accepted == s.accepted && next.claims == s.claims && next.runs == s.runs
            && next.retired == s.retired
  {
  }

  lemma FenceStep(s: State, e: Event)
    requires FenceInv(s)
    ensures FenceInv(Step(s, e))
  {
    if e.SendCommit? && At(s, e.id, Judging) {
      FenceAfterCommit(s, e);
    } else if e.ClaimRoom? {
      FenceAfterReserve(s, e);
    } else if e.PromoteRoom? {
      FenceAfterPromote(s, e);
    } else if e.ReleaseRoom? {
      FenceAfterRelease(s, e);
    } else if e.SwapRoom? {
      FenceAfterSwap(s, e);
    } else if e.MoveFence? {
      FenceAfterMove(s, e);
    } else {
      FenceUntouched(s, e);
    }
  }

  lemma {:induction false} FenceAlways(expires: int, events: seq<Event>, k: nat)
    requires k <= |events|
    ensures FenceInv(After(Init(expires), events, k))
  {
    if k > 0 {
      FenceAlways(expires, events, k - 1);
      FenceStep(After(Init(expires), events, k - 1), events[k - 1]);
    }
  }

  lemma {:induction false} LogAscends(fence: Fence, accepted: seq<Accept>, i: nat, j: nat)
    requires LogOk(fence, accepted) && i < j < |accepted|
    ensures accepted[i].seqNo < accepted[j].seqNo
  {
    if i < j - 1 {
      LogAscends(fence, accepted, i, j - 1);
    }
  }

  /** Between two moves of the fence, all accepted publishes with a run name one, in strictly rising sequence. */
  lemma AcceptedInOrder(expires: int, events: seq<Event>, k: nat, i: nat, j: nat)
    requires k <= |events| && i < j < |After(Init(expires), events, k).accepted|
    ensures var accepted := After(Init(expires), events, k).accepted;
            accepted[i].run == accepted[j].run && accepted[i].seqNo < accepted[j].seqNo
  {
    var s := After(Init(expires), events, k);
    FenceAlways(expires, events, k);
    LogAscends(s.room.fence, s.accepted, i, j);
  }

  lemma RetiredStays(s: State, e: Event)
    ensures s.retired <= Step(s, e).retired
  {
  }

  lemma {:induction false} RetiredGrows(start: State, events: seq<Event>, j: nat, k: nat)
    requires j <= k <= |events|
    ensures After(start, events, j).retired <= After(start, events, k).retired
  {
    if j < k {
      RetiredGrows(start, events, j, k - 1);
      RetiredStays(After(start, events, k - 1), events[k - 1]);
    }
  }

  /** Once the fence moves off a run, no publish of it under that claim is accepted again, or taken for a retry. */
  lemma ReplacedRunStaysOut(expires: int, events: seq<Event>, j: nat, k: nat, c: Commit, now: int)
    requires j < k <= |events| && events[j].MoveFence? && c.run.Some?
    requires var before := After(Init(expires), events, j);
             && events[j].run !in before.runs
             && before.room.claim == Some(c.claim) && before.room.fence.run == c.run
    ensures var outcome := Committed(After(Init(expires), events, k).room, c, now).1;
            !outcome.Ok? && !outcome.Replayed?
  {
    var start := Init(expires);
    var s := After(start, events, k);
    assert (c.claim, c.run.value) in After(start, events, j + 1).retired;
    RetiredGrows(start, events, j + 1, k);
    FenceAlways(expires, events, k);
    assert (c.claim, c.run.value) in s.retired;
  }

  // ------------------------------------------------------------- offset and version

  lemma TimelineAfterCommit(room: Room, p: Publish, now: int)
    ensures var before, after := room.timeline, Committed(room, CommitOf(p), now).0.timeline;
            && after.version == before.version + (if after.offsetMs != before.offsetMs then 1 else 0)
            && (after.offsetMs != before.offsetMs ==> ROOM_MASTER in CommitOf(p).playlists)
  {
  }

  /** Within a generation the version goes up by one exactly when the offset changes, whatever changes it. */
  lemma VersionCountsOffsetMoves(s: State, e: Event)
    requires Step(s, e).room.generation == s.room.generation
    ensures var before, after := s.room.timeline, Step(s, e).room.timeline;
            after.version == before.version + (if after.offsetMs != before.offsetMs then 1 else 0)
  {
    RoomOtherwise(s, e);
    if e.SendCommit? && At(s, e.id, Judging) {
      TimelineAfterCommit(s.room, s.publishes[e.id], e.now);
    }
  }

  /** A publish moves the offset only in the commit that stores the room's master with it. */
  lemma OffsetMovesWithTheMaster(s: State, e: Event)
    requires e.SendCommit? && Step(s, e).room.timeline.offsetMs != s.room.timeline.offsetMs
    ensures e.id in s.publishes && ROOM_MASTER in CommitOf(s.publishes[e.id]).playlists
    ensures var after := Step(s, e).room;
            && ROOM_MASTER in after.playlists
            && after.playlists[ROOM_MASTER] == CommitOf(s.publishes[e.id]).playlists[ROOM_MASTER]
            && after.timeline.version == s.room.timeline.version + 1
  {
    RoomOtherwise(s, e);
    TimelineAfterCommit(s.room, s.publishes[e.id], e.now);
  }

  // ------------------------------------------------------------------ local sources

  predicate LocalBySwap(room: Room) {
    room.localSource ==> room.generation > 0
  }

  lemma LocalBySwapStep(s: State, e: Event)
    requires LocalBySwap(s.room)
    ensures LocalBySwap(Step(s, e).room)
  {
    RoomOtherwise(s, e);
  }

  /** Only a swap makes a source local, so no local source is of the first generation. */
  lemma {:induction false} LocalNeedsASwap(expires: int, events: seq<Event>, k: nat)
    requires k <= |events|
    ensures LocalBySwap(After(Init(expires), events, k).room)
  {
    if k > 0 {
      LocalNeedsASwap(expires, events, k - 1);
      LocalBySwapStep(After(Init(expires), events, k - 1), events[k - 1]);
    }
  }
}
