/**
 Blocking playlist reload: a request that asks for a sequence number waits on the
 room's channel, and the publish that grows the playlist closes it
 (internal/httpapi/playlistwait.go, media.go:145-177, clientmedia.go:397-430).
 Taking the channel, reading the store, committing, withdrawing the channel and
 closing it are separate steps, and any number of requests and publishes run at once.
 */
module BlockingReload {
  import opened Wrappers

  // --------------------------------------------------- how far a playlist reaches

  datatype PlaylistLine = MediaSequence(n: int) | Inf | EndList | Other

  type Body = seq<PlaylistLine>

  /** The number of the first segment, by the last tag that says so. */
  function FirstSequence(body: Body, k: nat): int
    requires k <= |body|
  {
    if k == 0 then 0 else if body[k - 1].MediaSequence? then body[k - 1].n else FirstSequence(body, k - 1)
  }

  function SegmentCount(body: Body, k: nat): nat
    requires k <= |body|
  {
    if k == 0 then 0 else SegmentCount(body, k - 1) + (if body[k - 1].Inf? then 1 else 0)
  }

  function LastSequence(body: Body): int {
    FirstSequence(body, |body|) + SegmentCount(body, |body|) - 1
  }

  method PlaylistReach(body: Body) returns (lastSequence: int, ended: bool)
    ensures lastSequence == LastSequence(body) && (ended <==> EndList in body)
  {
    var first, segments := 0, 0;
    ended := false;
    for k := 0 to |body|
      invariant first == FirstSequence(body, k) && segments == SegmentCount(body, k)
      invariant ended <==> EndList in body[..k]
    {
      match body[k] {
        case MediaSequence(n) => first := n;
        case Inf => segments := segments + 1;
        case EndList => ended := true;
        case Other =>
      }
    }
    lastSequence := first + segments - 1;
    assert body[..|body|] == body;
  }

  /** What a request waits for: the segment it asked for, or the end of the stream. */
  predicate Reaches(body: Body, wanted: int) {
    EndList in body || wanted <= LastSequence(body)
  }

  /** The number the playlist says its first segment has: that of the last tag to say so, or 0. */
  ghost predicate StartsAt(body: Body, first: int) {
    || (first == 0 && forall k | 0 <= k < |body| :: !body[k].MediaSequence?)
    || (exists k | 0 <= k < |body| ::
          body[k] == MediaSequence(first) && forall j | k < j < |body| :: !body[j].MediaSequence?)
  }

  function SegmentsOf(body: Body, n: nat): set<nat>
    requires n <= |body|
  {
    set k | 0 <= k < n && body[k].Inf?
  }

  lemma {:induction false} FirstIsSaidLast(body: Body, n: nat)
    requires n <= |body|
    ensures || (FirstSequence(body, n) == 0 && forall k | 0 <= k < n :: !body[k].MediaSequence?)
            || (exists k | 0 <= k < n ::
                  body[k] == MediaSequence(FirstSequence(body, n)) && forall j | k < j < n :: !body[j].MediaSequence?)
  {
    if n > 0 {
      FirstIsSaidLast(body, n - 1);
      if body[n - 1].MediaSequence? {
        assert body[n - 1] == MediaSequence(FirstSequence(body, n));
      }
    }
  }

  lemma {:induction false} CountsTheSegments(body: Body, n: nat)
    requires n <= |body|
    ensures SegmentCount(body, n) == |SegmentsOf(body, n)|
  {
    if n > 0 {
      CountsTheSegments(body, n - 1);
      assert SegmentsOf(body, n) == SegmentsOf(body, n - 1) + if body[n - 1].Inf? then {n - 1} else {};
    }
  }

  /** The reach is the number of the first segment and how many there are; only one first number fits. */
  lemma ReachIsFirstAndCount(body: Body, first: int)
    requires StartsAt(body, first)
    ensures LastSequence(body) == first + |set k | 0 <= k < |body| && body[k].Inf?| - 1
  {
    FirstIsSaidLast(body, |body|);
    CountsTheSegments(body, |body|);
    assert SegmentsOf(body, |body|) == set k | 0 <= k < |body| && body[k].Inf?;
  }

  /** So a playlist serves a request exactly when it has ended or lists that segment. */
  lemma ServesWhatItLists(body: Body, first: int, wanted: int)
    requires StartsAt(body, first)
    ensures Reaches(body, wanted) <==>
            EndList in body || wanted < first + |set k | 0 <= k < |body| && body[k].Inf?|
  {
    ReachIsFirstAndCount(body, first);
  }

  lemma EveryPlaylistStarts(body: Body)
    ensures StartsAt(body, FirstSequence(body, |body|))
  {
    FirstIsSaidLast(body, |body|);
  }

  lemma {:induction false} FirstSequenceStays(body: Body, more: Body, k: nat)
    requires |body| <= k <= |body + more| && forall line | line in more :: !line.MediaSequence?
    ensures FirstSequence(body + more, k) == FirstSequence(body, |body|)
    decreases k
  {
    if k > |body| {
      assert (body + more)[k - 1] == more[k - 1 - |body|];
      FirstSequenceStays(body, more, k - 1);
    } else {
      FirstSequenceOf(body, more, k);
    }
  }

  lemma {:induction false} FirstSequenceOf(body: Body, more: Body, k: nat)
    requires k <= |body|
    ensures FirstSequence(body + more, k) == FirstSequence(body, k)
  {
    if k > 0 {
      FirstSequenceOf(body, more, k - 1);
    }
  }

  lemma {:induction false} SegmentCountSplits(body: Body, more: Body, k: nat)
    requires k <= |body + more|
    ensures SegmentCount(body + more, k) ==
            if k <= |body| then SegmentCount(body, k) else SegmentCount(body, |body|) + SegmentCount(more, k - |body|)
  {
    if k > 0 {
      SegmentCountSplits(body, more, k - 1);
    }
  }

  /** A playlist that only had lines appended reaches further by exactly the segments among them. */
  lemma AppendingReachesFurther(body: Body, more: Body)
    requires forall line | line in more :: !line.MediaSequence?
    ensures LastSequence(body + more) == LastSequence(body) + SegmentCount(more, |more|)
    ensures forall wanted | Reaches(body, wanted) :: Reaches(body + more, wanted)
  {
    FirstSequenceStays(body, more, |body + more|);
    SegmentCountSplits(body, more, |body + more|);
  }

  // ------------------------------------------------------------- one request's loop

  /** What came of a wait: the deadline or the client's leaving ended it, or a publish did and this was read. */
  datatype Wait = GaveUp | Woken(next: Option<Body>)

  function BodyAt(first: Body, waits: seq<Wait>, k: nat): Body
    requires k <= |waits|
  {
    if k > 0 && waits[k - 1].Woken? && waits[k - 1].next.Some? then waits[k - 1].next.value else first
  }

  /** The loop of servePlaylist: it answers with the first body that reaches far enough, or the last it had. */
  method Serve(first: Body, wanted: int, waits: seq<Wait>) returns (body: Body, n: nat)
    ensures n <= |waits| && body == BodyAt(first, waits, n)
    ensures forall k | 0 <= k < n ::
              waits[k].Woken? && waits[k].next.Some? && !Reaches(BodyAt(first, waits, k), wanted)
    ensures Reaches(body, wanted) || n == |waits| || waits[n] == GaveUp || waits[n] == Woken(None)
  {
    body, n := first, 0;
    while n < |waits|
      invariant n <= |waits| && body == BodyAt(first, waits, n)
      invariant forall k | 0 <= k < n ::
                  waits[k].Woken? && waits[k].next.Some? && !Reaches(BodyAt(first, waits, k), wanted)
    {
      var reach, ended := PlaylistReach(body);
      if ended || wanted <= reach || waits[n].GaveUp? || waits[n].next.None? {
        return;
      }
      body := waits[n].next.value;
      n := n + 1;
    }
  }

  // ------------------------------------------------------------------ the waiter

  class Channel {
    var closed: bool
    constructor ()
      ensures !closed
    {
      closed := false;
    }
  }

  /** playlistWaiter: one open channel for each room somebody waits on. */
  class PlaylistWaiter {
    var rooms: map<string, Channel>

    ghost predicate Valid()
      reads this, rooms.Values
    {
      && (forall room | room in rooms :: !rooms[room].closed)
      && (forall a, b | a in rooms && b in rooms && a != b :: rooms[a] != rooms[b])
    }

    constructor ()
      ensures Valid() && rooms == map[]
    {
      rooms := map[];
    }

    method ChannelFor(room: string) returns (ch: Channel)
      requires Valid()
      modifies this`rooms
      ensures Valid() && rooms == old(rooms)[room := ch]
      ensures if room in old(rooms) then ch == old(rooms)[room] else fresh(ch)
    {
      if room in rooms {
        return rooms[room];
      }
      ch := new Channel();
      rooms := rooms[room := ch];
    }

    /** Everyone waiting on this room wakes, nobody else does, and whoever asks next waits on a new channel. */
    method Notify(room: string)
      requires Valid()
      modifies this`rooms, if room in rooms then {rooms[room]} else {}
      ensures Valid() && rooms == old(rooms) - {room}
      ensures room in old(rooms) ==> old(rooms)[room].closed
    {
      if room in rooms {
        var ch := rooms[room];
        rooms := rooms - {room};
        ch.closed := true;
      }
    }
  }

  // ----------------------------------------------------------------- the machine

  datatype Metadata = Metadata(trackTitlesValid: seq<bool>, chapters: nat)

  const MAX_TRACKS := 32
  const MAX_CHAPTERS := 512

  /** What storeClientMetadata accepts; anything else answers the publish before it notifies. */
  predicate ValidMetadata(m: Metadata) {
    && |m.trackTitlesValid| <= MAX_TRACKS && m.chapters <= MAX_CHAPTERS
    && forall valid | valid in m.trackTitlesValid :: valid
  }

  method StoreClientMetadata(m: Metadata) returns (ok: bool)
    ensures ok <==> ValidMetadata(m)
  {
    if |m.trackTitlesValid| > MAX_TRACKS || m.chapters > MAX_CHAPTERS {
      return false;
    }
    for i := 0 to |m.trackTitlesValid|
      invariant forall j | 0 <= j < i :: m.trackTitlesValid[j]
    {
      if !m.trackTitlesValid[i] {
        assert m.trackTitlesValid[i] in m.trackTitlesValid;
        return false;
      }
    }
    return true;
  }

  /** An accepted publish, as far as a waiting request is concerned. */
  datatype Post = Post(playlists: map<string, Body>, metadata: Metadata)

  datatype PublisherPc =
    | Committed                // the playlists are stored
    | Notifying                // the metadata is stored too
    | Closing(ch: Option<nat>) // the channel is out of the map
    | Finished

  datatype Publisher = Publisher(post: Post, pc: PublisherPc)

  datatype ReaderPc = Reading | Waiting | Retaking | Answered

  datatype Reader = Reader(name: string, wanted: Option<nat>, pc: ReaderPc, ch: nat, read: Option<Body>)

  /** Channels are numbered as they are made. */
  datatype State = State(
    stored: map<string, Body>, channel: Option<nat>, made: nat, closed: set<nat>,
    readers: map<nat, Reader>, publishers: map<nat, Publisher>)

  const START := State(map[], None, 0, {}, map[], map[])

  datatype Event =
    | Request(id: nat, name: string, wanted: Option<nat>)
    | Read(id: nat)
    | Wake(id: nat)
    | Retake(id: nat)
    | GiveUp(id: nat)
    | Commit(id: nat, post: Post)
    | Settle(id: nat)
    | Withdraw(id: nat)
    | Close(id: nat)
    | Swap

  predicate ReaderAt(s: State, id: nat, pc: ReaderPc) {
    id in s.readers && s.readers[id].pc == pc
  }

  /** The room's channel, made if there is none. */
  function Taken(s: State): State {
    if s.channel.Some? then s else s.(channel := Some(s.made), made := s.made + 1)
  }

  function WithReader(s: State, id: nat, r: Reader): State {
    s.(readers := s.readers[id := r])
  }

  function WithPublisher(s: State, id: nat, p: Publisher): State {
    s.(publishers := s.publishers[id := p])
  }

  /** After a read: a body that is missing ends the request, as does one that reaches far enough. */
  function AfterRead(r: Reader, stored: map<string, Body>): Reader {
    if r.name !in stored then r.(pc := Answered)
    else
      var body := stored[r.name];
      r.(read := Some(body), pc := if r.wanted.None? || Reaches(body, r.wanted.value) then Answered else Waiting)
  }

  /** An accepted publish goes on to notify only past its metadata, and only with playlists. */
  function AfterSettle(p: Publisher): Publisher {
    p.(pc := if ValidMetadata(p.post.metadata) && p.post.playlists != map[] then Notifying else Finished)
  }

  function Step(s: State, e: Event): State {
    match e
    case Request(id, name, wanted) =>
      if id in s.readers then s
      else WithReader(Taken(s), id, Reader(name, wanted, Reading, Taken(s).channel.value, None))
    case Read(id) =>
      if !ReaderAt(s, id, Reading) then s else WithReader(s, id, AfterRead(s.readers[id], s.stored))
    case Wake(id) =>
      if !ReaderAt(s, id, Waiting) || s.readers[id].ch !in s.closed then s
      else WithReader(s, id, s.readers[id].(pc := Retaking))
    case Retake(id) =>
      if !ReaderAt(s, id, Retaking) then s
      else WithReader(Taken(s), id, s.readers[id].(pc := Reading, ch := Taken(s).channel.value))
    case GiveUp(id) =>
      if !ReaderAt(s, id, Waiting) then s else WithReader(s, id, s.readers[id].(pc := Answered))
    case Commit(id, post) =>
      if id in s.publishers then s
      else WithPublisher(s, id, Publisher(post, Committed)).(stored := s.stored + post.playlists)
    case Settle(id) =>
      if id !in s.publishers || s.publishers[id].pc != Committed then s
      else WithPublisher(s, id, AfterSettle(s.publishers[id]))
    case Withdraw(id) =>
      if id !in s.publishers || s.publishers[id].pc != Notifying then s
      else WithPublisher(s, id, s.publishers[id].(pc := Closing(s.channel))).(channel := None)
    case Close(id) =>
      if id !in s.publishers || !s.publishers[id].pc.Closing? then s
      else
        var ch := s.publishers[id].pc.ch;
        WithPublisher(s, id, s.publishers[id].(pc := Finished)).(
          closed := if ch.Some? then s.closed + {ch.value} else s.closed)
    case Swap => s.(stored := map[])
  }

  function After(events: seq<Event>, k: nat): State
    requires k <= |events|
  {
    if k == 0 then START else Step(After(events, k - 1), events[k - 1])
  }

  // ---------------------------------------------------------- no wakeup is lost

  predicate Serves(body: Body) {
    Reaches(body, 0)
  }

  /** A publish whose readers get told: its metadata is in order, or it serves no one waiting. */
  predicate Announces(post: Post) {
    ValidMetadata(post.metadata) || forall name | name in post.playlists :: !Serves(post.playlists[name])
  }

  /** A publisher that will yet notify. */
  predicate Owes(p: Publisher) {
    p.pc == Notifying || (p.pc == Committed && AfterSettle(p).pc == Notifying)
  }

  ghost predicate SomeoneOwes(s: State) {
    exists id :: id in s.publishers && Owes(s.publishers[id])
  }

  ghost predicate SomeoneCloses(s: State, ch: nat) {
    exists id :: id in s.publishers && s.publishers[id].pc == Closing(Some(ch))
  }

  /** Nothing newer is stored for this reader; or, leniently, nothing that would serve it. */
  predicate Informed(s: State, r: Reader, lenient: bool) {
    || r.name !in s.stored || r.read == Some(s.stored[r.name])
    || (lenient && r.wanted.Some? && !Reaches(s.stored[r.name], r.wanted.value))
  }

  ghost predicate ChannelOk(s: State, ch: nat) {
    ch < s.made && (ch in s.closed || s.channel == Some(ch) || SomeoneCloses(s, ch))
  }

  ghost predicate ReaderOk(s: State, r: Reader, lenient: bool) {
    && ChannelOk(s, r.ch)
    && (r.pc == Waiting ==> r.wanted.Some?)
    && (r.pc == Waiting ==>
          || r.ch in s.closed || SomeoneCloses(s, r.ch)
          || Informed(s, r, lenient) || SomeoneOwes(s))
  }

  /** A channel about to be closed is nobody's to take any more. */
  predicate ClosingOk(s: State, p: Publisher) {
    p.pc.Closing? && p.pc.ch.Some? ==> p.pc.ch.value < s.made && s.channel != p.pc.ch
  }

  ghost predicate ChannelInv(s: State) {
    && (s.channel.Some? ==> s.channel.value < s.made && s.channel.value !in s.closed)
    && (forall ch | ch in s.closed :: ch < s.made)
    && (forall id | id in s.publishers :: ClosingOk(s, s.publishers[id]))
  }

  ghost predicate Inv(s: State, lenient: bool) {
    && ChannelInv(s)
    && (forall id | id in s.readers :: ReaderOk(s, s.readers[id], lenient))
  }

  /** Whether a commit may be made when every stale reader must be told, or every servable one. */
  predicate Fair(e: Event, lenient: bool) {
    e.Commit? ==>
      if lenient then Announces(e.post) else ValidMetadata(e.post.metadata) || e.post.playlists == map[]
  }

  /** An open channel the reader waits on, a playlist that would serve it, and nobody about to close the one. */
  ghost predicate Stranded(s: State, id: nat) {
    && ReaderAt(s, id, Waiting) && s.readers[id].ch !in s.closed
    && s.readers[id].wanted.Some? && s.readers[id].name in s.stored
    && Reaches(s.stored[s.readers[id].name], s.readers[id].wanted.value)
    && !SomeoneOwes(s) && !SomeoneCloses(s, s.readers[id].ch)
  }

  /** What one event may do to the channels, whoever waits on them. */
  ghost predicate ChannelsKept(s: State, t: State) {
    && s.made <= t.made && s.closed <= t.closed
    && (forall ch | ChannelOk(s, ch) :: ChannelOk(t, ch))
    && (forall ch | SomeoneCloses(s, ch) :: SomeoneCloses(t, ch) || ch in t.closed)
  }

  /** Debts of a notification are kept until the channel is out of the map. */
  ghost predicate DebtsKept(s: State, t: State) {
    SomeoneOwes(s) ==> SomeoneOwes(t) || forall ch | s.channel == Some(ch) :: SomeoneCloses(t, ch)
  }

  lemma PublisherMoves(s: State, id: nat, p: Publisher)
    requires id in s.publishers ==> (Owes(s.publishers[id]) ==> Owes(p)) && !s.publishers[id].pc.Closing?
    ensures var t := WithPublisher(s, id, p);
            && (forall ch | SomeoneCloses(s, ch) :: SomeoneCloses(t, ch))
            && (SomeoneOwes(s) ==> SomeoneOwes(t))
            && (Owes(p) ==> SomeoneOwes(t))
  {
    var t := WithPublisher(s, id, p);
    forall ch | SomeoneCloses(s, ch)
      ensures SomeoneCloses(t, ch)
    {
      var other :| other in s.publishers && s.publishers[other].pc == Closing(Some(ch));
      assert t.publishers[other] == s.publishers[other];
    }
    if SomeoneOwes(s) {
      var other :| other in s.publishers && Owes(s.publishers[other]);
      assert other in t.publishers && Owes(t.publishers[other]);
    }
    if Owes(p) {
      assert t.publishers[id] == p;
    }
  }

  lemma AfterWithdraw(s: State, id: nat)
    requires id in s.publishers && s.publishers[id].pc == Notifying
    ensures var t := Step(s, Withdraw(id));
            ChannelsKept(s, t) && (forall ch | s.channel == Some(ch) :: SomeoneCloses(t, ch))
  {
    var t := Step(s, Withdraw(id));
    assert t.publishers[id].pc == Closing(s.channel);
    forall ch | SomeoneCloses(s, ch)
      ensures SomeoneCloses(t, ch)
    {
      var other :| other in s.publishers && s.publishers[other].pc == Closing(Some(ch));
      assert t.publishers[other] == s.publishers[other];
    }
  }

  lemma AfterClose(s: State, id: nat)
    requires id in s.publishers && s.publishers[id].pc.Closing?
    ensures var t := Step(s, Close(id));
            ChannelsKept(s, t) && (SomeoneOwes(s) ==> SomeoneOwes(t))
  {
    var t := Step(s, Close(id));
    forall ch | SomeoneCloses(s, ch)
      ensures SomeoneCloses(t, ch) || ch in t.closed
    {
      var other :| other in s.publishers && s.publishers[other].pc == Closing(Some(ch));
      assert other != id ==> t.publishers[other] == s.publishers[other];
    }
    if SomeoneOwes(s) {
      var other :| other in s.publishers && Owes(s.publishers[other]);
      assert other in t.publishers && Owes(t.publishers[other]);
    }
  }

  lemma AfterCommit(s: State, id: nat, post: Post)
    requires id !in s.publishers
    ensures var t := Step(s, Commit(id, post));
            && ChannelsKept(s, t) && (SomeoneOwes(s) ==> SomeoneOwes(t))
            && (ValidMetadata(post.metadata) && post.playlists != map[] ==> SomeoneOwes(t))
  {
    PublisherMoves(s, id, Publisher(post, Committed));
    assert Step(s, Commit(id, post)).publishers == WithPublisher(s, id, Publisher(post, Committed)).publishers;
  }

  lemma ChannelsStep(s: State, e: Event)
    ensures ChannelsKept(s, Step(s, e)) && DebtsKept(s, Step(s, e))
  {
    match e
    case Commit(id, post) => if id !in s.publishers { AfterCommit(s, id, post); }
    case Settle(id) =>
      if id in s.publishers && s.publishers[id].pc == Committed {
        PublisherMoves(s, id, AfterSettle(s.publishers[id]));
      }
    case Withdraw(id) => if id in s.publishers && s.publishers[id].pc == Notifying { AfterWithdraw(s, id); }
    case Close(id) => if id in s.publishers && s.publishers[id].pc.Closing? { AfterClose(s, id); }
    case _ =>
  }

  /** A reader that was all right still is, if the store tells it no more than it knows. */
  lemma ReaderStays(s: State, t: State, r: Reader, lenient: bool)
    requires ReaderOk(s, r, lenient) && ChannelsKept(s, t) && DebtsKept(s, t)
    requires r.pc == Waiting && Informed(s, r, lenient) ==> Informed(t, r, lenient) || SomeoneOwes(t)
    ensures ReaderOk(t, r, lenient)
  {
  }

  lemma InformedAfter(s: State, e: Event, r: Reader, lenient: bool)
    requires Fair(e, lenient) && r.wanted.Some? && Informed(s, r, lenient)
    ensures Informed(Step(s, e), r, lenient) || SomeoneOwes(Step(s, e))
  {
    if e.Commit? && e.id !in s.publishers {
      AfterCommit(s, e.id, e.post);
    }
  }

  lemma ReaderStep(s: State, e: Event, id: nat, lenient: bool)
    requires Inv(s, lenient) && id in Step(s, e).readers && Fair(e, lenient)
    ensures ReaderOk(Step(s, e), Step(s, e).readers[id], lenient)
  {
    var t := Step(s, e);
    if id in s.readers && t.readers[id] == s.readers[id] {
      var r := s.readers[id];
      ChannelsStep(s, e);
      if r.pc == Waiting && Informed(s, r, lenient) {
        InformedAfter(s, e, r, lenient);
      }
      ReaderStays(s, t, r, lenient);
    } else {
      ReaderMoves(s, e, id, lenient);
    }
  }

  lemma ReaderMoves(s: State, e: Event, id: nat, lenient: bool)
    requires Inv(s, lenient) && id in Step(s, e).readers
    requires id !in s.readers || Step(s, e).readers[id] != s.readers[id]
    ensures ReaderOk(Step(s, e), Step(s, e).readers[id], lenient)
  {
  }

  lemma ChannelInvStep(s: State, e: Event)
    requires ChannelInv(s)
    ensures ChannelInv(Step(s, e))
  {
  }

  lemma InvStep(s: State, e: Event, lenient: bool)
    requires Inv(s, lenient) && Fair(e, lenient)
    ensures Inv(Step(s, e), lenient)
  {
    ChannelInvStep(s, e);
    forall id | id in Step(s, e).readers
      ensures ReaderOk(Step(s, e), Step(s, e).readers[id], lenient)
    {
      ReaderStep(s, e, id, lenient);
    }
  }

  lemma {:induction false} InvAlways(events: seq<Event>, k: nat, lenient: bool)
    requires k <= |events| && forall j | 0 <= j < k :: Fair(events[j], lenient)
    ensures Inv(After(events, k), lenient)
  {
    if k > 0 {
      InvAlways(events, k - 1, lenient);
      InvStep(After(events, k - 1), events[k - 1], lenient);
    }
  }

  /**
   No lost wakeup: while every publish announces itself, no reader sleeps on an open
   channel over a playlist that would serve it with nobody left to close the channel.
   */
  lemma NoLostWakeup(events: seq<Event>, k: nat, id: nat)
    requires k <= |events| && forall j | 0 <= j < k && events[j].Commit? :: Announces(events[j].post)
    ensures !Stranded(After(events, k), id)
  {
    InvAlways(events, k, true);
    var s := After(events, k);
    if id in s.readers && s.readers[id].pc == Waiting {
      WaitingIsUnserved(events, k, id);
    }
  }

  predicate Unserved(r: Reader) {
    r.wanted.Some? && r.read.Some? && !Reaches(r.read.value, r.wanted.value)
  }

  lemma UnservedStep(s: State, e: Event, id: nat)
    requires ReaderAt(Step(s, e), id, Waiting)
    ensures || Unserved(Step(s, e).readers[id])
            || (ReaderAt(s, id, Waiting) && Step(s, e).readers[id] == s.readers[id])
  {
  }

  /** A reader keeps waiting only over what it could not be served with. */
  lemma {:induction false} WaitingIsUnserved(events: seq<Event>, k: nat, id: nat)
    requires k <= |events| && ReaderAt(After(events, k), id, Waiting)
    ensures Unserved(After(events, k).readers[id])
  {
    UnservedStep(After(events, k - 1), events[k - 1], id);
    if !Unserved(After(events, k).readers[id]) {
      WaitingIsUnserved(events, k - 1, id);
    }
  }

  /** With all metadata in order, a sleeping reader has read the newest playlist or is about to be woken. */
  lemma SleepersHaveReadTheNewest(events: seq<Event>, k: nat, id: nat)
    requires k <= |events| && forall j | 0 <= j < k && events[j].Commit? :: ValidMetadata(events[j].post.metadata)
    requires var s := After(events, k); ReaderAt(s, id, Waiting) && s.readers[id].ch !in s.closed
    ensures var s := After(events, k); var r := s.readers[id];
            || r.name !in s.stored || r.read == Some(s.stored[r.name])
            || SomeoneOwes(s) || SomeoneCloses(s, r.ch)
  {
    InvAlways(events, k, false);
  }

  /** The steps a publisher has left, taken one after another. */
  function Finishing(s: State, id: nat): State {
    Step(Step(Step(s, Settle(id)), Withdraw(id)), Close(id))
  }

  lemma FinishingCloses(s: State, id: nat, ch: nat)
    requires id in s.publishers
    requires s.publishers[id].pc == Closing(Some(ch)) || (Owes(s.publishers[id]) && s.channel == Some(ch))
    ensures ch in Finishing(s, id).closed
  {
    if Owes(s.publishers[id]) {
      var settled := Step(s, Settle(id));
      assert settled.publishers[id].pc == Notifying && settled.channel == s.channel;
      assert Step(settled, Withdraw(id)).publishers[id].pc == Closing(Some(ch));
    } else {
      assert Step(Step(s, Settle(id)), Withdraw(id)) == s;
    }
  }

  /** Whoever still has to close the channel does so by its own next steps, and the reader can wake. */
  lemma NotifierWakes(events: seq<Event>, k: nat, id: nat) returns (waker: nat)
    requires k <= |events| && id in After(events, k).readers
    requires forall j | 0 <= j < k && events[j].Commit? :: Announces(events[j].post)
    requires var s := After(events, k);
             s.readers[id].ch !in s.closed && (SomeoneOwes(s) || SomeoneCloses(s, s.readers[id].ch))
    ensures After(events, k).readers[id].ch in Finishing(After(events, k), waker).closed
  {
    var s := After(events, k);
    var ch := s.readers[id].ch;
    InvAlways(events, k, true);
    assert ReaderOk(s, s.readers[id], true);
    if SomeoneCloses(s, ch) {
      waker :| waker in s.publishers && s.publishers[waker].pc == Closing(Some(ch));
    } else {
      waker :| waker in s.publishers && Owes(s.publishers[waker]);
    }
    FinishingCloses(s, waker, ch);
  }

  /** What a request is answered by: nothing it asked for, or a stored playlist that ended or lists its segment. */
  ghost predicate IsServed(r: Reader, body: Body) {
    || r.wanted.None? || EndList in body
    || forall first | StartsAt(body, first) :: r.wanted.value < first + |set k | 0 <= k < |body| && body[k].Inf?|
  }

  /** A read ends a request exactly when the playlist is gone or serves it; otherwise it waits on what it read. */
  lemma ReadAnswersExactly(s: State, id: nat)
    requires ReaderAt(s, id, Reading)
    ensures var r, t := s.readers[id], Step(s, Read(id));
            && (ReaderAt(t, id, Answered) <==> r.name !in s.stored || IsServed(r, s.stored[r.name]))
            && (r.name in s.stored ==> t.readers[id].read == Some(s.stored[r.name]))
            && (ReaderAt(t, id, Waiting) || ReaderAt(t, id, Answered)) && t.readers[id].ch == r.ch
  {
    var r := s.readers[id];
    if r.name in s.stored && r.wanted.Some? {
      var body := s.stored[r.name];
      EveryPlaylistStarts(body);
      forall first | StartsAt(body, first)
        ensures Reaches(body, r.wanted.value) <==>
                EndList in body || r.wanted.value < first + |set k | 0 <= k < |body| && body[k].Inf?|
      {
        ServesWhatItLists(body, first, r.wanted.value);
      }
    }
  }

  /** A reader whose channel was closed wakes, takes the next channel and reads what is stored now. */
  lemma WokenReadsAgain(s: State, id: nat)
    requires ReaderAt(s, id, Waiting) && s.readers[id].ch in s.closed
    ensures var t := Step(Step(s, Wake(id)), Retake(id));
            && ReaderAt(t, id, Reading) && t.channel == Some(t.readers[id].ch) && t.stored == s.stored
            && t.readers[id].name == s.readers[id].name && t.readers[id].wanted == s.readers[id].wanted
  {
  }

  /** A commit stores each of its playlists, and no other is touched. */
  lemma CommitStoresItsPlaylists(s: State, id: nat, post: Post, name: string)
    requires id !in s.publishers
    ensures var stored := Step(s, Commit(id, post)).stored;
            && (name in stored <==> name in post.playlists || name in s.stored)
            && (name in stored ==>
                  stored[name] == if name in post.playlists then post.playlists[name] else s.stored[name])
  {
  }

  // ------------------------------------------- the early return, and what it costs

  /** Some run loses a wakeup to this publish, all others announcing themselves. */
  ghost predicate CanStrand(post: Post) {
    exists events: seq<Event>, id ::
      && (forall e | e in events && e.Commit? && e.post != post :: Announces(e.post))
      && Stranded(After(events, |events|), id)
  }

  /** The room once a first publish is through, and a request waits for more than it has. */
  function Asleep(name: string, first: Post): State {
    State(map[name := []], Some(0), 1, {}, map[0 := Reader(name, Some(0), Waiting, 0, Some([]))],
          map[0 := Publisher(first, Finished)])
  }

  function FirstPublish(name: string): Post {
    Post(map[name := []], Metadata([], 0))
  }

  lemma Published(name: string)
    ensures var first := FirstPublish(name);
            Finishing(Step(START, Commit(0, first)), 0) ==
              START.(stored := map[name := []], publishers := map[0 := Publisher(first, Finished)])
  {
    var first := FirstPublish(name);
    var s := Step(START, Commit(0, first));
    assert name in first.playlists && s.stored == first.playlists;
    assert Step(s, Settle(0)).publishers == map[0 := Publisher(first, Notifying)];
    assert Step(Step(s, Settle(0)), Withdraw(0)).publishers == map[0 := Publisher(first, Closing(None))];
  }

  lemma FallsAsleep(name: string)
    ensures Step(Step(Finishing(Step(START, Commit(0, FirstPublish(name))), 0), Request(0, name, Some(0))), Read(0))
         == Asleep(name, FirstPublish(name))
  {
    Published(name);
    assert LastSequence([]) == -1;
  }

  /** A first publish, complete; a request that waits; and the publish in question, refused over its metadata. */
  lemma Stranding(name: string, post: Post) returns (events: seq<Event>)
    requires !ValidMetadata(post.metadata) && name in post.playlists && Serves(post.playlists[name])
    ensures Stranded(After(events, |events|), 0)
    ensures forall e | e in events && e.Commit? && e.post != post :: Announces(e.post)
  {
    events := [Commit(0, FirstPublish(name)), Settle(0), Withdraw(0), Close(0), Request(0, name, Some(0)), Read(0),
               Commit(1, post), Settle(1)];
    assert After(events, 1) == Step(START, events[0]);
    assert After(events, 2) == Step(After(events, 1), events[1]);
    assert After(events, 4) == Finishing(After(events, 1), 0);
    FallsAsleep(name);
    assert After(events, 6) == Asleep(name, FirstPublish(name));
    AsleepForGood(name, post);
    assert After(events, 8) == Step(Step(After(events, 6), events[6]), events[7]);
  }

  lemma AsleepForGood(name: string, post: Post)
    requires !ValidMetadata(post.metadata) && name in post.playlists && Serves(post.playlists[name])
    ensures Stranded(Step(Step(Asleep(name, FirstPublish(name)), Commit(1, post)), Settle(1)), 0)
  {
  }

  /** A publish can leave a request asleep exactly when its metadata is refused and a playlist of it would serve one. */
  lemma StrandsExactly(post: Post)
    ensures CanStrand(post) <==> !Announces(post)
  {
    if Announces(post) {
      forall events: seq<Event>, id | forall e | e in events && e.Commit? && e.post != post :: Announces(e.post)
        ensures !Stranded(After(events, |events|), id)
      {
        NoLostWakeup(events, |events|, id);
      }
    } else {
      var name :| name in post.playlists && Serves(post.playlists[name]);
      var events := Stranding(name, post);
      assert Stranded(After(events, |events|), 0);
    }
  }
}
