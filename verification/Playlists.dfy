/**
 HLS playlists as the server handles them: rendering a producer's media playlist
 against the objects known to be in the bucket (internal/media/publisher.go), and
 judging a submitted master (internal/media/clientmedia.go).  A playlist is its
 lines, with the tags that matter already parsed.
 */
module Playlists {
  import opened Wrappers

  // ------------------------------------------------------------ media playlists

  /** One line of a submitted media playlist. */
  datatype Line =
    | Map(uri: Option<string>)  // EXT-X-MAP and the URI read off it, if one could be
    | Tag(text: string)         // any other tag, or a blank line
    | Segment(name: string)

  /** An object of the room's bucket: the path of its generation, then its name. */
  datatype ObjectKey = ObjectKey(generation: nat, name: string)

  /** One line of a rendered media playlist. */
  datatype OutLine =
    | MapAt(key: ObjectKey)
    | Verbatim(text: string)
    | SegmentAt(key: ObjectKey)

  function Delivered(line: Line, generation: nat): OutLine {
    match line
    case Map(uri) => MapAt(ObjectKey(generation, if uri.Some? then uri.value else ""))
    case Tag(text) => Verbatim(text)
    case Segment(name) => SegmentAt(ObjectKey(generation, name))
  }

  /** The first `n` lines as delivered. */
  function Delivery(lines: seq<Line>, n: nat, generation: nat): (out: seq<OutLine>)
    requires n <= |lines|
    ensures |out| == n
  {
    if n == 0 then [] else Delivery(lines, n - 1, generation) + [Delivered(lines[n - 1], generation)]
  }

  predicate BadMap(line: Line, published: set<string>) {
    line.Map? && (line.uri.None? || line.uri.value !in published)
  }

  predicate Unconfirmed(line: Line, published: set<string>) {
    line.Segment? && line.name !in published
  }

  /** The first unconfirmed segment at or after line `k`, or the end. */
  function Cut(lines: seq<Line>, k: nat, published: set<string>): (n: nat)
    requires k <= |lines|
    ensures k <= n <= |lines|
    decreases |lines| - k
  {
    if k == |lines| || Unconfirmed(lines[k], published) then k else Cut(lines, k + 1, published)
  }

  /** Just past the last segment among the first `n` lines; 0 when there is none. */
  function PastLastSegment(lines: seq<Line>, n: nat): (m: nat)
    requires n <= |lines|
    ensures m <= n
  {
    if n == 0 then 0 else if lines[n - 1].Segment? then n else PastLastSegment(lines, n - 1)
  }

  /** How many lines are worth delivering: all, or up to the last segment before the cut. */
  function Kept(lines: seq<Line>, published: set<string>): (n: nat)
    ensures n <= Cut(lines, 0, published)
  {
    var n := Cut(lines, 0, published);
    if n == |lines| then n else PastLastSegment(lines, n)
  }

  /** Some segment is confirmed before the cut, and every map up to there is. */
  predicate Renders(lines: seq<Line>, published: set<string>) {
    var n := Cut(lines, 0, published);
    PastLastSegment(lines, n) > 0 && forall k | 0 <= k < n :: !BadMap(lines[k], published)
  }

  function Rendered(generation: nat, lines: seq<Line>, published: set<string>): Option<seq<OutLine>> {
    if Renders(lines, published) then Some(Delivery(lines, Kept(lines, published), generation)) else None
  }

  lemma DeliveryExtends(lines: seq<Line>, k: nat, generation: nat, out: seq<OutLine>, pending: seq<OutLine>)
    requires k < |lines| && out + pending == Delivery(lines, k, generation)
    ensures out + (pending + [Delivered(lines[k], generation)]) == Delivery(lines, k + 1, generation)
    ensures out + pending + [Delivered(lines[k], generation)] == Delivery(lines, k + 1, generation)
  {
  }

  /** renderPlaylistWithBase: one pass, holding tags back until a segment vouches for them. */
  method Render(generation: nat, lines: seq<Line>, published: set<string>) returns (r: Option<seq<OutLine>>)
    ensures r == Rendered(generation, lines, published)
  {
    var out: seq<OutLine>, pending: seq<OutLine>, segments := [], [], 0;
    for k := 0 to |lines|
      invariant Cut(lines, k, published) == Cut(lines, 0, published)
      invariant forall j | 0 <= j < k :: !BadMap(lines[j], published)
      invariant segments == 0 <==> PastLastSegment(lines, k) == 0
      invariant out == Delivery(lines, PastLastSegment(lines, k), generation)
      invariant out + pending == Delivery(lines, k, generation)
    {
      var line := lines[k];
      match line {
        case Map(uri) =>
          if uri.None? || uri.value !in published {
            return None;
          }
          DeliveryExtends(lines, k, generation, out, pending);
          pending := pending + [MapAt(ObjectKey(generation, uri.value))];
        case Tag(text) =>
          DeliveryExtends(lines, k, generation, out, pending);
          pending := pending + [Verbatim(text)];
        case Segment(name) =>
          if name !in published {
            return Join(out, segments);
          }
          DeliveryExtends(lines, k, generation, out, pending);
          out := out + pending + [SegmentAt(ObjectKey(generation, name))];
          pending := [];
          segments := segments + 1;
      }
    }
    r := Join(out + pending, segments);
  }

  function Join(lines: seq<OutLine>, segments: nat): Option<seq<OutLine>> {
    if segments == 0 then None else Some(lines)
  }

  // ------------------------------------------------- what a viewer is ever handed

  /** The bucket objects a rendered playlist sends a player to. */
  function Named(lines: seq<OutLine>): set<ObjectKey> {
    set line | line in lines && !line.Verbatim? :: line.key
  }

  lemma {:induction false} BeforeTheCut(lines: seq<Line>, j: nat, published: set<string>, k: nat)
    requires j <= k < |lines| && k < Cut(lines, j, published)
    ensures !Unconfirmed(lines[k], published)
    decreases k - j
  {
    if j < k {
      BeforeTheCut(lines, j + 1, published, k);
    }
  }

  lemma {:induction false} AtTheCut(lines: seq<Line>, j: nat, published: set<string>)
    requires j <= |lines| && Cut(lines, j, published) < |lines|
    ensures Unconfirmed(lines[Cut(lines, j, published)], published)
    decreases |lines| - j
  {
    if !Unconfirmed(lines[j], published) {
      AtTheCut(lines, j + 1, published);
    }
  }

  lemma {:induction false} DeliveryAt(lines: seq<Line>, n: nat, generation: nat, k: nat)
    requires k < n <= |lines|
    ensures Delivery(lines, n, generation)[k] == Delivered(lines[k], generation)
    ensures Delivery(lines, n, generation)[..k] == Delivery(lines, k, generation)
  {
    if k < n - 1 {
      DeliveryAt(lines, n - 1, generation, k);
    }
  }

  /** No rendering names an object outside the confirmed set, or of another generation. */
  lemma RenderedNamesConfirmed(generation: nat, lines: seq<Line>, published: set<string>)
    requires Renders(lines, published)
    ensures forall key | key in Named(Rendered(generation, lines, published).value) ::
              key.generation == generation && key.name in published
  {
    var n := Kept(lines, published);
    var out := Delivery(lines, n, generation);
    forall key | key in Named(out)
      ensures key.generation == generation && key.name in published
    {
      var line :| line in out && !line.Verbatim? && line.key == key;
      var k :| 0 <= k < n && out[k] == line;
      DeliveryAt(lines, n, generation, k);
      BeforeTheCut(lines, 0, published, k);
    }
  }

  /** The names of the segments among the first `n` lines. */
  function Segments(lines: seq<Line>, n: nat): seq<string>
    requires n <= |lines|
  {
    if n == 0 then []
    else if lines[n - 1].Segment? then Segments(lines, n - 1) + [lines[n - 1].name]
    else Segments(lines, n - 1)
  }

  function Served(lines: seq<OutLine>): seq<string> {
    if lines == [] then []
    else
      var n := |lines| - 1;
      if lines[n].SegmentAt? then Served(lines[..n]) + [lines[n].key.name] else Served(lines[..n])
  }

  /** The longest run of confirmed names from the start. */
  function ConfirmedRun(names: seq<string>, published: set<string>): seq<string> {
    if names == [] || names[0] !in published then [] else [names[0]] + ConfirmedRun(names[1..], published)
  }

  lemma {:induction false} ServedAsListed(lines: seq<Line>, n: nat, generation: nat)
    requires n <= |lines|
    ensures Served(Delivery(lines, n, generation)) == Segments(lines, n)
  {
    if n > 0 {
      ServedAsListed(lines, n - 1, generation);
      DeliveryAt(lines, n, generation, n - 1);
    }
  }

  lemma {:induction false} SegmentsUpToTheLast(lines: seq<Line>, n: nat)
    requires n <= |lines|
    ensures Segments(lines, PastLastSegment(lines, n)) == Segments(lines, n)
  {
    if n > 0 && !lines[n - 1].Segment? {
      SegmentsUpToTheLast(lines, n - 1);
    }
  }

  lemma {:induction false} AllConfirmed(lines: seq<Line>, n: nat, published: set<string>)
    requires n <= Cut(lines, 0, published)
    ensures forall k | 0 <= k < |Segments(lines, n)| :: Segments(lines, n)[k] in published
  {
    if n > 0 {
      AllConfirmed(lines, n - 1, published);
      BeforeTheCut(lines, 0, published, n - 1);
    }
  }

  /** Listing further only appends, starting with the next segment there is. */
  lemma {:induction false} SegmentsAfter(lines: seq<Line>, n: nat, m: nat)
    requires n <= m <= |lines|
    ensures |Segments(lines, n)| <= |Segments(lines, m)|
    ensures Segments(lines, m)[..|Segments(lines, n)|] == Segments(lines, n)
    ensures (n < m && lines[n].Segment?) ==>
              (|Segments(lines, n)| < |Segments(lines, m)| && Segments(lines, m)[|Segments(lines, n)|] == lines[n].name)
  {
    if n < m {
      SegmentsAfter(lines, n, m - 1);
    }
  }

  lemma {:induction false} RunStopsAt(names: seq<string>, n: nat, published: set<string>)
    requires n <= |names|
    requires forall k | 0 <= k < n :: names[k] in published
    requires n < |names| ==> names[n] !in published
    ensures ConfirmedRun(names, published) == names[..n]
  {
    if n > 0 {
      RunStopsAt(names[1..], n - 1, published);
      assert names[..n] == [names[0]] + names[1..][..n - 1];
    }
  }

  /** A rendering lists exactly the longest run of confirmed segments, in their order. */
  lemma RendersTheConfirmedRun(generation: nat, lines: seq<Line>, published: set<string>)
    requires Renders(lines, published)
    ensures Served(Rendered(generation, lines, published).value)
         == ConfirmedRun(Segments(lines, |lines|), published)
  {
    var n, all := Cut(lines, 0, published), Segments(lines, |lines|);
    var run := Segments(lines, n);
    ServedAsListed(lines, Kept(lines, published), generation);
    SegmentsUpToTheLast(lines, n);
    AllConfirmed(lines, n, published);
    SegmentsAfter(lines, n, |lines|);
    assert forall k | 0 <= k < |run| :: all[k] == all[..|run|][k];
    if n < |lines| {
      AtTheCut(lines, 0, published);
    }
    RunStopsAt(all, |run|, published);
  }

  // ------------------------------------------------------ what is delivered, and as what

  /** Every segment of the first `n` lines is confirmed. */
  predicate ConfirmedTo(lines: seq<Line>, n: nat, published: set<string>)
    requires n <= |lines|
  {
    forall k | 0 <= k < n && lines[k].Segment? :: lines[k].name in published
  }

  /** A segment a player can be sent to, with all before it. */
  predicate Playable(lines: seq<Line>, k: nat, published: set<string>)
    requires k < |lines|
  {
    lines[k].Segment? && lines[k].name in published && ConfirmedTo(lines, k, published)
  }

  lemma CutIsConfirmed(lines: seq<Line>, n: nat, published: set<string>)
    requires n <= |lines|
    ensures n <= Cut(lines, 0, published) <==> ConfirmedTo(lines, n, published)
  {
    var cut := Cut(lines, 0, published);
    if n <= cut {
      forall k | 0 <= k < n && lines[k].Segment?
        ensures lines[k].name in published
      {
        BeforeTheCut(lines, 0, published, k);
      }
    } else {
      AtTheCut(lines, 0, published);
    }
  }

  lemma {:induction false} PastTheLast(lines: seq<Line>, n: nat)
    requires n <= |lines|
    ensures var m := PastLastSegment(lines, n);
            (m > 0 ==> lines[m - 1].Segment?) && forall k | m <= k < n :: !lines[k].Segment?
  {
    if n > 0 && !lines[n - 1].Segment? {
      PastTheLast(lines, n - 1);
    }
  }

  /** The last playable segment, if any, is the last before the cut. */
  lemma PlayableBeforeTheCut(lines: seq<Line>, k: nat, published: set<string>)
    requires k <= |lines|
    ensures k < PastLastSegment(lines, Cut(lines, 0, published)) <==>
            exists j | k <= j < |lines| :: Playable(lines, j, published)
  {
    var n := Cut(lines, 0, published);
    var m := PastLastSegment(lines, n);
    PastTheLast(lines, n);
    CutIsConfirmed(lines, n, published);
    if k < m {
      assert Playable(lines, m - 1, published);
    }
    forall j | k <= j < |lines| && Playable(lines, j, published)
      ensures j < m
    {
      CutIsConfirmed(lines, j + 1, published);
    }
  }

  /**
   A playlist renders if and only if some segment is confirmed with all before it, and
   so is every map with no unconfirmed segment before it.
   */
  lemma RendersExactly(lines: seq<Line>, published: set<string>)
    ensures Renders(lines, published) <==>
            && (exists k | 0 <= k < |lines| :: Playable(lines, k, published))
            && (forall k | 0 <= k < |lines| && lines[k].Map? && ConfirmedTo(lines, k, published) ::
                  lines[k].uri.Some? && lines[k].uri.value in published)
  {
    var n := Cut(lines, 0, published);
    PlayableBeforeTheCut(lines, 0, published);
    forall k | 0 <= k < |lines| && lines[k].Map?
      ensures k < n <==> ConfirmedTo(lines, k, published)
    {
      CutIsConfirmed(lines, k + 1, published);
    }
  }

  /** A line is delivered if and only if every segment is confirmed, or it is not past the last playable one. */
  lemma DeliversExactly(generation: nat, lines: seq<Line>, published: set<string>, k: nat)
    requires Renders(lines, published) && k < |lines|
    ensures k < |Rendered(generation, lines, published).value| <==>
            || ConfirmedTo(lines, |lines|, published)
            || exists j | k <= j < |lines| :: Playable(lines, j, published)
  {
    PlayableBeforeTheCut(lines, k, published);
    CutIsConfirmed(lines, |lines|, published);
  }

  /** Each line is delivered in its place: a tag with its own text, a map or segment with its own name. */
  lemma DeliversInPlace(generation: nat, lines: seq<Line>, published: set<string>, k: nat)
    requires Renders(lines, published) && k < |Rendered(generation, lines, published).value|
    ensures k < |lines|
    ensures var line := Rendered(generation, lines, published).value[k];
            match lines[k]
            case Map(uri) => uri.Some? && line == MapAt(ObjectKey(generation, uri.value))
            case Tag(text) => line == Verbatim(text)
            case Segment(name) => line == SegmentAt(ObjectKey(generation, name))
  {
    DeliveryAt(lines, Kept(lines, published), generation, k);
  }

  /** With everything confirmed the whole playlist is delivered, to its last tag. */
  lemma DeliversTheWhole(generation: nat, lines: seq<Line>, published: set<string>)
    requires Renders(lines, published) && ConfirmedTo(lines, |lines|, published)
    ensures |Rendered(generation, lines, published).value| == |lines|
  {
    CutIsConfirmed(lines, |lines|, published);
  }

  // ------------------------------------------------------- growing playlists only grow

  lemma {:induction false} CutGrows(lines: seq<Line>, k: nat, p: set<string>, q: set<string>)
    requires p <= q && k <= |lines|
    ensures Cut(lines, k, p) <= Cut(lines, k, q)
    decreases |lines| - k
  {
    if k < |lines| && !Unconfirmed(lines[k], p) {
      CutGrows(lines, k + 1, p, q);
    }
  }

  lemma {:induction false} LastSegmentGrows(lines: seq<Line>, j: nat, k: nat)
    requires j <= k <= |lines|
    ensures PastLastSegment(lines, j) <= PastLastSegment(lines, k)
  {
    if j < k {
      LastSegmentGrows(lines, j, k - 1);
    }
  }

  lemma KeptGrows(lines: seq<Line>, p: set<string>, q: set<string>)
    requires p <= q
    ensures Kept(lines, p) <= Kept(lines, q)
  {
    CutGrows(lines, 0, p, q);
    LastSegmentGrows(lines, Cut(lines, 0, p), Cut(lines, 0, q));
  }

  /** How a rendering is sent: each line, then a newline. */
  function Text(base: string, lines: seq<OutLine>): string {
    if lines == [] then ""
    else Text(base, lines[..|lines| - 1]) + LineText(base, lines[|lines| - 1]) + "\n"
  }

  function LineText(base: string, line: OutLine): string {
    match line
    case MapAt(key) => "#EXT-X-MAP:URI=\"" + base + key.name + "\""
    case Verbatim(text) => text
    case SegmentAt(key) => base + key.name
  }

  lemma TextSnoc(base: string, lines: seq<OutLine>, line: OutLine)
    ensures Text(base, lines + [line]) == Text(base, lines) + (LineText(base, line) + "\n")
  {
    assert (lines + [line])[..|lines|] == lines;
  }

  lemma PrefixAppend(a: string, b: string, c: string)
    requires a <= b
    ensures a <= b + c
  {
  }

  /** The text of the first `n` lines, sent one after another. */
  function SentText(base: string, lines: seq<Line>, n: nat, generation: nat): string
    requires n <= |lines|
  {
    if n == 0 then ""
    else SentText(base, lines, n - 1, generation) + LineSent(base, lines, n - 1, generation)
  }

  lemma {:induction false} SentIsText(base: string, lines: seq<Line>, n: nat, generation: nat)
    requires n <= |lines|
    ensures Text(base, Delivery(lines, n, generation)) == SentText(base, lines, n, generation)
  {
    if n > 0 {
      SentIsText(base, lines, n - 1, generation);
      TextSnoc(base, Delivery(lines, n - 1, generation), Delivered(lines[n - 1], generation));
    }
  }

  function LineSent(base: string, lines: seq<Line>, n: nat, generation: nat): string
    requires n < |lines|
  {
    LineText(base, Delivered(lines[n], generation)) + "\n"
  }

  lemma {:induction false} SendingMoreAppends(base: string, shorter: string, lines: seq<Line>, n: nat, m: nat,
                                              generation: nat)
    requires n <= m <= |lines| && shorter == SentText(base, lines, n, generation)
    ensures shorter <= SentText(base, lines, m, generation)
  {
    if n < m {
      var most := SentText(base, lines, m - 1, generation);
      SendingMoreAppends(base, shorter, lines, n, m - 1, generation);
      PrefixAppend(shorter, most, LineSent(base, lines, m - 1, generation));
    }
  }

  /**
   Of two renderings of one playlist, the one with less confirmed is a prefix of the
   text of the other: a player reloading never sees a line change under it.
   */
  lemma RenderingsGrow(base: string, generation: nat, lines: seq<Line>, p: set<string>, q: set<string>)
    requires p <= q && Renders(lines, p) && Renders(lines, q)
    ensures Text(base, Rendered(generation, lines, p).value) <= Text(base, Rendered(generation, lines, q).value)
  {
    var n, m := Kept(lines, p), Kept(lines, q);
    KeptGrows(lines, p, q);
    SentIsText(base, lines, n, generation);
    SentIsText(base, lines, m, generation);
    SendingMoreAppends(base, SentText(base, lines, n, generation), lines, n, m, generation);
  }

  /** Confirming more can undo a rendering, and exactly by letting it reach a map that is not confirmed. */
  lemma MoreConfirmedRendersIff(lines: seq<Line>, p: set<string>, q: set<string>)
    requires p <= q && Renders(lines, p)
    ensures Renders(lines, q) <==>
            forall k | Cut(lines, 0, p) <= k < Cut(lines, 0, q) :: !BadMap(lines[k], q)
  {
    CutGrows(lines, 0, p, q);
    LastSegmentGrows(lines, Cut(lines, 0, p), Cut(lines, 0, q));
  }

  lemma MoreConfirmedCanUnrender()
    ensures var lines := [Segment("a"), Segment("b"), Map(Some("m"))];
            Renders(lines, {"a"}) && !Renders(lines, {"a", "b"})
  {
    var lines := [Segment("a"), Segment("b"), Map(Some("m"))];
    assert "a"[0] != "b"[0] && "m"[0] != "a"[0] && "m"[0] != "b"[0];
    assert Cut(lines, 1, {"a"}) == 1 == Cut(lines, 0, {"a"});
    assert Cut(lines, 2, {"a", "b"}) == Cut(lines, 1, {"a", "b"}) == Cut(lines, 0, {"a", "b"});
    assert Cut(lines, 3, {"a", "b"}) == 3;
    assert BadMap(lines[2], {"a", "b"});
  }

  // ------------------------------------------------------------------ masters

  /** Digits as written in a playlist name: their value and how many zeros pad it. */
  datatype Digits = Digits(value: nat, zeros: nat)

  /** The client playlist grammar: an optional region prefix, then a master or a stream. */
  datatype Name =
    | Master(region: Option<Digits>)
    | Stream(region: Option<Digits>, track: Digits)

  const ROOM_MASTER := Master(None)

  function RegionMaster(n: nat): Name {
    Master(Some(Digits(n, 0)))
  }

  /** One line of a submitted master; a URI outside the grammar is None. */
  datatype MasterLine =
    | Blank
    | Reference(uri: Option<Name>)
    | MasterTag(allowed: bool, uris: nat, uri: Option<Name>)

  datatype MasterBody = MasterBody(streamInf: bool, lines: seq<MasterLine>)

  datatype Verdict = Invalid | Early | Ready

  predicate SoundLine(line: MasterLine) {
    match line
    case Blank => true
    case Reference(uri) => uri.Some?
    case MasterTag(allowed, uris, uri) => allowed && uris <= 1 && (uris == 1 ==> uri.Some?)
  }

  predicate Sound(body: MasterBody) {
    body.streamInf && forall line | line in body.lines :: SoundLine(line)
  }

  predicate Refers(line: MasterLine, name: Name) {
    match line
    case Blank => false
    case Reference(uri) => uri == Some(name)
    case MasterTag(_, uris, uri) => uris == 1 && uri == Some(name)
  }

  /** The playlists a master sends a player to. */
  ghost predicate RefersTo(body: MasterBody, name: Name) {
    exists line :: line in body.lines && Refers(line, name)
  }

  method JudgeClientMaster(body: MasterBody, available: set<Name>) returns (verdict: Verdict)
    ensures verdict == Invalid <==> !Sound(body)
    ensures verdict == Ready <==> Sound(body) && forall name :: RefersTo(body, name) ==> name in available
  {
    if !body.streamInf {
      return Invalid;
    }
    var ready := true;
    for k := 0 to |body.lines|
      invariant forall j | 0 <= j < k :: SoundLine(body.lines[j])
      invariant ready <==> forall j, name | 0 <= j < k && Refers(body.lines[j], name) :: name in available
    {
      assert body.lines[k] in body.lines;
      match body.lines[k] {
        case Blank =>
        case Reference(uri) =>
          if uri.None? {
            return Invalid;
          }
          if uri.value !in available {
            assert Refers(body.lines[k], uri.value);
            ready := false;
          }
        case MasterTag(allowed, uris, uri) =>
          if !allowed || uris > 1 {
            return Invalid;
          }
          if uris == 1 {
            if uri.None? {
              return Invalid;
            }
            if uri.value !in available {
              assert Refers(body.lines[k], uri.value);
              ready := false;
            }
          }
      }
    }
    if ready {
      return Ready;
    }
    ghost var j, name :| 0 <= j < |body.lines| && Refers(body.lines[j], name) && name !in available;
    assert RefersTo(body, name);
    return Early;
  }
}
