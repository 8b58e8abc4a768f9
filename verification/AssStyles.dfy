/**
 What a cue's author wrote (web/src/assvtt.ts:84-182): every character outside a
 drawing is shown, in order, in the style the last override tags before it ask for.
 */
module AssStyles {
  import opened Wrappers
  import opened AssVtt

  /** The cue's texts: one before each block of overrides, and the rest. */
  function TextAt(cue: Cue, k: nat): string
    requires k <= |cue.blocks|
  {
    if k < |cue.blocks| then cue.blocks[k].before else cue.rest
  }

  /** Every override tag that stands before the k-th text. */
  function TagsBefore(cue: Cue, k: nat): seq<Override>
    requires k <= |cue.blocks|
  {
    if k == 0 then [] else TagsBefore(cue, k - 1) + cue.blocks[k - 1].tags
  }

  /** The last drawing tag says that what follows are coordinates, not text. */
  predicate Drawn(tags: seq<Override>) {
    exists j | 0 <= j < |tags| :: tags[j].Drawing? && tags[j].scale > 0
                                 && forall m | j < m < |tags| :: !tags[m].Drawing?
  }

  /** How many characters are shown before the k-th text. */
  function Offset(cue: Cue, k: nat): nat
    requires k <= |cue.blocks| + 1
  {
    if k == 0 then 0
    else Offset(cue, k - 1) + if Drawn(TagsBefore(cue, k - 1)) then 0 else |TextAt(cue, k - 1)|
  }

  /** A style by name, or the cue's own where the name is empty or unknown. */
  predicate NamedStyle(styles: Styles, base: Style, name: string, style: Style) {
    if name != "" && name in styles then style == styles[name] else style == base
  }

  predicate Italicizes(tag: Override) { tag.Italic? || tag.Reset? }

  predicate Emboldens(tag: Override) { tag.Bold? || tag.Reset? }

  predicate Colors(tag: Override) { tag.Colour? || tag.Reset? }

  predicate Last(tags: seq<Override>, j: nat, decides: Override -> bool) {
    j < |tags| && decides(tags[j]) && forall m | j < m < |tags| :: !decides(tags[m])
  }

  predicate Undecided(tags: seq<Override>, decides: Override -> bool) {
    forall m | 0 <= m < |tags| :: !decides(tags[m])
  }

  /** Italic by the last tag that says so either way, a reset's named style, or the cue's own. */
  ghost predicate ItalicBy(styles: Styles, base: Style, tags: seq<Override>, style: Style) {
    && (Undecided(tags, Italicizes) ==> style.i == base.i)
    && forall j: nat | Last(tags, j, Italicizes) ::
         match tags[j]
         case Italic(n) => style.i <==> n != 0
         case Reset(name) => exists named :: NamedStyle(styles, base, name, named) && style.i == named.i
         case _ => false
  }

  /** Bold by the flags 1 and -1, or by a weight of 700 and up. */
  ghost predicate BoldBy(styles: Styles, base: Style, tags: seq<Override>, style: Style) {
    && (Undecided(tags, Emboldens) ==> style.b == base.b)
    && forall j: nat | Last(tags, j, Emboldens) ::
         match tags[j]
         case Bold(weight) => style.b <==> weight in {1, -1} || weight >= 700
         case Reset(name) => exists named :: NamedStyle(styles, base, name, named) && style.b == named.b
         case _ => false
  }

  /** A colour tag without a value goes back to the cue's own colour. */
  ghost predicate ColorBy(styles: Styles, base: Style, tags: seq<Override>, style: Style) {
    && (Undecided(tags, Colors) ==> style.c == base.c)
    && forall j: nat | Last(tags, j, Colors) ::
         match tags[j]
         case Colour(blank, class_) => style.c == if blank then base.c else class_
         case Reset(name) => exists named :: NamedStyle(styles, base, name, named) && style.c == named.c
         case _ => false
  }

  ghost predicate StyledBy(styles: Styles, base: Style, tags: seq<Override>, style: Style) {
    ItalicBy(styles, base, tags, style) && BoldBy(styles, base, tags, style) && ColorBy(styles, base, tags, style)
  }

  /** The style the cue starts in: the one it names, or the plain one. */
  predicate CueStyle(styles: Styles, styleName: Option<string>, base: Style) {
    if styleName.Some? && styleName.value in styles then base == styles[styleName.value]
    else !base.i && !base.b && base.c.None?
  }

  /** The k-th text is shown whole where its place is, in its style. */
  ghost predicate ShownWhole(styles: Styles, base: Style, cue: Cue, k: nat, glyphs: seq<Glyph>)
    requires k <= |cue.blocks|
  {
    var tags, text, from := TagsBefore(cue, k), TextAt(cue, k), Offset(cue, k);
    !Drawn(tags) ==>
      && from + |text| <= |glyphs|
      && forall j | 0 <= j < |text| ::
           glyphs[from + j].ch == text[j] && StyledBy(styles, base, tags, glyphs[from + j].style)
  }

  // -------------------------------------------------------------- why it is so

  lemma OneMoreTag(tags: seq<Override>, tag: Override, decides: Override -> bool)
    ensures decides(tag) ==> forall j: nat :: Last(tags + [tag], j, decides) <==> j == |tags|
    ensures !decides(tag) ==> forall j: nat :: Last(tags + [tag], j, decides) <==> Last(tags, j, decides)
    ensures Undecided(tags + [tag], decides) <==> Undecided(tags, decides) && !decides(tag)
  {
    var all := tags + [tag];
    assert all[|tags|] == tag && forall m | 0 <= m < |tags| :: all[m] == tags[m];
  }

  lemma StyleTag(styles: Styles, base: Style, tags: seq<Override>, tag: Override, mode: Mode)
    requires StyledBy(styles, base, tags, mode.style)
    ensures StyledBy(styles, base, tags + [tag], After(styles, base, mode, tag).style)
  {
    var next := After(styles, base, mode, tag).style;
    OneMoreTag(tags, tag, Italicizes);
    OneMoreTag(tags, tag, Emboldens);
    OneMoreTag(tags, tag, Colors);
    if tag.Reset? {
      assert NamedStyle(styles, base, tag.name, next);
    }
    assert ItalicBy(styles, base, tags + [tag], next);
    assert BoldBy(styles, base, tags + [tag], next);
    assert ColorBy(styles, base, tags + [tag], next);
  }

  lemma DrawingTag(styles: Styles, base: Style, tags: seq<Override>, tag: Override, mode: Mode)
    requires mode.drawing == Drawn(tags)
    ensures After(styles, base, mode, tag).drawing == Drawn(tags + [tag])
  {
    var all := tags + [tag];
    assert all[|tags|] == tag && forall m | 0 <= m < |tags| :: all[m] == tags[m];
  }

  ghost predicate ModeBy(styles: Styles, base: Style, tags: seq<Override>, mode: Mode) {
    mode.drawing == Drawn(tags) && StyledBy(styles, base, tags, mode.style)
  }

  lemma ModeTag(styles: Styles, base: Style, tags: seq<Override>, tag: Override, mode: Mode)
    requires ModeBy(styles, base, tags, mode)
    ensures ModeBy(styles, base, tags + [tag], After(styles, base, mode, tag))
  {
    StyleTag(styles, base, tags, tag, mode);
    DrawingTag(styles, base, tags, tag, mode);
  }

  lemma ModeFirst(styles: Styles, base: Style)
    ensures ModeBy(styles, base, [], Mode(base, false))
  {
  }

  lemma {:induction false} ModeAlways(styles: Styles, base: Style, tags: seq<Override>)
    ensures ModeBy(styles, base, tags, AfterAll(styles, base, Mode(base, false), tags))
  {
    if tags == [] {
      ModeFirst(styles, base);
    } else {
      var init, tag := tags[..|tags| - 1], tags[|tags| - 1];
      ModeAlways(styles, base, init);
      ModeTag(styles, base, init, tag, AfterAll(styles, base, Mode(base, false), init));
      assert init + [tag] == tags;
    }
  }

  lemma {:induction false} AfterJoined(styles: Styles, base: Style, mode: Mode, a: seq<Override>, b: seq<Override>)
    ensures AfterAll(styles, base, mode, a + b) == AfterAll(styles, base, AfterAll(styles, base, mode, a), b)
  {
    if b == [] {
      assert a + b == a;
    } else {
      AfterJoined(styles, base, mode, a, b[..|b| - 1]);
      assert (a + b)[..|a + b| - 1] == a + b[..|b| - 1];
    }
  }

  lemma ShownOneMore(styles: Styles, base: Style, cue: Cue, k: nat)
    requires k < |cue.blocks|
    ensures var (glyphs, mode) := Shown(styles, base, cue.blocks[..k]);
            Shown(styles, base, cue.blocks[..k + 1])
            == (glyphs + Visible(cue.blocks[k].before, mode), AfterAll(styles, base, mode, cue.blocks[k].tags))
  {
    assert cue.blocks[..k + 1][..k] == cue.blocks[..k];
  }

  /** The mode the k-th text is read in. */
  predicate ModeOf(styles: Styles, base: Style, cue: Cue, k: nat, mode: Mode)
    requires k <= |cue.blocks|
  {
    mode == AfterAll(styles, base, Mode(base, false), TagsBefore(cue, k))
  }

  lemma ModeStep(styles: Styles, base: Style, cue: Cue, k: nat, mode: Mode)
    requires k < |cue.blocks| && ModeOf(styles, base, cue, k, mode)
    ensures ModeOf(styles, base, cue, k + 1, AfterAll(styles, base, mode, cue.blocks[k].tags))
  {
    AfterJoined(styles, base, Mode(base, false), TagsBefore(cue, k), cue.blocks[k].tags);
    assert TagsBefore(cue, k + 1) == TagsBefore(cue, k) + cue.blocks[k].tags;
  }

  lemma {:induction false} ModeAt(styles: Styles, base: Style, cue: Cue, k: nat)
    requires k <= |cue.blocks|
    ensures ModeOf(styles, base, cue, k, Shown(styles, base, cue.blocks[..k]).1)
  {
    if k > 0 {
      var j := k - 1;
      ModeAt(styles, base, cue, j);
      ModeStep(styles, base, cue, j, Shown(styles, base, cue.blocks[..j]).1);
      ShownOneMore(styles, base, cue, j);
    }
  }

  /** What is shown of the first `k` texts. */
  function ShownTo(styles: Styles, base: Style, cue: Cue, k: nat): seq<Glyph>
    requires k <= |cue.blocks| + 1
  {
    if k <= |cue.blocks| then Shown(styles, base, cue.blocks[..k]).0
    else
      var (glyphs, mode) := Shown(styles, base, cue.blocks[..|cue.blocks|]);
      glyphs + Visible(cue.rest, mode)
  }

  function TextShown(cue: Cue, k: nat, style: Style): seq<Glyph>
    requires k <= |cue.blocks|
  {
    if Drawn(TagsBefore(cue, k)) then [] else Glyphs(TextAt(cue, k), style)
  }

  /** One text more is that text in its style, or nothing if it is drawn. */
  lemma OneMoreText(styles: Styles, base: Style, cue: Cue, k: nat) returns (style: Style)
    requires k <= |cue.blocks|
    ensures StyledBy(styles, base, TagsBefore(cue, k), style)
    ensures ShownTo(styles, base, cue, k + 1) == ShownTo(styles, base, cue, k) + TextShown(cue, k, style)
  {
    var mode := Shown(styles, base, cue.blocks[..k]).1;
    ModeAt(styles, base, cue, k);
    ModeAlways(styles, base, TagsBefore(cue, k));
    if k < |cue.blocks| {
      ShownOneMore(styles, base, cue, k);
    }
    style := mode.style;
    assert ShownTo(styles, base, cue, k + 1) == ShownTo(styles, base, cue, k) + Visible(TextAt(cue, k), mode);
  }

  /** Of the first `n` texts, all is shown and nothing else. */
  ghost predicate TextsShown(styles: Styles, base: Style, cue: Cue, n: nat, glyphs: seq<Glyph>)
    requires n <= |cue.blocks| + 1
  {
    |glyphs| == Offset(cue, n) && forall k | 0 <= k < n :: ShownWhole(styles, base, cue, k, glyphs)
  }

  lemma ShownLonger(styles: Styles, base: Style, cue: Cue, k: nat, glyphs: seq<Glyph>, more: seq<Glyph>)
    requires k <= |cue.blocks| && ShownWhole(styles, base, cue, k, glyphs)
    ensures ShownWhole(styles, base, cue, k, glyphs + more)
  {
  }

  lemma LastShown(styles: Styles, base: Style, cue: Cue, k: nat, glyphs: seq<Glyph>, style: Style)
    requires k <= |cue.blocks| && |glyphs| == Offset(cue, k) && StyledBy(styles, base, TagsBefore(cue, k), style)
    ensures ShownWhole(styles, base, cue, k, glyphs + Glyphs(TextAt(cue, k), style))
  {
  }

  lemma OffsetStep(cue: Cue, k: nat, style: Style)
    requires k <= |cue.blocks|
    ensures Offset(cue, k + 1) == Offset(cue, k) + |TextShown(cue, k, style)|
  {
  }

  lemma TextStep(styles: Styles, base: Style, cue: Cue, k: nat, glyphs: seq<Glyph>, style: Style, i: nat)
    requires i <= k <= |cue.blocks| && |glyphs| == Offset(cue, k)
    requires i < k ==> ShownWhole(styles, base, cue, i, glyphs)
    requires i == k ==> StyledBy(styles, base, TagsBefore(cue, k), style)
    ensures ShownWhole(styles, base, cue, i, glyphs + TextShown(cue, k, style))
  {
    if i < k {
      ShownLonger(styles, base, cue, i, glyphs, TextShown(cue, k, style));
    } else if !Drawn(TagsBefore(cue, k)) {
      LastShown(styles, base, cue, k, glyphs, style);
    }
  }

  lemma TextsStep(styles: Styles, base: Style, cue: Cue, k: nat, glyphs: seq<Glyph>, style: Style, n: nat)
    requires k <= |cue.blocks| && n == k + 1 && TextsShown(styles, base, cue, k, glyphs)
    requires StyledBy(styles, base, TagsBefore(cue, k), style)
    ensures TextsShown(styles, base, cue, n, glyphs + TextShown(cue, k, style))
  {
    OffsetStep(cue, k, style);
    forall i | 0 <= i < n
      ensures ShownWhole(styles, base, cue, i, glyphs + TextShown(cue, k, style))
    {
      TextStep(styles, base, cue, k, glyphs, style, i);
    }
  }

  lemma {:induction false} AllShown(styles: Styles, base: Style, cue: Cue, n: nat)
    requires n <= |cue.blocks| + 1
    ensures TextsShown(styles, base, cue, n, ShownTo(styles, base, cue, n))
  {
    if n > 0 {
      var k := n - 1;
      AllShown(styles, base, cue, k);
      var style := OneMoreText(styles, base, cue, k);
      TextsStep(styles, base, cue, k, ShownTo(styles, base, cue, k), style, n);
    }
  }

  // ------------------------------------------------------------------- results

  /**
   The meaning a cue is converted to, character by character: all the text outside
   drawings and nothing else, in order, each text in the style of the last tags before it.
   */
  lemma MeansWhatItSays(styles: Styles, styleName: Option<string>, base: Style, cue: Cue)
    requires CueStyle(styles, styleName, base)
    ensures |Meaning(styles, styleName, cue)| == Offset(cue, |cue.blocks| + 1)
    ensures forall k | 0 <= k <= |cue.blocks| ::
              ShownWhole(styles, base, cue, k, Meaning(styles, styleName, cue))
  {
    AllShown(styles, base, cue, |cue.blocks| + 1);
    assert cue.blocks[..|cue.blocks|] == cue.blocks;
    assert base == BaseStyle(styles, styleName);
  }

  /** Only one style fits: what the last tags say leaves nothing open. */
  lemma OneStyleFits(styles: Styles, base: Style, tags: seq<Override>, a: Style, b: Style)
    requires StyledBy(styles, base, tags, a) && StyledBy(styles, base, tags, b)
    ensures a == b
  {
    SomeLast(tags, Italicizes);
    SomeLast(tags, Emboldens);
    SomeLast(tags, Colors);
    assert a.i == b.i && a.b == b.b && a.c == b.c;
  }

  lemma {:induction false} SomeLast(tags: seq<Override>, decides: Override -> bool)
    ensures Undecided(tags, decides) || exists j: nat :: Last(tags, j, decides)
  {
    if tags != [] {
      var init, tag := tags[..|tags| - 1], tags[|tags| - 1];
      SomeLast(init, decides);
      OneMoreTag(init, tag, decides);
      assert init + [tag] == tags;
      if decides(tag) {
        assert Last(tags, |init|, decides);
      }
    }
  }
}
