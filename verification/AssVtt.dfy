/**
 The ASS to WebVTT compiler of web/src/assvtt.ts: a cue is text cut by override
 blocks, and what comes out is WebVTT cue text whose tags nest.  `Read` is the
 receiving end, a reader of that text which refuses a tag closed out of order;
 `Meaning` is the cue as its author styled it.  The compiler is correct when
 reading what it wrote gives back the meaning with nothing left open.
 */
module AssVtt {
  import opened Wrappers

  // The classes colorClass can answer; white is the player's default and is
  // never written.
  datatype Color = Yellow | Cyan | Red | Lime | Magenta | Blue | Black

  datatype Style = Style(i: bool, b: bool, c: Option<Color>)

  const DEFAULT_STYLE := Style(false, false, None)

  type Styles = map<string, Style>

  datatype Override =
    | Italic(n: int)
    | Bold(weight: int)
    | Colour(blank: bool, class_: Option<Color>)  // blank: the tag carried no value
    | Reset(name: string)
    | Drawing(scale: int)
    | Placement  // an, a, pos and move: settings, never text

  datatype Block = Block(before: string, tags: seq<Override>)

  datatype Cue = Cue(blocks: seq<Block>, rest: string)

  datatype Glyph = Glyph(ch: char, style: Style)

  // ---------------------------------------------------------------- meaning

  /** What override tags change: the style in force, and whether text is a drawing. */
  datatype Mode = Mode(style: Style, drawing: bool)

  function StyleOr(styles: Styles, name: string, otherwise: Style): Style {
    if name != "" && name in styles then styles[name] else otherwise
  }

  function After(styles: Styles, base: Style, mode: Mode, tag: Override): Mode {
    match tag
    case Italic(n) => mode.(style := mode.style.(i := n != 0))
    case Bold(weight) => mode.(style := mode.style.(b := weight == 1 || weight == -1 || weight >= 700))
    case Colour(blank, class_) => mode.(style := mode.style.(c := if blank then base.c else class_))
    case Reset(name) => mode.(style := StyleOr(styles, name, base))
    case Drawing(scale) => mode.(drawing := scale > 0)
    case Placement => mode
  }

  function AfterAll(styles: Styles, base: Style, mode: Mode, tags: seq<Override>): Mode {
    if tags == [] then mode
    else After(styles, base, AfterAll(styles, base, mode, tags[..|tags| - 1]), tags[|tags| - 1])
  }

  function Glyphs(text: string, style: Style): seq<Glyph> {
    seq(|text|, k requires 0 <= k < |text| => Glyph(text[k], style))
  }

  function Visible(text: string, mode: Mode): seq<Glyph> {
    if mode.drawing then [] else Glyphs(text, mode.style)
  }

  /** The mode in force after every block of `blocks`, and what was shown on the way. */
  function Shown(styles: Styles, base: Style, blocks: seq<Block>): (seq<Glyph>, Mode) {
    if blocks == [] then ([], Mode(base, false))
    else
      var (glyphs, mode) := Shown(styles, base, blocks[..|blocks| - 1]);
      var last := blocks[|blocks| - 1];
      (glyphs + Visible(last.before, mode), AfterAll(styles, base, mode, last.tags))
  }

  function BaseStyle(styles: Styles, styleName: Option<string>): Style {
    if styleName.Some? && styleName.value in styles then styles[styleName.value] else DEFAULT_STYLE
  }

  function Meaning(styles: Styles, styleName: Option<string>, cue: Cue): seq<Glyph> {
    var (glyphs, mode) := Shown(styles, BaseStyle(styles, styleName), cue.blocks);
    glyphs + Visible(cue.rest, mode)
  }

  // ----------------------------------------------------------------- reader

  datatype Tag = TagI | TagB | TagC(color: Color)

  function ColorName(c: Color): string {
    match c
    case Yellow => "yellow"
    case Cyan => "cyan"
    case Red => "red"
    case Lime => "lime"
    case Magenta => "magenta"
    case Blue => "blue"
    case Black => "black"
  }

  function ColorNamed(name: string): Option<Color> {
    if name == "yellow" then Some(Yellow)
    else if name == "cyan" then Some(Cyan)
    else if name == "red" then Some(Red)
    else if name == "lime" then Some(Lime)
    else if name == "magenta" then Some(Magenta)
    else if name == "blue" then Some(Blue)
    else if name == "black" then Some(Black)
    else None
  }

  /** The style nested tags give the text inside them: the innermost color wins. */
  function StackStyle(stack: seq<Tag>): Style {
    if stack == [] then DEFAULT_STYLE
    else
      var outer := StackStyle(stack[..|stack| - 1]);
      match stack[|stack| - 1]
      case TagI => outer.(i := true)
      case TagB => outer.(b := true)
      case TagC(color) => outer.(c := Some(color))
  }

  /** Where the first '>' is, if there is one. */
  function Closing(s: string): (k: Option<nat>)
    ensures k.Some? ==> k.value < |s|
  {
    if s == "" then None
    else if s[0] == '>' then Some(0)
    else
      var rest := Closing(s[1..]);
      if rest.None? then None else Some(rest.value + 1)
  }

  function EndTag(tag: Tag): string {
    match tag
    case TagI => "/i"
    case TagB => "/b"
    case TagC(_) => "/c"
  }

  /** The stack after the tag written between '<' and '>'; None if it does not nest. */
  function Retag(name: string, stack: seq<Tag>): Option<seq<Tag>> {
    if name == "i" then Some(stack + [TagI])
    else if name == "b" then Some(stack + [TagB])
    else if stack != [] && name == EndTag(stack[|stack| - 1]) then Some(stack[..|stack| - 1])
    else if |name| > 2 && name[..2] == "c." && ColorNamed(name[2..]).Some? then
      Some(stack + [TagC(ColorNamed(name[2..]).value)])
    else None
  }

  /** What stands first in cue text, and how many characters it takes. */
  datatype Token = Shows(ch: char) | Tagged(name: string)

  function Lex(s: string): (token: Option<(Token, nat)>)
    requires s != ""
    ensures token.Some? ==> 0 < token.value.1 <= |s|
  {
    if s[0] == '<' then
      var k := Closing(s);
      if k.None? then None else Some((Tagged(s[1..k.value]), k.value + 1))
    else if s[0] == '&' then
      if "&amp;" <= s then Some((Shows('&'), 5))
      else if "&lt;" <= s then Some((Shows('<'), 4))
      else if "&gt;" <= s then Some((Shows('>'), 4))
      else None
    else Some((Shows(s[0]), 1))
  }

  datatype Reading = Reading(glyphs: seq<Glyph>, stack: seq<Tag>)

  function Prepend(glyphs: seq<Glyph>, rest: Option<Reading>): Option<Reading> {
    if rest.None? then None else Some(rest.value.(glyphs := glyphs + rest.value.glyphs))
  }

  /** WebVTT cue text read with `stack` already open; None for text that does not nest. */
  function Read(s: string, stack: seq<Tag>): Option<Reading>
    decreases |s|
  {
    if s == "" then Some(Reading([], stack))
    else
      match Lex(s)
      case None => None
      case Some((Shows(ch), n)) => Prepend([Glyph(ch, StackStyle(stack))], Read(s[n..], stack))
      case Some((Tagged(name), n)) =>
        var next := Retag(name, stack);
        if next.None? then None else Read(s[n..], next.value)
  }

  /** Reading `s` and then `t`. */
  function Resume(first: Reading, t: string): Option<Reading> {
    Prepend(first.glyphs, Read(t, first.stack))
  }

  lemma {:induction false} ClosingAppend(s: string, t: string)
    requires Closing(s).Some?
    ensures Closing(s + t) == Closing(s)
  {
    if s[0] != '>' {
      ClosingAppend(s[1..], t);
      assert (s + t)[1..] == s[1..] + t;
    }
  }

  lemma LexAppend(s: string, t: string)
    requires s != "" && Lex(s).Some?
    ensures Lex(s + t) == Lex(s)
  {
    if s[0] == '<' {
      ClosingAppend(s, t);
      assert (s + t)[1..Closing(s).value] == s[1..Closing(s).value];
    } else if s[0] == '&' {
      assert s <= s + t;
      assert s[1] == (s + t)[1];
    }
  }

  /** Reading is left to right: a readable prefix is read the same whatever follows. */
  lemma {:induction false} ReadAppend(s: string, t: string, stack: seq<Tag>)
    requires Read(s, stack).Some?
    ensures Read(s + t, stack) == Resume(Read(s, stack).value, t)
    decreases |s|
  {
    if s == "" {
      assert s + t == t;
      if Read(t, stack).Some? {
        assert [] + Read(t, stack).value.glyphs == Read(t, stack).value.glyphs;
      }
    } else {
      LexAppend(s, t);
      var (token, n) := Lex(s).value;
      assert (s + t)[n..] == s[n..] + t;
      match token
      case Tagged(name) => ReadAppend(s[n..], t, Retag(name, stack).value);
      case Shows(ch) =>
        ReadAppend(s[n..], t, stack);
        PrependTwice([Glyph(ch, StackStyle(stack))], Read(s[n..], stack).value, t);
    }
  }

  lemma PrependTwice(glyphs: seq<Glyph>, first: Reading, t: string)
    ensures Prepend(glyphs, Resume(first, t)) == Resume(first.(glyphs := glyphs + first.glyphs), t)
  {
    var rest := Read(t, first.stack);
    if rest.Some? {
      assert glyphs + (first.glyphs + rest.value.glyphs) == (glyphs + first.glyphs) + rest.value.glyphs;
    }
  }

  // ----------------------------------------------------------------- writer

  function Bracket(name: string): string { "<" + name + ">" }

  lemma {:induction false} ClosingAt(name: string, t: string)
    requires '>' !in name
    ensures Closing(name + ">" + t) == Some(|name|)
  {
    if name == "" {
      assert name + ">" + t == ">" + t;
    } else {
      ClosingAt(name[1..], t);
      assert (name + ">" + t)[1..] == name[1..] + ">" + t;
    }
  }

  /** A tag that nests is read as nothing but the change it makes to the stack. */
  lemma ReadBracket(name: string, stack: seq<Tag>)
    requires '>' !in name && Retag(name, stack).Some?
    ensures Read(Bracket(name), stack) == Some(Reading([], Retag(name, stack).value))
  {
    var s := Bracket(name);
    ClosingAt(['<'] + name, "");
    assert s == ['<'] + name + ">" + "";
    assert s[1..|name| + 1] == name;
  }

  function StartTag(tag: Tag): string {
    match tag
    case TagI => "i"
    case TagB => "b"
    case TagC(color) => "c." + ColorName(color)
  }

  lemma RetagStart(tag: Tag, stack: seq<Tag>)
    ensures '>' !in StartTag(tag)
    ensures Retag(StartTag(tag), stack) == Some(stack + [tag])
  {
    if tag.TagC? {
      var name := ColorName(tag.color);
      assert StartTag(tag)[2..] == name && StartTag(tag)[0] == 'c';
      assert ColorNamed(name) == Some(tag.color);
    }
  }

  lemma RetagEnd(tag: Tag, stack: seq<Tag>)
    ensures '>' !in EndTag(tag)
    ensures Retag(EndTag(tag), stack + [tag]) == Some(stack)
  {
    assert EndTag(tag)[0] == '/';
    assert (stack + [tag])[..|stack|] == stack;
  }

  function ReplaceAll(ch: char, with: string, s: string): string {
    if s == "" then ""
    else (if s[0] == ch then with else [s[0]]) + ReplaceAll(ch, with, s[1..])
  }

  /** The three replacements emitText makes, in its order. */
  function Escape(s: string): string {
    ReplaceAll('>', "&gt;", ReplaceAll('<', "&lt;", ReplaceAll('&', "&amp;", s)))
  }

  lemma {:induction false} ReplaceAppend(ch: char, with: string, s: string, t: string)
    ensures ReplaceAll(ch, with, s + t) == ReplaceAll(ch, with, s) + ReplaceAll(ch, with, t)
  {
    if s == "" {
      assert s + t == t;
    } else {
      ReplaceAppend(ch, with, s[1..], t);
      assert (s + t)[0] == s[0] && (s + t)[1..] == s[1..] + t;
      var head := if s[0] == ch then with else [s[0]];
      assert ReplaceAll(ch, with, s + t) == head + ReplaceAll(ch, with, s[1..] + t);
      assert head + (ReplaceAll(ch, with, s[1..]) + ReplaceAll(ch, with, t))
          == (head + ReplaceAll(ch, with, s[1..])) + ReplaceAll(ch, with, t);
    }
  }

  lemma {:induction false} ReplaceAbsent(ch: char, with: string, s: string)
    requires ch !in s
    ensures ReplaceAll(ch, with, s) == s
  {
    if s != "" {
      ReplaceAbsent(ch, with, s[1..]);
      assert s == [s[0]] + s[1..];
    }
  }

  lemma ReplaceOne(ch: char, with: string, x: char)
    ensures ReplaceAll(ch, with, [x]) == if x == ch then with else [x]
  {
    assert [x][1..] == "" && ReplaceAll(ch, with, "") == "";
    assert with + "" == with && [x] + "" == [x];
  }

  /** An escaped text is read back as itself, in the style of the tags around it. */
  lemma {:induction false} ReadEscaped(s: string, stack: seq<Tag>)
    ensures Read(Escape(s), stack) == Some(Reading(Glyphs(s, StackStyle(stack)), stack))
  {
    if s == "" {
      assert Glyphs(s, StackStyle(stack)) == [];
    } else {
      var head, tail := [s[0]], s[1..];
      assert s == head + tail;
      ReplaceAppend('&', "&amp;", head, tail);
      var once := ReplaceAll('&', "&amp;", head);
      ReplaceAppend('<', "&lt;", once, ReplaceAll('&', "&amp;", tail));
      var twice := ReplaceAll('<', "&lt;", once);
      ReplaceAppend('>', "&gt;", twice, ReplaceAll('<', "&lt;", ReplaceAll('&', "&amp;", tail)));
      assert Escape(s) == Escape(head) + Escape(tail);
      ReadEscapedChar(s[0], stack);
      ReadAppend(Escape(head), Escape(tail), stack);
      ReadEscaped(tail, stack);
      assert Glyphs(s, StackStyle(stack)) == [Glyph(s[0], StackStyle(stack))] + Glyphs(tail, StackStyle(stack));
    }
  }

  lemma ReadEscapedChar(ch: char, stack: seq<Tag>)
    ensures Read(Escape([ch]), stack) == Some(Reading([Glyph(ch, StackStyle(stack))], stack))
  {
    EscapeChar(ch);
    var s := EscapedChar(ch);
    LexEscapedChar(ch);
    assert s[|s|..] == "";
    assert Read("", stack) == Some(Reading([], stack));
    assert [Glyph(ch, StackStyle(stack))] + [] == [Glyph(ch, StackStyle(stack))];
  }

  lemma LexEscapedChar(ch: char)
    ensures Lex(EscapedChar(ch)) == Some((Shows(ch), |EscapedChar(ch)|))
  {
    var s := EscapedChar(ch);
    if ch == '<' {
      assert s[1] == 'l';
    } else if ch == '>' {
      assert s[1] == 'g';
    }
  }

  function EscapedChar(ch: char): string {
    if ch == '&' then "&amp;" else if ch == '<' then "&lt;" else if ch == '>' then "&gt;" else [ch]
  }

  lemma EscapeChar(ch: char)
    ensures Escape([ch]) == EscapedChar(ch)
  {
    ReplaceOne('&', "&amp;", ch);
    if ch == '&' {
      ReplaceAbsent('<', "&lt;", "&amp;");
      ReplaceAbsent('>', "&gt;", "&amp;");
    } else {
      ReplaceOne('<', "&lt;", ch);
      if ch == '<' {
        ReplaceAbsent('>', "&gt;", "&lt;");
      } else {
        ReplaceOne('>', "&gt;", ch);
      }
    }
  }

  // -------------------------------------------------------------- converter

  datatype Kind = KindI | KindB | KindC

  function TagOf(kind: Kind, color: Option<Color>): Tag {
    match kind
    case KindI => TagI
    case KindB => TagB
    case KindC => TagC(if color.Some? then color.value else Yellow)
  }

  function TagsOf(open: seq<Kind>, color: Option<Color>): seq<Tag> {
    seq(|open|, k requires 0 <= k < |open| => TagOf(open[k], color))
  }

  /** The open color is remembered exactly while one is open. */
  predicate WellOpen(open: seq<Kind>, color: Option<Color>) {
    KindC in open <==> color.Some?
  }

  lemma {:induction false} StyleOfOpen(open: seq<Kind>, color: Option<Color>)
    requires color.Some? || KindC !in open
    ensures StackStyle(TagsOf(open, color)) ==
            Style(KindI in open, KindB in open, if KindC in open then color else None)
  {
    if open != [] {
      var n := |open| - 1;
      StyleOfOpen(open[..n], color);
      assert TagsOf(open, color)[..n] == TagsOf(open[..n], color);
      assert open == open[..n] + [open[n]];
    }
  }

  /** `out` reads as exactly `shown`, with exactly the tags of `open` left open. */
  ghost predicate Writes(out: string, shown: seq<Glyph>, open: seq<Kind>, color: Option<Color>) {
    Read(out, []) == Some(Reading(shown, TagsOf(open, color)))
  }

  /** Writing a tag after readable text changes the stack and shows nothing. */
  lemma WriteTag(out: string, shown: seq<Glyph>, stack: seq<Tag>, name: string, next: seq<Tag>)
    requires Read(out, []) == Some(Reading(shown, stack))
    requires '>' !in name && Retag(name, stack) == Some(next)
    ensures Read(out + Bracket(name), []) == Some(Reading(shown, next))
  {
    ReadBracket(name, stack);
    ReadAppend(out, Bracket(name), []);
    assert shown + [] == shown;
  }

  lemma TagsOfSnoc(open: seq<Kind>, kind: Kind, color: Option<Color>, before: Option<Color>)
    requires color == before || KindC !in open
    ensures TagsOf(open + [kind], color) == TagsOf(open, before) + [TagOf(kind, color)]
  {
  }

  lemma WriteStart(out: string, shown: seq<Glyph>, open: seq<Kind>, color: Option<Color>,
                   kind: Kind, next: Option<Color>)
    requires Writes(out, shown, open, color)
    requires color == next || KindC !in open
    ensures Writes(out + Bracket(StartTag(TagOf(kind, next))), shown, open + [kind], next)
  {
    var tag, stack := TagOf(kind, next), TagsOf(open, color);
    RetagStart(tag, stack);
    WriteTag(out, shown, stack, StartTag(tag), stack + [tag]);
    TagsOfSnoc(open, kind, next, color);
  }

  lemma WriteEnd(out: string, shown: seq<Glyph>, open: seq<Kind>, kind: Kind, color: Option<Color>)
    requires Writes(out, shown, open + [kind], color)
    ensures Writes(out + Bracket(EndTag(TagOf(kind, color))), shown, open, color)
  {
    var tag, stack := TagOf(kind, color), TagsOf(open, color);
    TagsOfSnoc(open, kind, color, color);
    RetagEnd(tag, stack);
    WriteTag(out, shown, stack + [tag], EndTag(tag), stack);
  }

  lemma WriteText(out: string, shown: seq<Glyph>, open: seq<Kind>, color: Option<Color>, text: string)
    requires Writes(out, shown, open, color)
    ensures Writes(out + Escape(text), shown + Glyphs(text, StackStyle(TagsOf(open, color))), open, color)
  {
    ReadEscaped(text, TagsOf(open, color));
    ReadAppend(out, Escape(text), []);
  }

  /** convertAssCue's locals. */
  class Converter {
    const styles: Styles
    const base: Style
    var open: seq<Kind>
    var openColor: Option<Color>
    var desired: Style
    var drawing: bool
    var out: string
    ghost var shown: seq<Glyph>

    ghost predicate Valid()
      reads this
    {
      WellOpen(open, openColor) && Writes(out, shown, open, openColor)
    }

    function Now(): Mode
      reads this
    {
      Mode(desired, drawing)
    }

    constructor (styles: Styles, base: Style)
      ensures Valid() && shown == [] && Now() == Mode(base, false)
      ensures this.styles == styles && this.base == base
    {
      this.styles, this.base := styles, base;
      open, openColor, desired, drawing, out, shown := [], None, base, false, "", [];
      new;
      assert TagsOf(open, openColor) == [];
    }

    method Close(keep: nat)
      requires Valid() && keep <= |open|
      modifies this`open, this`openColor, this`out
      ensures Valid() && open == old(open)[..keep]
      ensures openColor == if KindC in open then old(openColor) else None
    {
      var index := |open|;
      assert open[..index] == open;
      while index > keep
        invariant open == old(open) && openColor == old(openColor)
        invariant keep <= index <= |open|
        invariant Writes(out, shown, open[..index], openColor)
      {
        index := index - 1;
        assert open[..index + 1] == open[..index] + [open[index]];
        WriteEnd(out, shown, open[..index], open[index], openColor);
        out := out + Bracket(EndTag(TagOf(open[index], openColor)));
      }
      open := open[..keep];
      if KindC !in open {
        ghost var color := openColor;
        openColor := None;
        assert TagsOf(open, None) == TagsOf(open, color);
      }
    }

    method Open(kind: Kind, color: Option<Color>)
      requires Valid() && kind !in open
      requires if kind == KindC then color.Some? else color == openColor
      modifies this`open, this`openColor, this`out
      ensures Valid() && open == old(open) + [kind] && openColor == color
    {
      WriteStart(out, shown, open, openColor, kind, color);
      open, openColor, out := open + [kind], color, out + Bracket(StartTag(TagOf(kind, color)));
    }

    /** How many tags from the outside in are all still wanted. */
    method Kept() returns (keep: nat)
      ensures keep <= |open|
      ensures forall k | 0 <= k < keep :: Wanted(open[k])
      ensures keep < |open| ==> !Wanted(open[keep])
    {
      keep := |open|;
      for index := 0 to |open|
        invariant keep == |open|
        invariant forall k | 0 <= k < index :: Wanted(open[k])
      {
        if !Wanted(open[index]) {
          return index;
        }
      }
    }

    method OpenMissing()
      requires Valid() && forall kind | kind in open :: Wanted(kind)
      modifies this`open, this`openColor, this`out
      ensures Valid() && openColor == desired.c
      ensures (KindI in open <==> desired.i) && (KindB in open <==> desired.b)
    {
      if desired.i && KindI !in open { Open(KindI, openColor); }
      if desired.b && KindB !in open { Open(KindB, openColor); }
      if desired.c.Some? && openColor != desired.c { Open(KindC, desired.c); }
    }

    method Reconcile()
      requires Valid()
      modifies this`open, this`openColor, this`out
      ensures Valid() && StackStyle(TagsOf(open, openColor)) == desired
    {
      var keep := Kept();
      Close(keep);
      OpenMissing();
      StyleOfOpen(open, openColor);
    }

    predicate Wanted(kind: Kind)
      reads this
    {
      match kind
      case KindI => desired.i
      case KindB => desired.b
      case KindC => desired.c == openColor
    }

    method EmitText(segment: string)
      requires Valid()
      modifies this`open, this`openColor, this`out, this`shown
      ensures Valid() && shown == old(shown) + Visible(segment, Now())
    {
      if drawing || segment == "" {
        assert shown + Visible(segment, Now()) == shown;
        return;
      }
      Reconcile();
      WriteText(out, shown, open, openColor, segment);
      out := out + Escape(segment);
      shown := shown + Glyphs(segment, desired);
    }

    method Apply(tag: Override)
      modifies this`desired, this`drawing
      ensures Now() == After(styles, base, old(Now()), tag)
    {
      match tag {
        case Italic(n) => desired := desired.(i := n != 0);
        case Bold(weight) => desired := desired.(b := weight == 1 || weight == -1 || weight >= 700);
        case Colour(blank, class_) => desired := desired.(c := if blank then base.c else class_);
        case Reset(name) =>
          var target := StyleOr(styles, name, base);
          desired := Style(target.i, target.b, target.c);
        case Drawing(scale) => drawing := scale > 0;
        case Placement =>
      }
    }

    method TakeBlock(block: Block)
      requires Valid()
      modifies this
      ensures Valid()
      ensures shown == old(shown) + Visible(block.before, old(Now()))
      ensures Now() == AfterAll(styles, base, old(Now()), block.tags)
    {
      EmitText(block.before);
      for k := 0 to |block.tags|
        invariant Valid()
        invariant shown == old(shown) + Visible(block.before, old(Now()))
        invariant Now() == AfterAll(styles, base, old(Now()), block.tags[..k])
      {
        assert block.tags[..k + 1][..k] == block.tags[..k];
        Apply(block.tags[k]);
      }
      assert block.tags[..|block.tags|] == block.tags;
    }
  }

  /** What is written reads back, properly nested and with nothing left open, as the cue's meaning. */
  method ConvertAssCue(styles: Styles, styleName: Option<string>, cue: Cue) returns (out: string)
    ensures Read(out, []) == Some(Reading(Meaning(styles, styleName, cue), []))
  {
    var base := BaseStyle(styles, styleName);
    var converter := new Converter(styles, base);
    for n := 0 to |cue.blocks|
      invariant converter.Valid()
      invariant (converter.shown, converter.Now()) == Shown(styles, base, cue.blocks[..n])
    {
      assert cue.blocks[..n + 1][..n] == cue.blocks[..n];
      converter.TakeBlock(cue.blocks[n]);
    }
    assert cue.blocks[..|cue.blocks|] == cue.blocks;
    converter.EmitText(cue.rest);
    converter.Close(0);
    assert TagsOf(converter.open, converter.openColor) == [];
    out := converter.out;
  }
}
