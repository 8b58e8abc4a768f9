/**
 positionDialogueCues of web/src/assvtt.ts: cues with no settings of their own go
 to the bottom of the picture, or to its top while the last one put at the bottom
 is still up.
 */
module DialogueCues {
  import opened Wrappers

  const BOTTOM := "line:-3"
  const TOP := "line:2"

  datatype Line =
    | Plain(text: string)
    | Timing(start: Option<nat>, end: Option<nat>, settings: seq<string>)

  predicate Movable(line: Line) {
    line.Timing? && line.start.Some? && line.end.Some? && line.settings == []
  }

  function PutAt(line: Line, setting: string): Line
    requires Movable(line)
  {
    line.(settings := [setting])
  }

  lemma TwoPlaces()
    ensures [BOTTOM] != [TOP]
  {
    assert BOTTOM[5] == '-' && TOP[5] == '2';
    assert [BOTTOM][0] != [TOP][0];
  }

  /** Where one line goes and when the bottom is free again; `last` is -1 before it was ever taken. */
  function Place(line: Line, last: int): (Line, int) {
    if !Movable(line) then (line, last)
    else if line.start.value < last then (PutAt(line, TOP), last)
    else (PutAt(line, BOTTOM), line.end.value)
  }

  function Positioned(lines: seq<Line>, last: int): (out: seq<Line>)
    ensures |out| == |lines|
  {
    if lines == [] then []
    else
      var (line, next) := Place(lines[0], last);
      [line] + Positioned(lines[1..], next)
  }

  method PositionDialogueCues(lines: array<Line>)
    modifies lines
    ensures lines[..] == Positioned(old(lines[..]), -1)
  {
    var last: int := -1;
    ghost var was := lines[..];
    for index := 0 to lines.Length
      invariant lines[index..] == was[index..]
      invariant lines[..index] + Positioned(was[index..], last) == Positioned(was, -1)
    {
      ghost var done, before, rest := lines[..index], last, lines[index + 1..];
      var line := lines[index];
      assert line == lines[index..][0] == was[index] && rest == lines[index..][1..] == was[index + 1..];
      if Movable(line) {
        if line.start.value < last {
          lines[index] := PutAt(line, TOP);
        } else {
          last := line.end.value;
          lines[index] := PutAt(line, BOTTOM);
        }
      }
      assert (lines[index], last) == Place(line, before);
      assert lines[..index + 1] == done + [lines[index]] && lines[index + 1..] == rest;
      PositionedStep(done, was[index..], before);
    }
  }

  lemma PositionedStep(done: seq<Line>, lines: seq<Line>, last: int)
    requires lines != []
    ensures var (line, next) := Place(lines[0], last);
            done + Positioned(lines, last) == (done + [line]) + Positioned(lines[1..], next)
  {
  }

  /** A cue this pass put at the bottom. */
  predicate AtBottom(lines: seq<Line>, last: int, k: nat)
    requires k < |lines|
  {
    Movable(lines[k]) && Positioned(lines, last)[k] == PutAt(lines[k], BOTTOM)
  }

  /** When the nearest bottom cue before `k` ends, or `last` if there is none. */
  function HeldUntil(lines: seq<Line>, last: int, k: nat): int
    requires k <= |lines|
  {
    if k == 0 then last
    else if AtBottom(lines, last, k - 1) then lines[k - 1].end.value
    else HeldUntil(lines, last, k - 1)
  }

  lemma {:induction false} HeldUntilTail(lines: seq<Line>, last: int, k: nat)
    requires 0 < k <= |lines|
    ensures HeldUntil(lines, last, k) ==
            HeldUntil(lines[1..], HeldUntil(lines, last, 1), k - 1)
  {
    if k > 1 {
      HeldUntilTail(lines, last, k - 1);
      assert lines[1..][k - 2] == lines[k - 1];
      TwoPlaces();
      assert Positioned(lines, last)[1..] == Positioned(lines[1..], HeldUntil(lines, last, 1));
    }
  }

  /**
   Every line on its own terms: what cannot move is kept as it was; what can goes to
   the top exactly when it starts before the nearest bottom cue above it has ended.
   */
  lemma {:induction false} PlacedByTheNearestBottom(lines: seq<Line>, last: int, k: nat)
    requires k < |lines|
    ensures Positioned(lines, last)[k] ==
            if !Movable(lines[k]) then lines[k]
            else PutAt(lines[k], if lines[k].start.value < HeldUntil(lines, last, k) then TOP else BOTTOM)
  {
    if k > 0 {
      HeldUntilTail(lines, last, k);
      TwoPlaces();
      PlacedByTheNearestBottom(lines[1..], HeldUntil(lines, last, 1), k - 1);
    }
  }

  /** Between these two lines no cue at the bottom ends before it starts. */
  predicate NoneBackwards(lines: seq<Line>, j: nat, k: nat)
    requires k <= |lines|
  {
    forall n | j < n < k && AtBottom(lines, -1, n) :: lines[n].start.value <= lines[n].end.value
  }

  /** No two bottom cues are up together, unless one between them ends before it starts. */
  lemma BottomsNeverOverlap(lines: seq<Line>, j: nat, k: nat)
    requires j < k < |lines| && NoneBackwards(lines, j, k)
    requires AtBottom(lines, -1, j) && AtBottom(lines, -1, k)
    ensures lines[j].end.value <= lines[k].start.value
  {
    HeldPast(lines, j, k);
    PlacedByTheNearestBottom(lines, -1, k);
    TwoPlaces();
  }

  lemma {:induction false} HeldPast(lines: seq<Line>, j: nat, k: nat)
    requires j < k <= |lines| && NoneBackwards(lines, j, k) && AtBottom(lines, -1, j)
    ensures lines[j].end.value <= HeldUntil(lines, -1, k)
  {
    if k > j + 1 {
      HeldPast(lines, j, k - 1);
      if AtBottom(lines, -1, k - 1) {
        PlacedByTheNearestBottom(lines, -1, k - 1);
        TwoPlaces();
      }
    }
  }

  function Cue(start: nat, end: nat): Line {
    Timing(Some(start), Some(end), [])
  }

  /** Such a cue frees the bottom while the one before it is still up. */
  lemma BackwardsCueLetsOverlap()
    ensures var lines := [Cue(0, 100), Cue(100, 50), Cue(60, 200)];
            AtBottom(lines, -1, 0) && AtBottom(lines, -1, 2) && lines[0].end.value > lines[2].start.value
  {
    var lines := [Cue(0, 100), Cue(100, 50), Cue(60, 200)];
    TwoPlaces();
    PlacedByTheNearestBottom(lines, -1, 0);
    PlacedByTheNearestBottom(lines, -1, 1);
    assert HeldUntil(lines, -1, 1) == 100;
    assert HeldUntil(lines, -1, 2) == 50;
    PlacedByTheNearestBottom(lines, -1, 2);
  }

  /** A second pass over what the first one wrote changes nothing, whatever came before it. */
  lemma {:induction false} Idempotent(lines: seq<Line>, last: int, again: int)
    ensures Positioned(Positioned(lines, last), again) == Positioned(lines, last)
  {
    if lines != [] {
      var out := Positioned(lines, last);
      var next := HeldUntil(lines, last, 1);
      assert HeldUntil(lines, last, 0) == last;
      TwoPlaces();
      assert out[1..] == Positioned(lines[1..], next);
      Idempotent(lines[1..], next, again);
    }
  }
}
