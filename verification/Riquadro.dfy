/**
 * The frame around the text being typed (cli/riquadro.ts): wrapping, borders, and the cell
 * the cursor belongs to. Colours are the identity and every character is one cell wide.
 */
module Riquadro {

  import opened Common

  const MAX_WIDTH := 100

  datatype Frame = Frame(prompt: string, hints: string, tag: string)

  /** 0-based row among `rows`, 1-based screen column. */
  datatype Cursor = Cursor(row: nat, column: nat)

  datatype Layout = Layout(rows: seq<string>, cursor: Cursor)

  function Spaces(n: nat): (s: string)
    ensures |s| == n && forall i | 0 <= i < n :: s[i] == ' '
  {
    seq(n, _ => ' ')
  }

  function Rule(n: nat): (s: string)
    ensures |s| == n && '\n' !in s
  {
    seq(n, _ => '─')
  }

  /** Cut every `w` characters; an empty line is still one visual row. */
  function Wrap(line: string, w: nat): (pieces: seq<string>)
    requires w > 0
    ensures |pieces| > 0
    decreases |line|
  {
    if |line| <= w then [line] else [line[..w]] + Wrap(line[w..], w)
  }

  method Spezza(line: string, w: int) returns (pieces: seq<string>)
    ensures pieces == if w <= 0 then [line] else Wrap(line, w)
  {
    if w <= 0 { return [line]; }
    if |line| == 0 { return [""]; }
    pieces := [];
    var i := 0;
    while i < |line|
      invariant 0 <= i
      invariant i < |line| ==> pieces + Wrap(line[i..], w) == Wrap(line, w)
      invariant i >= |line| ==> pieces == Wrap(line, w)
      decreases |line| - i
    {
      var end := Min(i + w, |line|);
      if i + w < |line| {
        assert line[i..][w..] == line[i + w..] && line[i..][..w] == line[i..end];
      } else {
        assert line[i..end] == line[i..] && Wrap(line[i..], w) == [line[i..]];
      }
      pieces := pieces + [line[i..end]];
      i := i + w;
    }
  }

  function Pad(s: string, w: nat): (p: string)
    ensures |p| == Max(|s|, w) && p[..|s|] == s
  {
    if |s| < w then s + Spaces(w - |s|) else s
  }

  function Outer(width: int): nat { Min(if width > 0 then width else 80, MAX_WIDTH) }

  function Inner(outer: nat, marker: nat): (w: nat)
    ensures w > 0
  {
    Max(1, outer - 4 - marker)
  }

  function Sign(frame: Frame, i: nat, j: nat): string {
    if i == 0 && j == 0 then frame.prompt else Spaces(|frame.prompt|)
  }

  function Boxed(frame: Frame, w: nat, i: nat, j: nat, piece: string): string {
    "│ " + Sign(frame, i, j) + Pad(piece, w) + " │"
  }

  function BoxedLine(frame: Frame, w: nat, i: nat, pieces: seq<string>): (rows: seq<string>)
    ensures |rows| == |pieces|
  {
    seq(|pieces|, j requires 0 <= j < |pieces| => Boxed(frame, w, i, j, pieces[j]))
  }

  function Top(frame: Frame, outer: nat): string
    requires outer >= 2
  {
    if frame.tag == "" then "╭" + Rule(outer - 2) + "╮"
    else "╭─ " + frame.tag + " " + Rule(Max(0, outer - 5 - |frame.tag|)) + "╮"
  }

  function Bottom(outer: nat): string
    requires outer >= 2
  {
    "╰" + Rule(outer - 2) + "╯"
  }

  /** The visual rows of the first `n` logical lines. */
  function Body(frame: Frame, w: nat, lines: seq<string>, n: nat): seq<string>
    requires w > 0 && n <= |lines|
  {
    if n == 0 then [] else Body(frame, w, lines, n - 1) + BoxedLine(frame, w, n - 1, Wrap(lines[n - 1], w))
  }

  function Height(lines: seq<string>, w: nat, n: nat): nat
    requires w > 0 && n <= |lines|
  {
    if n == 0 then 0 else Height(lines, w, n - 1) + |Wrap(lines[n - 1], w)|
  }

  /** Which of a line's `n` visual rows holds the column: one past the last full row stays on it. */
  function Inside(col: nat, w: nat, n: nat): (k: nat)
    requires w > 0 && n > 0
    ensures k < n && k <= col / w
  {
    Min(col / w, n - 1)
  }

  /** 1-based: the border, a space and the marker come first. */
  function Column(marker: nat, col: nat, w: nat, k: nat): (c: nat)
    requires w > 0 && k <= col / w
    ensures c > marker + 2
  {
    Times(k, col / w, w);
    2 + marker + (col - k * w) + 1
  }

  lemma Times(a: nat, b: nat, w: nat)
    requires a <= b
    ensures a * w <= b * w
  {
  }

  /** The screen cell of a logical position. */
  function CellOf(lines: seq<string>, row: nat, col: nat, marker: nat, w: nat): Cursor
    requires w > 0 && row < |lines|
  {
    var k := Inside(col, w, |Wrap(lines[row], w)|);
    Cursor(1 + Height(lines, w, row) + k, Column(marker, col, w, k))
  }

  /** `None` is the RangeError of repeating a character a negative number of times. */
  function Laid(lines: seq<string>, row: nat, col: nat, frame: Frame, width: int): Option<Layout> {
    var outer := Outer(width);
    var w := Inner(outer, |frame.prompt|);
    if outer < 2 then None
    else
      Some(Layout([Top(frame, outer)] + Body(frame, w, lines, |lines|) + [Bottom(outer)]
                  + (if frame.hints != "" then ["  " + frame.hints] else []),
                  if row < |lines| then CellOf(lines, row, col, |frame.prompt|, w) else Cursor(0, 1)))
  }

  method PushPieces(out: seq<string>, frame: Frame, w: nat, i: nat, pieces: seq<string>) returns (out': seq<string>)
    ensures out' == out + BoxedLine(frame, w, i, pieces)
  {
    out' := out;
    var j := 0;
    while j < |pieces|
      invariant 0 <= j <= |pieces|
      invariant out' == out + BoxedLine(frame, w, i, pieces)[..j]
    {
      out' := out' + [Boxed(frame, w, i, j, pieces[j])];
      j := j + 1;
    }
  }

  /** One turn of the layout loop: the rows of line `i`, and the cursor if it is there. */
  method LayLine(lines: seq<string>, i: nat, row: nat, col: nat, frame: Frame, w: nat, out: seq<string>, cursor: Cursor)
    returns (out': seq<string>, cursor': Cursor)
    requires w > 0 && i < |lines| && |out| == 1 + Height(lines, w, i)
    ensures out' == out + BoxedLine(frame, w, i, Wrap(lines[i], w)) && |out'| == 1 + Height(lines, w, i + 1)
    ensures cursor' == if i == row then CellOf(lines, row, col, |frame.prompt|, w) else cursor
  {
    var pieces := Spezza(lines[i], w);
    out' := PushPieces(out, frame, w, i, pieces);
    cursor' := cursor;
    if i == row {
      var k := Inside(col, w, |pieces|);
      cursor' := Cursor(|out'| - |pieces| + k, Column(|frame.prompt|, col, w, k));
    }
  }

  lemma BodyNext(frame: Frame, w: nat, lines: seq<string>, i: nat, top: string)
    requires w > 0 && i < |lines|
    ensures [top] + Body(frame, w, lines, i + 1) == [top] + Body(frame, w, lines, i) + BoxedLine(frame, w, i, Wrap(lines[i], w))
  {
  }

  method LayLines(lines: seq<string>, row: nat, col: nat, frame: Frame, w: nat, top: string, ghost cell: Cursor)
    returns (out: seq<string>, cursor: Cursor)
    requires w > 0 && (row < |lines| ==> cell == CellOf(lines, row, col, |frame.prompt|, w))
    ensures out == [top] + Body(frame, w, lines, |lines|)
    ensures cursor == if row < |lines| then cell else Cursor(0, 1)
  {
    out := [top];
    cursor := Cursor(0, 1);
    var i := 0;
    while i < |lines|
      invariant 0 <= i <= |lines|
      invariant out == [top] + Body(frame, w, lines, i) && |out| == 1 + Height(lines, w, i)
      invariant cursor == if row < i then cell else Cursor(0, 1)
    {
      BodyNext(frame, w, lines, i, top);
      out, cursor := LayLine(lines, i, row, col, frame, w, out, cursor);
      i := i + 1;
    }
  }

  method Disponi(lines: seq<string>, row: nat, col: nat, frame: Frame, width: int) returns (d: Option<Layout>)
    ensures d == Laid(lines, row, col, frame, width)
  {
    var outer := Outer(width);
    var w := Inner(outer, |frame.prompt|);
    if outer < 2 { return None; }
    ghost var cell := if row < |lines| then CellOf(lines, row, col, |frame.prompt|, w) else Cursor(0, 1);
    var out, cursor := LayLines(lines, row, col, frame, w, Top(frame, outer), cell);
    out := out + [Bottom(outer)];
    if frame.hints != "" {
      out := out + ["  " + frame.hints];
    } else {
      assert out + [] == out;
    }
    d := Some(Layout(out, cursor));
  }

  /** One visual row of the opening header, without a marker. */
  function HeaderRow(piece: string, w: int): string { "│ " + Pad(piece, Max(0, w)) + " │" }

  /** The header's inner rows: a width of zero or less wraps nothing. */
  function HeaderRows(pieces: seq<string>, w: int): seq<string> {
    seq(|pieces|, i requires 0 <= i < |pieces| => HeaderRow(pieces[i], w))
  }

  function Pieces(lines: seq<string>, w: int): seq<string> {
    if lines == [] then [] else (if w <= 0 then [lines[0]] else Wrap(lines[0], w)) + Pieces(lines[1..], w)
  }

  function Header(lines: seq<string>, width: int): Option<seq<string>> {
    var outer := Outer(width);
    if outer < 2 then None
    else Some(["╭" + Rule(outer - 2) + "╮"] + HeaderRows(Pieces(lines, outer - 4), outer - 4) + [Bottom(outer)])
  }
}
