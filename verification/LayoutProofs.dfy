/** What the framed layout guarantees (cli/riquadro.ts), and what it shows of the editor. */
module LayoutProofs {

  import opened Common
  import opened Riquadro
  import E = Editor
  import T = FlatText
  import F = Fondo

  /** A logical place: inside the text, the end of its line included. */
  predicate Placed(lines: seq<string>, row: nat, col: nat) { row < |lines| && col <= |lines[row]| }

  // ---- Wrapping -------------------------------------------------------------------------

  function Concat(pieces: seq<string>): string {
    if pieces == [] then "" else pieces[0] + Concat(pieces[1..])
  }

  /** Wrapping loses nothing, fits the width, and cuts only at multiples of it. */
  lemma {:induction false} WrapFits(line: string, w: nat)
    requires w > 0
    ensures Concat(Wrap(line, w)) == line
    ensures forall j | 0 <= j < |Wrap(line, w)| :: |Wrap(line, w)[j]| <= w && (j < |Wrap(line, w)| - 1 ==> |Wrap(line, w)[j]| == w)
    ensures |line| > 0 ==> forall j | 0 <= j < |Wrap(line, w)| :: |Wrap(line, w)[j]| > 0
    decreases |line|
  {
    var p := Wrap(line, w);
    if |line| <= w {
      assert p[1..] == [] && Concat(p) == p[0] + "";
    } else {
      WrapFits(line[w..], w);
      assert p[1..] == Wrap(line[w..], w);
      assert forall j | 1 <= j < |p| :: p[j] == Wrap(line[w..], w)[j - 1];
    }
  }

  /** Character `col` stands in piece `col / w`, at `col % w`. */
  lemma {:induction false} WrapAt(line: string, w: nat, col: nat)
    requires w > 0 && col < |line|
    ensures col / w < |Wrap(line, w)| && col % w < |Wrap(line, w)[col / w]| && Wrap(line, w)[col / w][col % w] == line[col]
    decreases |line|
  {
    if |line| > w {
      if col >= w {
        WrapAt(line[w..], w, col - w);
        DivLess(col, w);
        assert Wrap(line, w)[col / w] == Wrap(line[w..], w)[col / w - 1];
      } else {
        DivSmall(col, w);
      }
    } else {
      DivSmall(col, w);
    }
  }

  lemma DivUnique(a: nat, w: nat, q: nat, r: nat)
    requires w > 0 && a == q * w + r && r < w
    ensures a / w == q && a % w == r
  {
    var p := a / w;
    assert a == p * w + a % w;
    assert (p + 1) * w == p * w + w && (q + 1) * w == q * w + w;
    if p < q { Times(p + 1, q, w); } else if q < p { Times(q + 1, p, w); }
  }

  lemma DivLess(a: nat, w: nat)
    requires w > 0 && a >= w
    ensures a / w == (a - w) / w + 1 && a % w == (a - w) % w
  {
    var q, r := (a - w) / w, (a - w) % w;
    assert a - w == q * w + r;
    assert (q + 1) * w == q * w + w;
    DivUnique(a, w, q + 1, r);
  }

  lemma DivSmall(a: nat, w: nat)
    requires w > 0 && a < w
    ensures a / w == 0 && a % w == a
  {
  }

  /** The last piece ends where the line does. */
  lemma {:induction false} WrapLength(line: string, w: nat)
    requires w > 0
    ensures |line| == (|Wrap(line, w)| - 1) * w + |Wrap(line, w)[|Wrap(line, w)| - 1]|
    decreases |line|
  {
    if |line| > w { WrapLength(line[w..], w); }
  }

  // ---- Rows ---------------------------------------------------------------------------------

  lemma {:induction false} BodyHeight(frame: Frame, w: nat, lines: seq<string>, n: nat)
    requires w > 0 && n <= |lines|
    ensures |Body(frame, w, lines, n)| == Height(lines, w, n)
    decreases n
  {
    if n > 0 { BodyHeight(frame, w, lines, n - 1); }
  }

  lemma {:induction false} HeightGrows(lines: seq<string>, w: nat, m: nat, n: nat)
    requires w > 0 && m < n <= |lines|
    ensures Height(lines, w, m) + |Wrap(lines[m], w)| <= Height(lines, w, n)
    decreases n
  {
    if m < n - 1 { HeightGrows(lines, w, m, n - 1); }
  }

  lemma Nth(a: seq<string>, b: seq<string>, k: nat)
    requires k < |b|
    ensures (a + b)[|a| + k] == b[k]
  {
  }

  lemma BoxedAt(frame: Frame, w: nat, i: nat, pieces: seq<string>, k: nat)
    requires k < |pieces|
    ensures BoxedLine(frame, w, i, pieces)[k] == Boxed(frame, w, i, k, pieces[k])
  {
  }

  lemma BodyLast(frame: Frame, w: nat, lines: seq<string>, row: nat, k: nat)
    requires w > 0 && row < |lines| && k < |Wrap(lines[row], w)|
    ensures Height(lines, w, row) + k < |Body(frame, w, lines, row + 1)|
    ensures Body(frame, w, lines, row + 1)[Height(lines, w, row) + k] == Boxed(frame, w, row, k, Wrap(lines[row], w)[k])
  {
    var above, rows := Body(frame, w, lines, row), BoxedLine(frame, w, row, Wrap(lines[row], w));
    BodyHeight(frame, w, lines, row);
    Nth(above, rows, k);
    BoxedAt(frame, w, row, Wrap(lines[row], w), k);
  }

  /** The `k`-th visual row of logical line `row`. */
  lemma {:induction false} BodyAt(frame: Frame, w: nat, lines: seq<string>, n: nat, row: nat, k: nat)
    requires w > 0 && row < n <= |lines| && k < |Wrap(lines[row], w)|
    ensures Height(lines, w, row) + k < |Body(frame, w, lines, n)|
    ensures Body(frame, w, lines, n)[Height(lines, w, row) + k] == Boxed(frame, w, row, k, Wrap(lines[row], w)[k])
    decreases n
  {
    if row == n - 1 {
      BodyLast(frame, w, lines, row, k);
    } else {
      var above := Body(frame, w, lines, n - 1);
      BodyAt(frame, w, lines, n - 1, row, k);
      Early(above, BoxedLine(frame, w, n - 1, Wrap(lines[n - 1], w)), Height(lines, w, row) + k);
    }
  }

  lemma Early(a: seq<string>, b: seq<string>, i: nat)
    requires i < |a|
    ensures (a + b)[i] == a[i]
  {
  }

  /** Every visual row of the box belongs to some piece of some line. */
  lemma {:induction false} BodyOwner(frame: Frame, w: nat, lines: seq<string>, n: nat, i: nat) returns (row: nat, k: nat)
    requires w > 0 && n <= |lines| && i < |Body(frame, w, lines, n)|
    ensures row < n && k < |Wrap(lines[row], w)| && i == Height(lines, w, row) + k
    decreases n
  {
    BodyHeight(frame, w, lines, n - 1);
    if i < |Body(frame, w, lines, n - 1)| {
      row, k := BodyOwner(frame, w, lines, n - 1, i);
    } else {
      row, k := n - 1, i - |Body(frame, w, lines, n - 1)|;
    }
  }

  /** Every visual row is as wide as the text, the marker and the two borders. */
  lemma BodyRowWidth(frame: Frame, w: nat, lines: seq<string>, i: nat)
    requires w > 0 && i < |Body(frame, w, lines, |lines|)|
    ensures |Body(frame, w, lines, |lines|)[i]| == 4 + |frame.prompt| + w
  {
    var r, k := BodyOwner(frame, w, lines, |lines|, i);
    BodyAt(frame, w, lines, |lines|, r, k);
    WrapFits(lines[r], w);
    BoxedWidth(frame, w, r, k, Wrap(lines[r], w)[k]);
  }

  lemma BodyRowPlain(frame: Frame, w: nat, lines: seq<string>, i: nat)
    requires w > 0 && i < |Body(frame, w, lines, |lines|)|
    requires '\n' !in frame.prompt && forall r | 0 <= r < |lines| :: '\n' !in lines[r]
    ensures '\n' !in Body(frame, w, lines, |lines|)[i]
  {
    var r, k := BodyOwner(frame, w, lines, |lines|, i);
    BodyAt(frame, w, lines, |lines|, r, k);
    PieceOfLine(lines[r], w, k);
  }

  function Lay(lines: seq<string>, row: nat, col: nat, frame: Frame, width: int): Layout
    requires Outer(width) >= 2
  {
    Laid(lines, row, col, frame, width).value
  }

  /** A terminal one column wide is the one case that throws. */
  lemma ThrowsOnOneColumn(lines: seq<string>, row: nat, col: nat, frame: Frame, width: int)
    ensures Laid(lines, row, col, frame, width).None? <==> width == 1
  {
  }

  /** The row under the cursor is its piece of its line. */
  lemma CursorRow(lines: seq<string>, row: nat, col: nat, frame: Frame, width: int)
    requires Outer(width) >= 2 && Placed(lines, row, col)
    ensures var w := Inner(Outer(width), |frame.prompt|);
            var k := Inside(col, w, |Wrap(lines[row], w)|);
            var d := Lay(lines, row, col, frame, width);
            && d.cursor.row == 1 + Height(lines, w, row) + k
            && 1 <= d.cursor.row <= Height(lines, w, |lines|) && Height(lines, w, |lines|) + 1 < |d.rows|
            && d.rows[d.cursor.row] == Boxed(frame, w, row, k, Wrap(lines[row], w)[k])
  {
    var w := Inner(Outer(width), |frame.prompt|);
    var k := Inside(col, w, |Wrap(lines[row], w)|);
    BodyAt(frame, w, lines, |lines|, row, k);
    BodyHeight(frame, w, lines, |lines|);
  }

  lemma BoxedWidth(frame: Frame, w: nat, i: nat, j: nat, piece: string)
    requires |piece| <= w
    ensures |Boxed(frame, w, i, j, piece)| == 4 + |frame.prompt| + w
    ensures forall c | 0 <= c < |piece| :: Boxed(frame, w, i, j, piece)[2 + |frame.prompt| + c] == piece[c]
  {
    var s, p := Sign(frame, i, j), Pad(piece, w);
    assert |s| == |frame.prompt|;
    forall c | 0 <= c < |piece| ensures Boxed(frame, w, i, j, piece)[2 + |frame.prompt| + c] == piece[c] {
      assert p[..|piece|][c] == p[c];
    }
  }

  lemma InsideLine(line: string, col: nat, w: nat)
    requires w > 0 && col < |line|
    ensures Inside(col, w, |Wrap(line, w)|) == col / w && (col / w) * w + col % w == col && col % w < |Wrap(line, w)[col / w]|
  {
    WrapAt(line, w, col);
  }

  /** A length as full rows and a rest of at most one more, divided by the width. */
  lemma LastRow(length: nat, w: nat, n: nat, last: nat)
    requires w > 0 && n > 0 && length == (n - 1) * w + last && last <= w
    ensures length / w == if last < w then n - 1 else n
  {
    if last < w {
      DivUnique(length, w, n - 1, last);
    } else {
      assert length == n * w + 0;
      DivUnique(length, w, n, 0);
    }
  }

  /** At the end of a line the cursor stands right after its last piece. */
  lemma AtLineEnd(line: string, w: nat)
    requires w > 0
    ensures var n := |Wrap(line, w)|; Inside(|line|, w, n) == n - 1 && |line| == (n - 1) * w + |Wrap(line, w)[n - 1]|
  {
    WrapLength(line, w);
    WrapFits(line, w);
    var n := |Wrap(line, w)|;
    LastRow(|line|, w, n, |Wrap(line, w)[n - 1]|);
  }

  /** How far into its visual row a column stands: up to one past a full row's last character. */
  lemma InsideOffset(line: string, col: nat, w: nat)
    requires w > 0 && col <= |line|
    ensures var k := Inside(col, w, |Wrap(line, w)|); k * w <= col <= k * w + |Wrap(line, w)[k]|
  {
    if col < |line| { InsideLine(line, col, w); } else { AtLineEnd(line, w); }
  }

  /** The cursor is always strictly between the borders of its own row. */
  lemma CursorInside(lines: seq<string>, row: nat, col: nat, frame: Frame, width: int)
    requires Outer(width) >= 2 && Placed(lines, row, col)
    ensures var d := Lay(lines, row, col, frame, width);
            && 0 < d.cursor.row <= Height(lines, Inner(Outer(width), |frame.prompt|), |lines|) < |d.rows| - 1
            && 1 < d.cursor.column < |d.rows[d.cursor.row]|
  {
    var w := Inner(Outer(width), |frame.prompt|);
    var k := Inside(col, w, |Wrap(lines[row], w)|);
    CursorRow(lines, row, col, frame, width);
    InsideOffset(lines[row], col, w);
    WrapFits(lines[row], w);
    BoxedWidth(frame, w, row, k, Wrap(lines[row], w)[k]);
  }

  /** The piece a column before the line's end falls in, and its place there. */
  lemma PieceShows(line: string, col: nat, w: nat)
    requires w > 0 && col < |line|
    ensures var k := Inside(col, w, |Wrap(line, w)|);
            && k < |Wrap(line, w)| && |Wrap(line, w)[k]| <= w
            && 0 <= col - k * w < |Wrap(line, w)[k]| && Wrap(line, w)[k][col - k * w] == line[col]
  {
    InsideLine(line, col, w);
    WrapAt(line, w, col);
    WrapFits(line, w);
  }

  lemma CursorColumn(lines: seq<string>, row: nat, col: nat, frame: Frame, width: int)
    requires Outer(width) >= 2 && Placed(lines, row, col)
    ensures var w := Inner(Outer(width), |frame.prompt|);
            var k := Inside(col, w, |Wrap(lines[row], w)|);
            Lay(lines, row, col, frame, width).cursor.column == 3 + |frame.prompt| + (col - k * w)
  {
  }

  /** A framed row holds its piece's characters at the columns after the marker. */
  lemma BoxedShows(frame: Frame, w: nat, i: nat, j: nat, piece: string, at: int, ch: char)
    requires |piece| <= w && 0 <= at < |piece| && piece[at] == ch
    ensures 2 + |frame.prompt| + at < |Boxed(frame, w, i, j, piece)| && Boxed(frame, w, i, j, piece)[2 + |frame.prompt| + at] == ch
  {
    BoxedWidth(frame, w, i, j, piece);
  }

  // ---- What the frame looks like --------------------------------------------------------

  /** The box is as wide as the terminal, up to a hundred columns; eighty when the width is unknown. */
  lemma OuterIs(width: int)
    ensures Outer(width) == if width <= 0 then 80 else if width > 100 then 100 else width
  {
  }

  predicate TopIs(top: string, tag: string) {
    && |top| >= 2 && top[0] == '╭' && top[|top| - 1] == '╮'
    && (tag == "" ==> forall c | 0 < c < |top| - 1 :: top[c] == '─')
    && (tag != "" ==> |top| > 4 + |tag| && top[..4 + |tag|] == "╭─ " + tag + " " && forall c | 4 + |tag| <= c < |top| - 1 :: top[c] == '─')
  }

  predicate BottomIs(bottom: string, outer: nat) {
    outer >= 2 && |bottom| == outer && bottom[0] == '╰' && bottom[outer - 1] == '╯' && forall c | 0 < c < outer - 1 :: bottom[c] == '─'
  }

  /** The borders: rounded corners, a rule, and the label after the first dash of the top one. */
  lemma BordersAre(lines: seq<string>, row: nat, col: nat, frame: Frame, width: int)
    requires Outer(width) >= 2
    ensures var d, outer := Lay(lines, row, col, frame, width), Outer(width);
            var n := Height(lines, Inner(outer, |frame.prompt|), |lines|);
            && |d.rows| == n + 2 + (if frame.hints == "" then 0 else 1) && (frame.hints != "" ==> d.rows[n + 2] == "  " + frame.hints)
            && TopIs(d.rows[0], frame.tag) && BottomIs(d.rows[n + 1], outer)
  {
    BodyHeight(frame, Inner(Outer(width), |frame.prompt|), lines, |lines|);
  }

  /** Between its bars: the prompt on the first row or blanks of its width, the piece, and blanks. */
  predicate RowIs(b: string, prompt: string, first: bool, piece: string, w: nat) {
    var m := |prompt|;
    && |piece| <= w && |b| == 4 + m + w && b[..2] == "│ " && b[2 + m + w..] == " │"
    && (first ==> b[2..2 + m] == prompt) && (!first ==> forall c | 2 <= c < 2 + m :: b[c] == ' ')
    && b[2 + m..2 + m + |piece|] == piece && (forall c | 2 + m + |piece| <= c < 2 + m + w :: b[c] == ' ')
  }

  lemma BoxedIs(frame: Frame, w: nat, i: nat, j: nat, piece: string)
    requires |piece| <= w
    ensures RowIs(Boxed(frame, w, i, j, piece), frame.prompt, i == 0 && j == 0, piece, w)
  {
    var s, p := Sign(frame, i, j), Pad(piece, w);
    assert |s| == |frame.prompt| && |p| == w && p[..|piece|] == piece;
    assert Boxed(frame, w, i, j, piece) == "│ " + s + p + " │";
  }

  /** Every visual row of the layout is such a row, the prompt on the very first alone. */
  lemma RowsAre(lines: seq<string>, row: nat, col: nat, frame: Frame, width: int, r: nat, k: nat)
    requires Outer(width) >= 2 && r < |lines| && k < |Wrap(lines[r], Inner(Outer(width), |frame.prompt|))|
    ensures var w := Inner(Outer(width), |frame.prompt|);
            var rows, at := Lay(lines, row, col, frame, width).rows, 1 + Height(lines, w, r) + k;
            at < |rows| && RowIs(rows[at], frame.prompt, r == 0 && k == 0, Wrap(lines[r], w)[k], w)
  {
    var w := Inner(Outer(width), |frame.prompt|);
    BodyAt(frame, w, lines, |lines|, r, k);
    BodyHeight(frame, w, lines, |lines|);
    WrapFits(lines[r], w);
    BoxedIs(frame, w, r, k, Wrap(lines[r], w)[k]);
  }

  /** The header's rows carry no marker. */
  lemma HeaderRowIs(piece: string, w: nat)
    requires |piece| <= w
    ensures RowIs(HeaderRow(piece, w), "", true, piece, w)
  {
    var p := Pad(piece, w);
    assert p[..|piece|] == piece && HeaderRow(piece, w) == "│ " + p + " │";
  }

  /** Before the end of the line, the cell under the cursor holds exactly the character there. */
  lemma CellShowsCharacter(lines: seq<string>, row: nat, col: nat, frame: Frame, width: int)
    requires Outer(width) >= 2 && row < |lines| && col < |lines[row]|
    ensures var d := Lay(lines, row, col, frame, width);
            && d.cursor.row < |d.rows| && 1 <= d.cursor.column <= |d.rows[d.cursor.row]|
            && d.rows[d.cursor.row][d.cursor.column - 1] == lines[row][col]
  {
    var w := Inner(Outer(width), |frame.prompt|);
    var k := Inside(col, w, |Wrap(lines[row], w)|);
    CursorRow(lines, row, col, frame, width);
    CursorColumn(lines, row, col, frame, width);
    PieceShows(lines[row], col, w);
    BoxedShows(frame, w, row, k, Wrap(lines[row], w)[k], col - k * w, lines[row][col]);
  }

  /** Two places never share a cell. */
  lemma CellInjective(lines: seq<string>, row: nat, col: nat, row': nat, col': nat, marker: nat, w: nat)
    requires w > 0 && Placed(lines, row, col) && Placed(lines, row', col')
    requires CellOf(lines, row, col, marker, w) == CellOf(lines, row', col', marker, w)
    ensures row == row' && col == col'
  {
    var k, k' := Inside(col, w, |Wrap(lines[row], w)|), Inside(col', w, |Wrap(lines[row'], w)|);
    if row < row' {
      HeightGrows(lines, w, row, row');
    } else if row' < row {
      HeightGrows(lines, w, row', row);
    }
    assert row == row' && k == k';
  }

  /** A top, some rows of one width, and a bottom. */
  lemma AllOneWidth(rows: seq<string>, n: nat, mid: int, outer: int)
    requires 1 <= n && n + 1 < |rows| && |rows[n + 1]| == outer
    requires forall i | 1 <= i <= n :: |rows[i]| == mid
    ensures (forall i | 0 <= i <= n + 1 :: |rows[i]| == outer) <==> |rows[0]| == outer && mid == outer
  {
    assert |rows[1]| == mid;
  }

  /** All framed rows are as wide as the borders exactly when the frame has room for its marker and its tag. */
  lemma EqualWidths(lines: seq<string>, row: nat, col: nat, frame: Frame, width: int)
    requires Outer(width) >= 2 && Placed(lines, row, col)
    ensures var d := Lay(lines, row, col, frame, width);
            var n := Height(lines, Inner(Outer(width), |frame.prompt|), |lines|);
            && n + 1 < |d.rows|
            && ((forall i | 0 <= i <= n + 1 :: |d.rows[i]| == Outer(width))
                <==> Outer(width) >= 5 + |frame.prompt| && (frame.tag != "" ==> Outer(width) >= 5 + |frame.tag|))
  {
    var d, outer := Lay(lines, row, col, frame, width), Outer(width);
    var w := Inner(outer, |frame.prompt|);
    var n := Height(lines, w, |lines|);
    BodyHeight(frame, w, lines, |lines|);
    CursorRow(lines, row, col, frame, width);
    assert d.rows[0] == Top(frame, outer) && d.rows[n + 1] == Bottom(outer);
    assert |Top(frame, outer)| == if frame.tag == "" then outer else Max(outer, 5 + |frame.tag|);
    forall i | 1 <= i <= n ensures |d.rows[i]| == 4 + |frame.prompt| + w {
      BodyRowWidth(frame, w, lines, i - 1);
    }
    assert 1 <= d.cursor.row <= n;
    AllOneWidth(d.rows, n, 4 + |frame.prompt| + w, outer);
  }

  lemma {:induction false} PiecesFit(lines: seq<string>, w: int)
    ensures w > 0 ==> forall i | 0 <= i < |Pieces(lines, w)| :: |Pieces(lines, w)[i]| <= w
    ensures w <= 0 ==> Pieces(lines, w) == lines
    decreases |lines|
  {
    if lines != [] {
      PiecesFit(lines[1..], w);
      if w > 0 {
        WrapFits(lines[0], w);
        var a, b := Wrap(lines[0], w), Pieces(lines[1..], w);
        assert forall i | 0 <= i < |a + b| :: (a + b)[i] == if i < |a| then a[i] else b[i - |a|];
      }
    }
  }

  lemma HeaderLengths(lines: seq<string>, width: int)
    requires Outer(width) >= 2
    ensures var rows, pieces, w: int := Header(lines, width).value, Pieces(lines, Outer(width) - 4), Outer(width) - 4;
            && |rows| == |pieces| + 2 && |rows[0]| == Outer(width) && |rows[|pieces| + 1]| == Outer(width)
            && forall i | 0 <= i < |pieces| :: |rows[i + 1]| == 4 + Max(|pieces[i]|, Max(0, w))
  {
    var rows, w: int := Header(lines, width).value, Outer(width) - 4;
    var pieces := Pieces(lines, w);
    var inner := HeaderRows(pieces, w);
    forall i | 0 <= i < |pieces| ensures |rows[i + 1]| == 4 + Max(|pieces[i]|, Max(0, w)) {
      assert rows[i + 1] == inner[i];
    }
  }

  /** The header is a rectangle exactly when a column is left for the text, or there is none to show. */
  lemma HeaderWidths(lines: seq<string>, width: int)
    requires Outer(width) >= 2
    ensures var rows := Header(lines, width).value;
            (forall i | 0 <= i < |rows| :: |rows[i]| == Outer(width))
            <==> Outer(width) >= 5 || (forall i | 0 <= i < |lines| :: Outer(width) == 4 && lines[i] == "")
  {
    var rows, outer: int := Header(lines, width).value, Outer(width);
    var pieces := Pieces(lines, outer - 4);
    PiecesFit(lines, outer - 4);
    HeaderLengths(lines, width);
    if forall i | 0 <= i < |rows| :: |rows[i]| == outer {
      forall i | 0 <= i < |pieces| ensures 4 + Max(|pieces[i]|, Max(0, outer - 4)) == outer {
        assert |rows[i + 1]| == outer;
      }
    }
    if outer >= 5 || forall i | 0 <= i < |lines| :: outer == 4 && lines[i] == "" {
      forall i | 0 <= i < |rows| ensures |rows[i]| == outer {
        if 1 <= i <= |pieces| { assert |rows[i - 1 + 1]| == 4 + Max(|pieces[i - 1]|, Max(0, outer - 4)); }
      }
    }
  }

  // ---- With the editor and the fixed bottom ---------------------------------------------------

  function Shown(s: E.State, frame: Frame, width: int): Layout
    requires Outer(width) >= 2
  {
    Lay(s.lines, s.row, s.col, frame, width)
  }

  /** The cell under the cursor shows the character Ctrl+D would delete. */
  lemma CursorOnNextCharacter(s: E.State, frame: Frame, width: int)
    requires E.Valid(s) && Outer(width) >= 2 && E.Delete(s) != s
    ensures var d, f := Shown(s, frame, width), T.Flatten(s);
            && f.after != "" && f.before + f.after[1..] == T.Flatten(E.Delete(s)).before + T.Flatten(E.Delete(s)).after
            && d.cursor.row < |d.rows| && 1 <= d.cursor.column <= |d.rows[d.cursor.row]|
            && d.rows[d.cursor.row][d.cursor.column - 1] == f.after[0]
  {
    CellShowsCharacter(s.lines, s.row, s.col, frame, width);
    T.DeleteFlat(s);
  }

  predicate PlainFrame(frame: Frame) { '\n' !in frame.prompt && '\n' !in frame.hints && '\n' !in frame.tag }

  /** Every reachable editor state, laid out, is something the fixed bottom can draw. */
  lemma LayoutIsDrawable(s: E.State, frame: Frame, width: int, f: F.Fixed)
    requires E.Valid(s) && Outer(width) >= 2 && PlainFrame(frame) && |Shown(s, frame, width).rows| < |f.s.rows|
    ensures var d := Shown(s, frame, width); F.Drawable(f, d.rows, Some(F.Place(d.cursor.row, d.cursor.column)))
  {
    var d, outer := Shown(s, frame, width), Outer(width);
    var w := Inner(outer, |frame.prompt|);
    CursorInside(s.lines, s.row, s.col, frame, width);
    BodyHeight(frame, w, s.lines, |s.lines|);
    forall i | 0 <= i < |d.rows| ensures '\n' !in d.rows[i] {
      if 1 <= i <= |Body(frame, w, s.lines, |s.lines|)| {
        BodyRowPlain(frame, w, s.lines, i - 1);
      }
    }
  }

  /** Drawn in the fixed bottom, an editor state has under the terminal's cursor the character Ctrl+D would delete. */
  lemma DrawnCursorShowsNext(s: E.State, frame: Frame, width: int, f: F.Fixed)
    requires E.Valid(s) && Outer(width) >= 2 && PlainFrame(frame) && |Shown(s, frame, width).rows| < |f.s.rows| && F.Fits(f) && f.open
    ensures var d := Shown(s, frame, width); var caret := Some(F.Place(d.cursor.row, d.cursor.column));
            && F.Drawable(f, d.rows, caret) && var g := F.Drawn(f, d.rows, caret).s;
            && g.cursor.r < |g.rows| && d.cursor.row < |d.rows| && g.rows[g.cursor.r] == d.rows[d.cursor.row]
            && (s.col < |E.Line(s)| ==> g.cursor.c < |g.rows[g.cursor.r]| && g.rows[g.cursor.r][g.cursor.c] == E.Line(s)[s.col])
  {
    var d := Shown(s, frame, width);
    var caret := Some(F.Place(d.cursor.row, d.cursor.column));
    LayoutIsDrawable(s, frame, width, f);
    var g := F.Drawn(f, d.rows, caret).s;
    assert g.rows[|f.s.rows| - |d.rows|..][d.cursor.row] == g.rows[g.cursor.r];
    if s.col < |E.Line(s)| { CellShowsCharacter(s.lines, s.row, s.col, frame, width); }
  }

  lemma {:induction false} PieceOfLine(line: string, w: nat, k: nat)
    requires w > 0 && k < |Wrap(line, w)| && '\n' !in line
    ensures '\n' !in Wrap(line, w)[k]
    decreases |line|
  {
    if |line| > w && k > 0 {
      assert Wrap(line, w)[k] == Wrap(line[w..], w)[k - 1];
      PieceOfLine(line[w..], w, k - 1);
    }
  }
}
