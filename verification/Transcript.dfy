/**
 * What the fixed bottom promises (cli/fondo.ts, the three rules of its header): the text
 * above the box is only ever extended at its end, and the box only by drawing it.
 */
module Transcript {

  import opened Common
  import opened Terminal
  import opened Fondo

  /** Scrollback followed by the region, up to the row being written. */
  function Transcript(f: Fixed): (t: seq<string>)
    requires Fits(f) && f.open
    ensures |t| > 0
  {
    f.s.scrollback + f.s.rows[..Row(f) + 1]
  }

  function BoxRows(f: Fixed): seq<string>
    requires Fits(f) && f.open
  {
    f.s.rows[|f.s.rows| - f.k..]
  }

  predicate BlankRows(rows: seq<string>, from: int, to: int)
    requires 0 <= from && to <= |rows|
  {
    forall i | from <= i < to :: rows[i] == ""
  }

  /** The next character printed lands right after the text: rule 1, and column 1 after a box. */
  predicate Ready(s: Screen, row: nat, column: nat)
    requires Sane(s)
  {
    row <= s.bottom && |s.rows[row]| == column && BlankRows(s.rows, row + 1, s.bottom + 1)
  }

  predicate Good(f: Fixed) {
    && Fits(f) && f.open && Ready(f.s, Row(f), if f.caret.None? then f.s.cursor.c else 0)
    // In the box the cursor is where the last draw wanted it.
    && (f.caret.Some? ==> f.caret.value.column >= 1
                          && f.s.cursor == Cell(|f.s.rows| - f.k + f.caret.value.row, f.caret.value.column - 1))
  }

  /** Text printed at the end of a list of lines. */
  function Appended(t: seq<string>, text: string): (t': seq<string>)
    requires |t| > 0
    ensures |t'| >= |t|
    decreases |text|
  {
    if text == "" then t
    else Appended(if text[0] == '\n' then t + [""] else t[..|t| - 1] + [t[|t| - 1] + [text[0]]], text[1..])
  }

  /** Earlier lines kept as they were, the last one kept as a prefix. */
  predicate Extends(t: seq<string>, t': seq<string>) {
    0 < |t| <= |t'| && t'[..|t| - 1] == t[..|t| - 1] && t[|t| - 1] <= t'[|t| - 1]
  }

  lemma {:induction false} AppendedExtends(t: seq<string>, text: string)
    requires |t| > 0
    ensures Extends(t, Appended(t, text))
    decreases |text|
  {
    if text != "" {
      var u := if text[0] == '\n' then t + [""] else t[..|t| - 1] + [t[|t| - 1] + [text[0]]];
      AppendedExtends(u, text[1..]);
      var v := Appended(u, text[1..]);
      assert v[..|t| - 1] == v[..|u| - 1][..|t| - 1];
    }
  }

  lemma {:induction false} AppendedConcat(t: seq<string>, a: string, b: string)
    requires |t| > 0
    ensures Appended(t, a + b) == Appended(Appended(t, a), b)
    decreases |a|
  {
    if a == "" {
      assert a + b == b;
    } else {
      assert (a + b)[1..] == a[1..] + b;
      AppendedConcat(if a[0] == '\n' then t + [""] else t[..|t| - 1] + [t[|t| - 1] + [a[0]]], a[1..], b);
    }
  }

  function Feeds(n: nat): string { seq(n, _ => '\n') }

  lemma {:induction false} AppendedFeeds(t: seq<string>, n: nat)
    requires |t| > 0
    ensures Appended(t, Feeds(n)) == t + Blanks(n)
    decreases n
  {
    if n == 0 {
      assert t + Blanks(0) == t;
    } else {
      assert Feeds(n)[1..] == Feeds(n - 1);
      AppendedFeeds(t + [""], n - 1);
      assert t + [""] + Blanks(n - 1) == t + Blanks(n);
    }
  }

  /** The text up to the cursor, on a screen whose cursor is in the region. */
  function TextOf(s: Screen): (t: seq<string>)
    requires Sane(s)
    ensures |t| > 0
  {
    s.scrollback + s.rows[..s.cursor.r + 1]
  }

  /** From `s` to `s'` exactly `text` was added at the end, and the rows under the margin kept. */
  predicate Grew(s: Screen, s': Screen, text: string)
    requires Sane(s)
  {
    && Sane(s') && |s'.rows| == |s.rows| && Ready(s', s'.cursor.r, s'.cursor.c)
    && s'.bottom == s.bottom && s'.saved == s.saved && s'.rows[s.bottom + 1..] == s.rows[s.bottom + 1..]
    && (s.cursor.r == s.bottom ==> s'.cursor.r == s.bottom)
    && (text != "" && text[|text| - 1] == '\n' ==> s'.cursor.c == 0)
    && TextOf(s') == Appended(TextOf(s), text)
  }

  /** One line feed where the region stands. */
  lemma NewlineGrows(s: Screen)
    requires Sane(s) && Ready(s, s.cursor.r, s.cursor.c)
    ensures Grew(s, Newline(s), "\n")
  {
    var t, s' := TextOf(s), Newline(s);
    assert "\n"[1..] == "" && Appended(t, "\n") == t + [""];
    if s.cursor.r == s.bottom {
      assert s'.rows[..s.bottom + 1] == s.rows[1..s.bottom + 1] + [""];
      assert s.scrollback + [s.rows[0]] + (s.rows[1..s.bottom + 1] + [""]) == t + [""];
    } else {
      assert s.rows[..s.cursor.r + 2] == s.rows[..s.cursor.r + 1] + [""];
    }
  }

  /** One character where the region stands. */
  lemma PutGrows(s: Screen, ch: char)
    requires Sane(s) && Ready(s, s.cursor.r, s.cursor.c) && ch != '\n'
    ensures Grew(s, Put(s, ch), [ch])
  {
    var t, last, s' := TextOf(s), s.rows[s.cursor.r], Put(s, ch);
    assert t[|t| - 1] == last && t[..|t| - 1] == s.scrollback + s.rows[..s.cursor.r];
    assert [ch][1..] == "";
    assert PutAt(last, |last|, ch) == last + [ch];
    assert s'.rows[..s.cursor.r + 1] == s.rows[..s.cursor.r] + [last + [ch]];
    assert Appended(t, [ch]) == t[..|t| - 1] + [last + [ch]];
  }

  lemma GrewTwice(s: Screen, u: Screen, s': Screen, a: string, b: string)
    requires Sane(s) && Grew(s, u, a) && Grew(u, s', b) && (b == "" ==> s' == u)
    ensures Grew(s, s', a + b)
  {
    AppendedConcat(TextOf(s), a, b);
    if b == "" { assert a + b == a; }
  }

  /** Everything printed from a ready place lands at the end of the transcript; the box is untouched. */
  lemma {:induction false} TypedGrows(s: Screen, text: string)
    requires Sane(s) && Ready(s, s.cursor.r, s.cursor.c)
    ensures Grew(s, Typed(s, text), text)
    decreases |text|
  {
    if text != "" {
      if text[0] == '\n' { NewlineGrows(s); } else { PutGrows(s, text[0]); }
      var u := if text[0] == '\n' then Newline(s) else Put(s, text[0]);
      TypedGrows(u, text[1..]);
      GrewTwice(s, u, Typed(s, text), [text[0]], text[1..]);
      assert [text[0]] + text[1..] == text;
    }
  }

  // ---- Resizing the box ---------------------------------------------------------------

  /** The cursor's row once the box is `n` rows high, if it stays in the region. */
  function RowAfter(f: Fixed, n: nat): nat
    requires n < |f.s.rows|
  {
    if f.caret.Some? then |f.s.rows| - n - 1 else if n > f.k then Max(0, f.s.cursor.r - (n - f.k)) else f.s.cursor.r
  }

  /** Growth from the region takes the cursor where it takes the text: from the last row, or where neither can move on. */
  predicate FollowsText(f: Fixed, n: nat)
    requires Fits(f) && f.open && n < |f.s.rows|
  {
    f.caret.None? && n > f.k ==> Row(f) == f.s.bottom || Row(f) == 0 || n == |f.s.rows| - 1
  }

  /** The blank rows between the text and the region's last row, once the box is `n` rows high: growth keeps the text's own row above it. */
  function BlanksUnder(f: Fixed, n: nat): nat
    requires n < |f.s.rows|
  {
    Max(0, |f.s.rows| - n - 1 - Row(f))
  }

  /** The box made `n` rows high, if it was not. */
  function Sized(f: Fixed, n: nat): Fixed
    requires Fits(f) && f.open && n < |f.s.rows|
  {
    if n == f.k then f else Resized(f, n)
  }

  /** Scrollback and the region, all of it. */
  function Region(f: Fixed): seq<string>
    requires Fits(f)
  {
    f.s.scrollback + f.s.rows[..f.s.bottom + 1]
  }

  lemma RegionNow(f: Fixed)
    requires Good(f)
    ensures Region(f) == Transcript(f) + Blanks(f.s.bottom - Row(f))
  {
    assert f.s.rows[..f.s.bottom + 1] == f.s.rows[..Row(f) + 1] + Blanks(f.s.bottom - Row(f));
  }

  /** Where the rows of the region are after growth. */
  lemma GrownRows(f: Fixed, n: nat)
    requires Good(f) && f.k < n < |f.s.rows|
    ensures var g, scrolls := Resized(f, n), Max(0, n - f.k - (f.s.bottom - Row(f)));
            && g.s.scrollback == f.s.scrollback + f.s.rows[..scrolls] && g.s.bottom == |f.s.rows| - n - 1
            && (forall i | 0 <= i <= f.s.bottom :: g.s.rows[i] == if i + scrolls <= f.s.bottom then f.s.rows[i + scrolls] else "")
  {
  }

  /** A shrinking box leaves the region as it was and adds blank rows under it. */
  lemma ShrunkRows(f: Fixed, n: nat)
    requires Good(f) && n < f.k
    ensures var g := Resized(f, n);
            && g.s.scrollback == f.s.scrollback && g.s.bottom == |f.s.rows| - n - 1
            && g.s.rows[..g.s.bottom + 1] == f.s.rows[..f.s.bottom + 1] + Blanks(f.k - n)
  {
  }

  lemma GrownRest(f: Fixed, n: nat)
    requires Good(f) && f.k < n < |f.s.rows|
    ensures var g, scrolls := Resized(f, n), Max(0, n - f.k - (f.s.bottom - Row(f)));
            && Fits(g) && scrolls <= Row(f)
            && g.s.rows[..g.s.bottom + 1] == f.s.rows[scrolls..Row(f) + 1] + Blanks(BlanksUnder(f, n))
  {
    GrownRows(f, n);
    assert BlankRows(f.s.rows, Row(f) + 1, f.s.bottom + 1);
  }

  lemma Rejoined(before: seq<string>, rows: seq<string>, i: nat, j: nat, after: seq<string>)
    requires i <= j <= |rows|
    ensures before + rows[..i] + (rows[i..j] + after) == before + rows[..j] + after
  {
    assert rows[..i] + rows[i..j] == rows[..j];
    assert before + rows[..i] + (rows[i..j] + after) == before + (rows[..i] + rows[i..j]) + after;
  }

  lemma GrownRegion(f: Fixed, n: nat)
    requires Good(f) && f.k < n < |f.s.rows|
    ensures Fits(Resized(f, n)) && Region(Resized(f, n)) == Transcript(f) + Blanks(BlanksUnder(f, n))
  {
    var scrolls := Max(0, n - f.k - (f.s.bottom - Row(f)));
    GrownRest(f, n);
    GrownRows(f, n);
    Rejoined(f.s.scrollback, f.s.rows, scrolls, Row(f) + 1, Blanks(BlanksUnder(f, n)));
  }

  /** Whatever the box's height becomes, the region holds the text so far and blank rows under it. */
  lemma SizedRegion(f: Fixed, n: nat)
    requires Good(f) && n < |f.s.rows|
    ensures Fits(Sized(f, n)) && Sized(f, n).s.bottom == |f.s.rows| - n - 1
    ensures Region(Sized(f, n)) == Transcript(f) + Blanks(BlanksUnder(f, n))
  {
    if n > f.k {
      GrownRegion(f, n);
    } else {
      RegionNow(f);
      var under := f.s.bottom - Row(f);
      if n < f.k {
        ShrunkRows(f, n);
        assert Region(Resized(f, n)) == Region(f) + Blanks(f.k - n);
        assert Transcript(f) + Blanks(under) + Blanks(f.k - n) == Transcript(f) + Blanks(under + (f.k - n));
      }
    }
  }

  /** A cursor that follows the text is on the same line of it. */
  lemma GrownRow(f: Fixed, n: nat)
    requires Good(f) && f.k < n < |f.s.rows| && FollowsText(f, n)
    ensures var g, scrolls := Resized(f, n), Max(0, n - f.k - (f.s.bottom - Row(f)));
            Fits(g) && Row(g) == RowAfter(f, n) && Row(g) + scrolls == Row(f) && Row(g) <= g.s.bottom
  {
  }

  lemma GrownReady(f: Fixed, n: nat)
    requires Good(f) && f.k < n < |f.s.rows| && FollowsText(f, n)
    ensures Good(Resized(f, n))
  {
    var g := Resized(f, n);
    var scrolls := Max(0, n - f.k - (f.s.bottom - Row(f)));
    GrownRows(f, n);
    GrownRow(f, n);
    assert g.s.rows[Row(g)] == f.s.rows[Row(f)];
    forall i | Row(g) < i <= g.s.bottom ensures g.s.rows[i] == "" {
      if i + scrolls <= f.s.bottom { assert f.s.rows[i + scrolls] == ""; }
    }
  }

  lemma SameSlice(a: seq<string>, b: seq<string>, from: nat, n: nat)
    requires n <= |a| && from + n <= |b| && forall i | 0 <= i < n :: a[i] == b[i + from]
    ensures a[..n] == b[from..from + n]
  {
    forall i | 0 <= i < n ensures a[..n][i] == b[from..from + n][i] { assert a[i] == b[i + from]; }
  }

  /** A growing box scrolls the text up ahead of it. */
  lemma GrowKeeps(f: Fixed, n: nat)
    requires Good(f) && f.k < n < |f.s.rows| && FollowsText(f, n)
    ensures Good(Resized(f, n)) && Transcript(Resized(f, n)) == Transcript(f)
    ensures Row(Resized(f, n)) == RowAfter(f, n)
  {
    var g := Resized(f, n);
    var scrolls := Max(0, n - f.k - (f.s.bottom - Row(f)));
    GrownRows(f, n);
    GrownRow(f, n);
    GrownReady(f, n);
    SameSlice(g.s.rows, f.s.rows, scrolls, Row(g) + 1);
    Rejoined(f.s.scrollback, f.s.rows, scrolls, Row(f) + 1, []);
    assert f.s.rows[scrolls..Row(f) + 1] + [] == f.s.rows[scrolls..Row(f) + 1];
  }

  lemma ShrinkFromBox(f: Fixed, n: nat)
    requires Good(f) && n < f.k && f.caret.Some?
    ensures var g := Resized(f, n);
            Good(g) && Transcript(g) == Transcript(f) + Blanks(f.k - n) && Row(g) == g.s.bottom
  {
    ShrunkRows(f, n);
    var g, last := Resized(f, n), |f.s.rows| - n - 1;
    assert g.s.rows[last] == g.s.rows[..last + 1][last] == "";
  }

  lemma ShrinkFromRegion(f: Fixed, n: nat)
    requires Good(f) && n < f.k && f.caret.None?
    ensures var g := Resized(f, n); Good(g) && Transcript(g) == Transcript(f) && Row(g) == Row(f)
  {
    ShrunkRows(f, n);
    var g := Resized(f, n);
    var region := g.s.rows[..g.s.bottom + 1];
    assert forall i | 0 <= i <= g.s.bottom :: g.s.rows[i] == region[i];
    assert g.s.rows[..Row(f) + 1] == f.s.rows[..Row(f) + 1];
  }

  /** A shrinking box leaves blank rows; from the region the cursor stays with its text. */
  lemma ShrinkKeeps(f: Fixed, n: nat)
    requires Good(f) && n < f.k
    ensures Good(Resized(f, n))
    ensures Transcript(Resized(f, n)) == Transcript(f) + Blanks(if f.caret.Some? then f.k - n else 0)
    ensures Row(Resized(f, n)) == if f.caret.Some? then Resized(f, n).s.bottom else Row(f)
  {
    if f.caret.Some? {
      ShrinkFromBox(f, n);
    } else {
      ShrinkFromRegion(f, n);
      assert Transcript(f) + Blanks(0) == Transcript(f);
    }
  }

  /** Drawing the box changes no row of the region. */
  lemma PaintedRegion(f: Fixed, lines: seq<string>, caret: Option<Place>)
    requires Fits(f) && f.open && |lines| == f.k && Drawable(f, lines, caret)
    ensures var g := Painted(f, lines, caret);
            && Fits(g) && g.s.bottom == f.s.bottom && Region(g) == Region(f) && BoxRows(g) == lines
            && (forall i | 0 <= i <= f.s.bottom :: g.s.rows[i] == f.s.rows[i])
  {
    var g := Painted(f, lines, caret);
    assert g.s.rows[..f.s.bottom + 1] == f.s.rows[..f.s.bottom + 1];
  }

  /** Nor its cursor, when it goes back there. */
  lemma PaintKeeps(f: Fixed, lines: seq<string>)
    requires Good(f) && f.caret.None? && |lines| == f.k && Drawable(f, lines, None)
    ensures var g := Painted(f, lines, None); Good(g) && g.s.cursor == f.s.cursor && Transcript(g) == Transcript(f)
  {
    PaintedRegion(f, lines, None);
    var g := Painted(f, lines, None);
    assert g.s.rows[..Row(f) + 1] == f.s.rows[..Row(f) + 1];
  }

  // ---- Whole runs ---------------------------------------------------------------------

  /** What a session does with an open bottom (cli/textzone.ts). */
  datatype Act =
    | Print(text: string)
    | Above(text: string)
    | Draw(lines: seq<string>, caret: Option<Place>)

  /** Each condition can be checked before the call. */
  predicate Allowed(f: Fixed, a: Act)
    requires Good(f)
  {
    match a
    // A turn streams into the region.
    case Print(text) => f.caret.None?
    // Something is said above the box being typed in: whole lines only.
    case Above(text) => f.caret.Some? && text != "" && text[|text| - 1] == '\n'
    case Draw(lines, caret) =>
      && Drawable(f, lines, caret)
      && (f.caret.None? ==>
            // Staying in the region: no growth that would leave the cursor on an older line.
            if caret.None? then FollowsText(f, |lines|)
            // Into the box: only below the streamed text, or after it ended its line.
            else f.s.cursor.c == 0 || Row(f) < |f.s.rows| - |lines| - 1)
  }

  function Do(f: Fixed, a: Act): Fixed
    requires Good(f) && Allowed(f, a)
  {
    match a
    case Print(text) => f.(s := Typed(f.s, text))
    case Above(text) => f.(s := Typed(f.s.(cursor := Cell(f.s.bottom, 0)), text).(cursor := BoxCell(f)))
    case Draw(lines, caret) => Drawn(f, lines, caret)
  }

  /** The rows a step leaves blank between the text so far and the text to come. */
  function Gap(f: Fixed, a: Act): nat
    requires Good(f) && Allowed(f, a)
  {
    match a
    case Draw(lines, caret) => if f.caret.None? && caret.None? then 0 else BlanksUnder(f, |lines|)
    case _ => 0
  }

  function Said(f: Fixed, a: Act): string
    requires Good(f) && Allowed(f, a)
  {
    match a
    case Draw(_, _) => Feeds(Gap(f, a))
    case _ => a.text
  }

  /** What a draw leaves: the text so far and its gap, the cursor's column, and the whole cursor at the same height. */
  predicate DrawKeeps(f: Fixed, g: Fixed, a: Act)
    requires Good(f) && Allowed(f, a) && a.Draw?
  {
    && Good(g) && Transcript(g) == Transcript(f) + Blanks(Gap(f, a))
    && (a.caret.None? && f.caret.None? ==> g.s.cursor.c == f.s.cursor.c)
    && (a.caret.None? && f.caret.None? && |a.lines| == f.k ==> g.s.cursor == f.s.cursor)
  }

  /** A draw that ends in the box, from wherever it began: the whole region is the text so far. */
  lemma DrawnRegion(f: Fixed, lines: seq<string>, caret: Option<Place>)
    requires Good(f) && Drawable(f, lines, caret)
    ensures var g := Drawn(f, lines, caret);
            && Fits(g) && g.s.bottom == |f.s.rows| - |lines| - 1
            && Region(g) == Transcript(f) + Blanks(BlanksUnder(f, |lines|))
  {
    SizedRegion(f, |lines|);
    PaintedRegion(Sized(f, |lines|), lines, caret);
  }

  lemma LastOfRegion(g: Fixed, t: seq<string>, n: nat)
    requires Fits(g) && |t| > 0 && Region(g) == t + Blanks(n)
    ensures g.s.rows[g.s.bottom] == if n > 0 then "" else t[|t| - 1]
  {
    var r := Region(g);
    assert r[|r| - 1] == g.s.rows[g.s.bottom];
  }

  lemma IntoBoxStep(f: Fixed, lines: seq<string>, caret: Option<Place>)
    requires Good(f) && Allowed(f, Draw(lines, caret)) && caret.Some?
    ensures DrawKeeps(f, Drawn(f, lines, caret), Draw(lines, caret))
  {
    DrawnRegion(f, lines, caret);
    LastOfRegion(Drawn(f, lines, caret), Transcript(f), BlanksUnder(f, |lines|));
  }

  /** Out of the box the cursor goes to the region's last row, which is blank. */
  lemma OutOfBoxCursor(f: Fixed, lines: seq<string>)
    requires Good(f) && Drawable(f, lines, None) && f.caret.Some?
    ensures var g := Drawn(f, lines, None); Fits(g) && g.open && g.caret.None? && g.s.cursor == Cell(g.s.bottom, 0)
  {
  }

  lemma OutOfBoxStep(f: Fixed, lines: seq<string>)
    requires Good(f) && Allowed(f, Draw(lines, None)) && f.caret.Some?
    ensures DrawKeeps(f, Drawn(f, lines, None), Draw(lines, None))
  {
    var g := Drawn(f, lines, None);
    OutOfBoxCursor(f, lines);
    DrawnRegion(f, lines, None);
    LastOfRegion(g, Transcript(f), BlanksUnder(f, |lines|));
    assert g.s.rows[g.s.bottom] == "" && Transcript(g) == Region(g);
  }

  lemma InRegionStep(f: Fixed, lines: seq<string>)
    requires Good(f) && Allowed(f, Draw(lines, None)) && f.caret.None?
    ensures DrawKeeps(f, Drawn(f, lines, None), Draw(lines, None))
  {
    if |lines| > f.k {
      GrowKeeps(f, |lines|);
    } else if |lines| < f.k {
      ShrinkFromRegion(f, |lines|);
    }
    PaintKeeps(Sized(f, |lines|), lines);
    assert Transcript(f) + Blanks(0) == Transcript(f);
  }

  lemma DrawStep(f: Fixed, lines: seq<string>, caret: Option<Place>)
    requires Good(f) && Allowed(f, Draw(lines, caret))
    ensures DrawKeeps(f, Drawn(f, lines, caret), Draw(lines, caret))
  {
    if caret.Some? {
      IntoBoxStep(f, lines, caret);
    } else if f.caret.Some? {
      OutOfBoxStep(f, lines);
    } else {
      InRegionStep(f, lines);
    }
  }

  /** A screen that grew in the region is still a good one. */
  lemma GrewGood(f: Fixed, s: Screen, text: string)
    requires Good(f) && f.caret.None? && Grew(f.s, s, text) && s.cursor.r <= s.bottom
    ensures var g := f.(s := s); Good(g) && Transcript(g) == Appended(Transcript(f), text) && BoxRows(g) == BoxRows(f)
  {
  }

  lemma PrintStep(f: Fixed, text: string)
    requires Good(f) && f.caret.None?
    ensures var g := f.(s := Typed(f.s, text));
            Good(g) && Transcript(g) == Appended(Transcript(f), text) && BoxRows(g) == BoxRows(f)
  {
    TypedGrows(f.s, text);
    GrewGood(f, Typed(f.s, text), text);
  }

  lemma AboveStep(f: Fixed, text: string)
    requires Good(f) && Allowed(f, Above(text))
    ensures var g := Do(f, Above(text));
            Good(g) && Transcript(g) == Appended(Transcript(f), text) && BoxRows(g) == BoxRows(f)
  {
    var s := f.s.(cursor := Cell(f.s.bottom, 0));
    TypedGrows(s, text);
    assert TextOf(s) == Transcript(f);
  }

  /**
   * Every step adds exactly what it says at the end of the transcript, and leaves the box
   * as it was last drawn.
   */
  lemma StepKeeps(f: Fixed, a: Act)
    requires Good(f) && Allowed(f, a)
    ensures var g := Do(f, a);
            && Good(g) && Transcript(g) == Appended(Transcript(f), Said(f, a))
            && BoxRows(g) == (if a.Draw? then a.lines else BoxRows(f)) && g.caret == (if a.Draw? then a.caret else f.caret)
  {
    match a
    case Print(text) => PrintStep(f, text);
    case Above(text) => AboveStep(f, text);
    case Draw(lines, caret) =>
      DrawStep(f, lines, caret);
      AppendedFeeds(Transcript(f), Gap(f, a));
  }

  /** The same step by the driver itself, one control sequence after another. */
  method Perform(d: FondoDriver, a: Act)
    requires d.active && Good(d.View()) && Allowed(d.View(), a)
    modifies d, d.output
    ensures d.View() == Do(old(d.View()), a)
    ensures Good(d.View()) && Transcript(d.View()) == Appended(Transcript(old(d.View())), Said(old(d.View()), a))
  {
    StepKeeps(d.View(), a);
    match a {
      case Print(text) =>
        d.output.Write(text);
      case Above(text) =>
        d.NellaRegione();
        TypedGrows(d.output.screen, text);
        d.output.Write(text);
        d.NelRiquadro();
      case Draw(lines, caret) =>
        d.Disegna(lines, caret);
    }
  }

  predicate AllowedRun(f: Fixed, acts: seq<Act>)
    requires Good(f)
    decreases |acts|
  {
    acts == [] || (Allowed(f, acts[0]) && (StepKeeps(f, acts[0]); AllowedRun(Do(f, acts[0]), acts[1..])))
  }

  function Run(f: Fixed, acts: seq<Act>): Fixed
    requires Good(f) && AllowedRun(f, acts)
    decreases |acts|
  {
    if acts == [] then f else StepKeeps(f, acts[0]); Run(Do(f, acts[0]), acts[1..])
  }

  /** All the text of a run, in order, with the blank rows shrinking left in it. */
  function Script(f: Fixed, acts: seq<Act>): string
    requires Good(f) && AllowedRun(f, acts)
    decreases |acts|
  {
    if acts == [] then "" else StepKeeps(f, acts[0]); Said(f, acts[0]) + Script(Do(f, acts[0]), acts[1..])
  }

  function LastDrawn(box: seq<string>, acts: seq<Act>): seq<string>
    decreases |acts|
  {
    if acts == [] then box
    else LastDrawn(if acts[0].Draw? then acts[0].lines else box, acts[1..])
  }

  function LastCaret(caret: Option<Place>, acts: seq<Act>): Option<Place>
    decreases |acts|
  {
    if acts == [] then caret
    else LastCaret(if acts[0].Draw? then acts[0].caret else caret, acts[1..])
  }

  /** Over a whole session: no line lost, reordered or overwritten, the box is the last one drawn, and the cursor where that draw left it. */
  lemma {:induction false} NothingIsLost(f: Fixed, acts: seq<Act>)
    requires Good(f) && AllowedRun(f, acts)
    ensures var g := Run(f, acts);
            && Good(g) && Transcript(g) == Appended(Transcript(f), Script(f, acts))
            && Extends(Transcript(f), Transcript(g)) && BoxRows(g) == LastDrawn(BoxRows(f), acts)
            && g.caret == LastCaret(f.caret, acts)
            && (g.caret.Some? ==> g.s.cursor == Cell(|g.s.rows| - g.k + g.caret.value.row, g.caret.value.column - 1))
    decreases |acts|
  {
    if acts == [] {
      assert Extends(Transcript(f), Transcript(f));
    } else {
      StepKeeps(f, acts[0]);
      NothingIsLost(Do(f, acts[0]), acts[1..]);
      AppendedConcat(Transcript(f), Said(f, acts[0]), Script(Do(f, acts[0]), acts[1..]));
      AppendedExtends(Transcript(f), Script(f, acts));
    }
  }

  lemma HookedRows(f: Fixed, n: nat)
    requires Fits(f) && !f.open && n < |f.s.rows| && f.s.cursor.r + n >= |f.s.rows|
    ensures var g, d := Hooked(f, f.s.cursor.r + 1, n), f.s.cursor.r - (|f.s.rows| - n - 1);
            && Fits(g) && g.open && g.s.cursor == Cell(g.s.bottom, 0) && g.caret.None? && g.s.scrollback == f.s.scrollback + f.s.rows[..d]
            && g.s.rows[..g.s.bottom + 1] == f.s.rows[d..f.s.cursor.r + 1]
  {
  }

  /** Hooking the bottom loses nothing either: the text moves up and keeps its cursor row. */
  lemma HookKeeps(f: Fixed, n: nat)
    requires Fits(f) && !f.open && n < |f.s.rows| && Ready(f.s, f.s.cursor.r, 0)
    ensures var g := Hooked(f, f.s.cursor.r + 1, n);
            && (g.open <==> f.s.cursor.r + n >= |f.s.rows|)
            && (g.open ==> Good(g) && Transcript(g) == f.s.scrollback + f.s.rows[..f.s.cursor.r + 1])
  {
    var g := Hooked(f, f.s.cursor.r + 1, n);
    if g.open {
      HookedRows(f, n);
      var d := f.s.cursor.r - g.s.bottom;
      assert g.s.rows[g.s.bottom] == g.s.rows[..g.s.bottom + 1][g.s.bottom] == f.s.rows[f.s.cursor.r];
      Rejoined(f.s.scrollback, f.s.rows, d, f.s.cursor.r + 1, []);
      assert f.s.rows[d..f.s.cursor.r + 1] + [] == f.s.rows[d..f.s.cursor.r + 1];
    }
  }

  /** Closing keeps all of it, the box included, above a fresh row. */
  lemma CloseKeeps(f: Fixed)
    requires Good(f)
    ensures var g := Closed(f);
            && !g.open && g.s.bottom == |g.s.rows| - 1 == g.s.cursor.r && g.s.rows[g.s.cursor.r] == ""
            && g.s.scrollback + g.s.rows == Transcript(f) + Blanks(f.s.bottom - Row(f)) + BoxRows(f) + [""]
  {
    var rows := f.s.rows;
    ScrolledWhole(rows);
    BlankTail(rows, Row(f) + 1, f.s.bottom + 1);
    AllRows(f.s.scrollback, rows, Row(f) + 1, f.s.bottom + 1);
  }

  lemma AllRows(scrollback: seq<string>, rows: seq<string>, from: nat, to: nat)
    requires 0 < from <= to <= |rows| && rows[..to] == rows[..from] + Blanks(to - from)
    ensures scrollback + rows[..1] + (rows[1..] + [""]) == scrollback + rows[..from] + Blanks(to - from) + rows[to..] + [""]
  {
    assert rows == rows[..to] + rows[to..] && rows == rows[..1] + rows[1..];
    var all := scrollback + rows + [""];
    assert scrollback + rows[..1] + (rows[1..] + [""]) == all;
    assert scrollback + (rows[..to] + rows[to..]) + [""] == scrollback + rows[..to] + rows[to..] + [""];
    assert scrollback + (rows[..from] + Blanks(to - from)) == scrollback + rows[..from] + Blanks(to - from);
  }

  lemma ScrolledWhole(rows: seq<string>)
    requires |rows| > 0
    ensures Scrolled(rows, |rows| - 1, 1) == rows[1..] + [""] && rows[..1] + rows[1..] == rows
  {
  }

  lemma BlankTail(rows: seq<string>, from: nat, to: nat)
    requires from <= to <= |rows| && BlankRows(rows, from, to)
    ensures rows[..to] == rows[..from] + Blanks(to - from)
  {
  }

  // ---- Where rule 1 breaks --------------------------------------------------------------

  /**
   * Growing from the region with the cursor put back by "restore and move up": the cursor
   * is still on its own line exactly when it was on the region's last row, or there was
   * nowhere else it could go.
   */
  lemma GrowFollowsText(f: Fixed, n: nat)
    requires Good(f) && f.caret.None? && f.k < n < |f.s.rows|
    ensures Transcript(Resized(f, n)) == Transcript(f) <==> FollowsText(f, n)
    ensures !FollowsText(f, n) ==> |Transcript(Resized(f, n))| < |Transcript(f)|
  {
    var g := Resized(f, n);
    if FollowsText(f, n) {
      GrowKeeps(f, n);
    } else {
      GrownRows(f, n);
      assert |Transcript(g)| < |Transcript(f)|;
    }
  }

  /** Text so far, blank rows, and a place to go on. */
  ghost predicate OnlyBlanks(f: Fixed, g: Fixed)
    requires Good(f)
  {
    Good(g) && exists n: nat :: Transcript(g) == Transcript(f) + Blanks(n)
  }

  /** The guard is exact: any other draw cuts the transcript, or leaves a line to be typed over. */
  lemma GuardIsExact(f: Fixed, lines: seq<string>, caret: Option<Place>)
    requires Good(f) && Drawable(f, lines, caret)
    ensures OnlyBlanks(f, Drawn(f, lines, caret)) <==> Allowed(f, Draw(lines, caret))
  {
    var a, g := Draw(lines, caret), Drawn(f, lines, caret);
    if Allowed(f, a) {
      DrawStep(f, lines, caret);
      assert Transcript(g) == Transcript(f) + Blanks(Gap(f, a));
    } else if caret.Some? {
      DrawnRegion(f, lines, caret);
      LastOfRegion(g, Transcript(f), BlanksUnder(f, |lines|));
    } else {
      GrowFollowsText(f, |lines|);
      PaintedRegion(Resized(f, |lines|), lines, caret);
    }
  }

  /** Shrink in the region, then grow back: the cursor ends on an older line. */
  lemma ShrinkThenGrowLosesItsLine()
    ensures var s := Screen(["one", "two", "", "box", "box"], [], Cell(2, 0), 2, None);
            var f := Fixed(s, 2, true, None);
            && Good(f) && Good(Resized(f, 1)) && Transcript(f) == ["one", "two", ""]
            && Transcript(Resized(Resized(f, 1), 2)) == ["one", "two"]
  {
    var s := Screen(["one", "two", "", "box", "box"], [], Cell(2, 0), 2, None);
    var f := Fixed(s, 2, true, None);
    ShrinkKeeps(f, 1);
    var g := Resized(f, 1);
    assert g.s.rows == ["one", "two", "", "", "box"];
    var h := Resized(g, 2);
    assert h.s.rows[..2] == ["one", "two"];
  }

  /** The characters up to the first line feed. */
  function Head(text: string): (h: string)
    ensures |h| <= |text| && text[..|h|] == h && '\n' !in h && (|h| < |text| ==> text[|h|] == '\n')
  {
    if text == "" || text[0] == '\n' then "" else [text[0]] + Head(text[1..])
  }

  /** Typed over from its first column, a line still shows what it said. */
  predicate Agrees(text: string, line: string) { text <= line || line <= text }

  function Over(text: string, line: string): string { text + if |text| < |line| then line[|text|..] else "" }

  lemma {:induction false} TypedOver(s: Screen, text: string, line: string, done: string)
    requires Sane(s) && '\n' !in text && s.rows[s.cursor.r] == Over(done, line) && s.cursor.c == |done|
    ensures Typed(s, text) == s.(rows := s.rows[s.cursor.r := Over(done + text, line)], cursor := Cell(s.cursor.r, |done| + |text|))
    decreases |text|
  {
    if text == "" {
      assert done + text == done;
      assert s.rows[s.cursor.r := Over(done, line)] == s.rows;
    } else {
      assert PutAt(Over(done, line), |done|, text[0]) == Over(done + [text[0]], line);
      TypedOver(Put(s, text[0]), text[1..], line, done + [text[0]]);
      assert done + [text[0]] + text[1..] == done + text;
    }
  }

  lemma OverKeeps(text: string, line: string)
    ensures line <= Over(text, line) <==> Agrees(text, line)
  {
    var o := Over(text, line);
    assert o[..|text|] == text;
    if line <= o && |text| <= |line| { assert text == o[..|text|] == line[..|text|]; }
  }

  lemma {:induction false} TypedConcat(s: Screen, a: string, b: string)
    requires Sane(s)
    ensures Typed(s, a + b) == Typed(Typed(s, a), b)
    decreases |a|
  {
    if a == "" {
      assert a + b == b;
    } else {
      assert (a + b)[0] == a[0] && (a + b)[1..] == a[1..] + b;
      TypedConcat(if a[0] == '\n' then Newline(s) else Put(s, a[0]), a[1..], b);
    }
  }

  lemma NewlineAtBottom(u: Screen)
    requires Sane(u) && u.cursor.r == u.bottom
    ensures var n := Newline(u); Ready(n, n.cursor.r, n.cursor.c) && n.cursor.r == n.bottom == u.bottom && TextOf(n) == TextOf(u) + [""]
  {
    var n := Newline(u);
    assert n.rows[..n.bottom + 1] == u.rows[1..u.bottom + 1] + [""];
    assert u.rows[..u.bottom + 1] == [u.rows[0]] + u.rows[1..u.bottom + 1];
  }

  /** What was said up to a line stays when more is printed after its line feed. */
  lemma KeptBehind(t: seq<string>, rest: string)
    requires |t| > 0
    ensures var v := Appended(t + [""], rest); |v| > |t| && v[..|t|] == t
  {
    AppendedExtends(t + [""], rest);
    var v := Appended(t + [""], rest);
    assert (t + [""])[..|t|] == t;
  }

  /** The line under the cursor typed over, and the text above it. */
  lemma OverHead(s: Screen, h: string, line: string)
    requires Sane(s) && s.cursor == Cell(s.bottom, 0) && s.rows[s.bottom] == line && '\n' !in h
    ensures var u, t := Typed(s, h), TextOf(s);
            u.cursor.r == u.bottom == s.bottom && TextOf(u) == t[..|t| - 1] + [Over(h, line)]
  {
    assert Over("", line) == line && "" + h == h;
    TypedOver(s, h, line, "");
    var t := TextOf(s);
    assert t[..|t| - 1] == s.scrollback + s.rows[..s.bottom];
    assert s.rows[s.bottom := Over(h, line)][..s.bottom + 1] == s.rows[..s.bottom] + [Over(h, line)];
  }

  lemma OverTail(u: Screen, text: string, k: nat)
    requires Sane(u) && u.cursor.r == u.bottom && k < |text| && text[k] == '\n'
    ensures var v := Typed(u, text[k..]); |TextOf(v)| > |TextOf(u)| && TextOf(v)[..|TextOf(u)|] == TextOf(u) && v.cursor.r == v.bottom == u.bottom
  {
    NewlineAtBottom(u);
    assert text[k..][1..] == text[k + 1..];
    TypedGrows(Newline(u), text[k + 1..]);
    KeptBehind(TextOf(u), text[k + 1..]);
  }

  lemma TypedOverLast(s: Screen, text: string, line: string)
    requires Sane(s) && s.cursor == Cell(s.bottom, 0) && s.rows[s.bottom] == line
    ensures var s', t := Typed(s, text), TextOf(s);
            && s'.cursor.r == s'.bottom == s.bottom && |t| <= |TextOf(s')|
            && TextOf(s')[..|t|] == t[..|t| - 1] + [Over(Head(text), line)]
  {
    var h, t := Head(text), TextOf(s);
    OverHead(s, h, line);
    assert text == h + text[|h|..];
    TypedConcat(s, h, text[|h|..]);
    if |h| < |text| { OverTail(Typed(s, h), text, |h|); }
  }

  lemma ExtendsIfLineKept(t: seq<string>, t': seq<string>, line: string)
    requires 0 < |t| <= |t'| && t'[..|t|] == t[..|t| - 1] + [line]
    ensures Extends(t, t') <==> t[|t| - 1] <= line
  {
    assert t'[..|t|][..|t| - 1] == t'[..|t| - 1] && t'[..|t|][|t| - 1] == t'[|t| - 1];
  }

  /** The region as a forbidden draw into the box leaves it: the unfinished line on its last row, under the cursor's next stop. */
  lemma DrawnOverLast(f: Fixed, lines: seq<string>, caret: Option<Place>)
    requires Good(f) && caret.Some? && Drawable(f, lines, caret) && !Allowed(f, Draw(lines, caret))
    ensures var g := Drawn(f, lines, caret); TextOf(g.s.(cursor := Cell(g.s.bottom, 0))) == Transcript(f)
  {
    DrawnRegion(f, lines, caret);
    assert Transcript(f) + Blanks(0) == Transcript(f);
  }

  /**
   * Any draw into the box that the guard forbids: whatever is said above the box next, the
   * transcript keeps the unfinished line if and only if the text's first line begins by
   * repeating it, or all of it repeats the line's beginning.
   */
  lemma UnfinishedLineIsOverwritten(f: Fixed, lines: seq<string>, caret: Option<Place>, text: string)
    requires Good(f) && caret.Some? && Drawable(f, lines, caret) && !Allowed(f, Draw(lines, caret))
    ensures var g, t := Drawn(f, lines, caret), Transcript(f);
            var s := Typed(g.s.(cursor := Cell(g.s.bottom, 0)), text);
            Extends(t, TextOf(s)) <==> Agrees(Head(text), t[|t| - 1])
  {
    var g, t := Drawn(f, lines, caret), Transcript(f);
    DrawnOverLast(f, lines, caret);
    var from := g.s.(cursor := Cell(g.s.bottom, 0));
    var line := t[|t| - 1];
    assert TextOf(from)[|t| - 1] == from.rows[from.bottom];
    TypedOverLast(from, text, line);
    OverKeeps(Head(text), line);
    ExtendsIfLineKept(t, TextOf(Typed(from, text)), Over(Head(text), line));
  }
}
