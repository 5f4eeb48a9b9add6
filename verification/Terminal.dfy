/**
 * The terminal the fixed bottom talks to, as the repository itself models one
 * (cli/schermo.ts): CUP, CUU and EL of ECMA-48 (sections 8.3.21, 8.3.22, 8.3.41), and
 * DECSTBM, DECSC and DECRC of the VT510. The top margin is always the first row, so what
 * scrolls off goes to the scrollback.
 */
module Terminal {

  import opened Common

  /** Rows and columns are 0-based here. */
  datatype Cell = Cell(r: nat, c: nat)

  datatype Screen = Screen(rows: seq<string>, scrollback: seq<string>, cursor: Cell, bottom: nat, saved: Option<Cell>)

  predicate Sane(s: Screen) {
    s.cursor.r < |s.rows| && s.bottom < |s.rows| && (s.saved.Some? ==> s.saved.value.r < |s.rows|)
  }

  function Blanks(n: nat): (b: seq<string>)
    ensures |b| == n && forall i | 0 <= i < n :: b[i] == ""
  {
    seq(n, _ => "")
  }

  function Padded(line: string, c: nat): (p: string)
    ensures c <= |p|
  {
    if |line| < c then line + seq(c - |line|, _ => ' ') else line
  }

  /** One cell of a row written, the row padded up to it. */
  function PutAt(line: string, c: nat, ch: char): string {
    var p := Padded(line, c);
    p[..c] + [ch] + if c < |p| then p[c + 1..] else ""
  }

  function Put(s: Screen, ch: char): Screen
    requires Sane(s)
  {
    s.(rows := s.rows[s.cursor.r := PutAt(s.rows[s.cursor.r], s.cursor.c, ch)], cursor := Cell(s.cursor.r, s.cursor.c + 1))
  }

  /** Scrolls on the bottom margin only. */
  function Newline(s: Screen): Screen
    requires Sane(s)
  {
    if s.cursor.r == s.bottom then
      s.(scrollback := s.scrollback + [s.rows[0]],
      rows := s.rows[1..s.bottom + 1] + [""] + s.rows[s.bottom + 1..],
      cursor := Cell(s.cursor.r, 0))
    else if s.cursor.r + 1 < |s.rows| then s.(cursor := Cell(s.cursor.r + 1, 0))
    else s.(cursor := Cell(s.cursor.r, 0))
  }

  datatype Op =
    | Char(ch: char)
    | Lf
    | Cup(cell: Cell)
    | Cuu(n: nat)
    | El2
    | Decstbm(bottom: nat)
    | Decsc
    | Decrc

  predicate Accepts(s: Screen, op: Op) {
    match op
    case Cup(cell) => cell.r < |s.rows|
    case Decstbm(bottom) => bottom < |s.rows|
    case _ => true
  }

  function Apply(s: Screen, op: Op): (s': Screen)
    requires Sane(s) && Accepts(s, op)
    ensures Sane(s') && |s'.rows| == |s.rows|
  {
    match op
    case Char(ch) => Put(s, ch)
    case Lf => Newline(s)
    case Cup(cell) => s.(cursor := cell)
    case Cuu(n) => s.(cursor := Cell(if n <= s.cursor.r then s.cursor.r - n else 0, s.cursor.c))
    case El2 => s.(rows := s.rows[s.cursor.r := ""])
    // Changing the margins sends the cursor home.
    case Decstbm(bottom) => s.(bottom := bottom, cursor := Cell(0, 0))
    case Decsc => s.(saved := Some(s.cursor))
    case Decrc => s.(cursor := if s.saved.Some? then s.saved.value else s.cursor)
  }

  /** Printed text: characters, and line feeds between lines. */
  function Typed(s: Screen, text: string): (s': Screen)
    requires Sane(s)
    ensures Sane(s') && |s'.rows| == |s.rows|
    decreases |text|
  {
    if text == "" then s else Typed(if text[0] == '\n' then Newline(s) else Put(s, text[0]), text[1..])
  }

  class Tty {
    var screen: Screen

    constructor (screen: Screen)
      ensures this.screen == screen
    {
      this.screen := screen;
    }

    method Emit(op: Op)
      requires Sane(screen) && Accepts(screen, op)
      modifies this
      ensures screen == Apply(old(screen), op)
    {
      screen := Apply(screen, op);
    }

    method Write(text: string)
      requires Sane(screen)
      modifies this
      ensures screen == Typed(old(screen), text)
    {
      var i := 0;
      while i < |text|
        invariant 0 <= i <= |text| && Sane(screen)
        invariant Typed(screen, text[i..]) == Typed(old(screen), text)
      {
        Emit(if text[i] == '\n' then Lf else Char(text[i]));
        i := i + 1;
      }
    }

    method Scroll(n: nat)
      requires Sane(screen) && screen.cursor.r <= screen.bottom && n <= screen.bottom + 1
      modifies this
      ensures Sane(screen) && screen == FedBy(old(screen), n)
    {
      var i := 0;
      while i < n
        invariant 0 <= i <= n && Sane(screen)
        invariant Fed(screen, n - i) == Fed(old(screen), n)
      {
        Emit(Lf);
        i := i + 1;
      }
      FedScrolls(old(screen), n);
    }
  }

  /** `n` line feeds from a row inside the margins. */
  function FedBy(s: Screen, n: nat): Screen
    requires Sane(s) && s.cursor.r <= s.bottom && n <= s.bottom + 1
  {
    var scrolls := Max(0, n - (s.bottom - s.cursor.r));
    s.(scrollback := s.scrollback + s.rows[..scrolls], rows := Scrolled(s.rows, s.bottom, scrolls),
    cursor := Cell(Min(s.cursor.r + n, s.bottom), if n == 0 then s.cursor.c else 0))
  }

  function Fed(s: Screen, n: nat): (s': Screen)
    requires Sane(s)
    ensures Sane(s') && |s'.rows| == |s.rows|
    decreases n
  {
    if n == 0 then s else Fed(Newline(s), n - 1)
  }

  /** A line without line feeds, typed on an erased row from its first column, is that row. */
  lemma {:induction false} TypedLine(s: Screen, line: string, done: string)
    requires Sane(s) && s.rows[s.cursor.r] == done && s.cursor.c == |done| && '\n' !in line
    ensures Typed(s, line) == s.(rows := s.rows[s.cursor.r := done + line], cursor := Cell(s.cursor.r, |done| + |line|))
    decreases |line|
  {
    if line == "" {
      assert done + line == done;
      assert s.rows[s.cursor.r := done] == s.rows;
      assert s.cursor == Cell(s.cursor.r, |done|);
    } else {
      assert PutAt(done, |done|, line[0]) == done + [line[0]];
      TypedLine(Put(s, line[0]), line[1..], done + [line[0]]);
      assert done + [line[0]] + line[1..] == done + line;
    }
  }

  function Scrolled(rows: seq<string>, bottom: nat, n: nat): seq<string>
    requires bottom < |rows| && n <= bottom + 1
  {
    rows[n..bottom + 1] + Blanks(n) + rows[bottom + 1..]
  }

  lemma ScrolledOnce(rows: seq<string>, bottom: nat, n: nat)
    requires bottom < |rows| && 1 <= n <= bottom + 1
    ensures var t := Scrolled(rows, bottom, 1);
            && |t| == |rows| && Scrolled(t, bottom, n - 1) == Scrolled(rows, bottom, n)
            && [rows[0]] + t[..n - 1] == rows[..n]
  {
    var t := Scrolled(rows, bottom, 1);
    var a, b := Scrolled(t, bottom, n - 1), Scrolled(rows, bottom, n);
    forall i | 0 <= i < |rows| ensures a[i] == b[i] {
      if i <= bottom - n {
        assert a[i] == t[i + n - 1] == rows[i + n];
      } else if i > bottom {
        assert a[i] == t[i] == rows[i];
      }
    }
  }

  lemma {:induction false} FedAtBottom(s: Screen, n: nat)
    requires Sane(s) && s.cursor.r == s.bottom && 1 <= n <= s.bottom + 1
    ensures Fed(s, n) == s.(scrollback := s.scrollback + s.rows[..n], rows := Scrolled(s.rows, s.bottom, n), cursor := Cell(s.bottom, 0))
    decreases n
  {
    var t := Newline(s);
    assert t.rows == Scrolled(s.rows, s.bottom, 1);
    assert s.scrollback + [s.rows[0]] == s.scrollback + s.rows[..1];
    if n > 1 {
      ScrolledOnce(s.rows, s.bottom, n);
      FedAtBottom(t, n - 1);
      assert s.scrollback + [s.rows[0]] + t.rows[..n - 1] == s.scrollback + s.rows[..n];
    }
  }

  lemma FedByWalks(s: Screen, n: nat)
    requires Sane(s) && s.cursor.r < s.bottom && 1 <= n <= s.bottom + 1
    ensures FedBy(Newline(s), n - 1) == FedBy(s, n)
  {
    assert Newline(s) == s.(cursor := Cell(s.cursor.r + 1, 0));
  }

  lemma FedByAtBottom(s: Screen, n: nat)
    requires Sane(s) && s.cursor.r == s.bottom && 1 <= n <= s.bottom + 1
    ensures FedBy(s, n) == s.(scrollback := s.scrollback + s.rows[..n], rows := Scrolled(s.rows, s.bottom, n), cursor := Cell(s.bottom, 0))
  {
  }

  /** Line feeds first walk down to the bottom margin, then scroll. */
  lemma {:induction false} FedScrolls(s: Screen, n: nat)
    requires Sane(s) && s.cursor.r <= s.bottom && n <= s.bottom + 1
    ensures Fed(s, n) == FedBy(s, n)
    decreases n
  {
    if n == 0 {
      assert Scrolled(s.rows, s.bottom, 0) == s.rows;
    } else if s.cursor.r == s.bottom {
      FedAtBottom(s, n);
      FedByAtBottom(s, n);
    } else {
      FedScrolls(Newline(s), n - 1);
      FedByWalks(s, n);
    }
  }
}
