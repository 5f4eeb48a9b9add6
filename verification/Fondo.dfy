/**
 * The fixed bottom of the screen (cli/fondo.ts): a box in the last `k` rows, the transcript
 * scrolling above it. `Fondo` writes control sequences one by one; each method is proved to
 * bring the screen exactly where the value-level function says.
 */
module Fondo {

  import opened Common
  import opened Terminal

  /** A place inside the box: 0-based row, 1-based column. */
  datatype Place = Place(row: nat, column: nat)

  /** `caret` says where the cursor was left: in the box, or (`None`) in the region. */
  datatype Fixed = Fixed(s: Screen, k: nat, open: bool, caret: Option<Place>)

  predicate Fits(f: Fixed) {
    && Sane(f.s)
    && (f.open ==>
          && f.k < |f.s.rows| && f.s.bottom == |f.s.rows| - f.k - 1
          && (f.caret.Some? ==> f.caret.value.row < f.k)
          && (f.caret.None? ==> f.s.cursor.r <= f.s.bottom))
    && (!f.open ==> f.k == 0 && f.s.bottom == |f.s.rows| - 1 && f.caret.None?)
  }

  predicate Plain(lines: seq<string>) { forall i | 0 <= i < |lines| :: '\n' !in lines[i] }

  /** Drawable: shorter than the screen, the caret inside, and a 1-based column. */
  predicate Drawable(f: Fixed, lines: seq<string>, caret: Option<Place>) {
    && |lines| < |f.s.rows| && Plain(lines)
    && (caret.Some? ==> caret.value.row < |lines| && caret.value.column >= 1)
  }

  /** With the cursor reported on `row`, scrolled up by just enough for a box of `n` rows to fit under it. */
  function Hooked(f: Fixed, row: nat, n: nat): Fixed
    requires Fits(f) && n < |f.s.rows| && row <= |f.s.rows|
  {
    var last := |f.s.rows| - n - 1;
    if f.open || row <= last + 1 then f
    else
      var d := row - 1 - last;
      Fixed(f.s.(scrollback := f.s.scrollback + f.s.rows[..d], rows := Scrolled(f.s.rows, f.s.bottom, d),
                 bottom := last, cursor := Cell(last, 0)), n, true, None)
  }

  function Erased(rows: seq<string>, from: nat, count: nat): seq<string>
    requires from + count <= |rows|
  {
    rows[..from] + Blanks(count) + rows[from + count..]
  }

  lemma ErasedNext(rows: seq<string>, from: nat, i: nat)
    requires from + i < |rows|
    ensures Erased(rows, from, i)[from + i := ""] == Erased(rows, from, i + 1)
  {
  }

  /** Rows `from..` overlaid by `lines`. */
  function Overlaid(rows: seq<string>, from: nat, lines: seq<string>): seq<string>
    requires from + |lines| <= |rows|
  {
    rows[..from] + lines + rows[from + |lines|..]
  }

  lemma OverlaidNext(rows: seq<string>, from: nat, lines: seq<string>, i: nat)
    requires i < |lines| && from + |lines| <= |rows|
    ensures Overlaid(rows, from, lines[..i])[from + i := lines[i]] == Overlaid(rows, from, lines[..i + 1])
  {
    assert lines[..i + 1] == lines[..i] + [lines[i]];
  }

  /** The row the region is written from. */
  function Row(f: Fixed): nat { if f.caret.None? then f.s.cursor.r else f.s.bottom }

  /** The box about to be `n` rows high: scroll, or give rows back, and move the margin. */
  function Resized(f: Fixed, n: nat): Fixed
    requires Fits(f) && f.open && n < |f.s.rows|
  {
    var s, last := f.s, |f.s.rows| - n - 1;
    var saved := if f.caret.None? then Some(s.cursor) else s.saved;
    if n > f.k then
      var fed := FedBy(s.(cursor := Cell(Row(f), if f.caret.None? then s.cursor.c else 0)), n - f.k);
      Fixed(fed.(bottom := last, saved := saved,
                 cursor := if f.caret.None? then Cell(Max(0, s.cursor.r - (n - f.k)), s.cursor.c) else Cell(last, 0)), n, true, None)
    else
      Fixed(Screen(Erased(s.rows, |s.rows| - f.k, f.k - n), s.scrollback,
                   if f.caret.None? then s.cursor else Cell(last, 0), last, saved), n, true, None)
  }

  /** The box drawn over the last rows; the region's cursor comes back untouched. */
  function Painted(f: Fixed, lines: seq<string>, caret: Option<Place>): Fixed
    requires Fits(f) && f.open && |lines| == f.k && Drawable(f, lines, caret)
  {
    var s, first := f.s, |f.s.rows| - f.k;
    f.(s := s.(rows := s.rows[..first] + lines,
    saved := if f.caret.None? then Some(s.cursor) else s.saved,
    cursor := if caret.Some? then Cell(first + caret.value.row, caret.value.column - 1)
              else if f.caret.None? then s.cursor else Cell(s.bottom, 0)),
    caret := caret)
  }

  function Drawn(f: Fixed, lines: seq<string>, caret: Option<Place>): (f': Fixed)
    requires Fits(f) && f.open && Drawable(f, lines, caret)
    ensures Fits(f') && f'.open && f'.k == |lines| && f'.caret == caret && |f'.s.rows| == |f.s.rows|
    ensures f'.s.rows[|f.s.rows| - |lines|..] == lines
    // The cursor is where the box wants it, or in the region.
    ensures caret.Some? ==> f'.s.cursor == Cell(|f.s.rows| - |lines| + caret.value.row, caret.value.column - 1)
    ensures caret.None? && f.caret.Some? ==> f'.s.cursor == Cell(|f.s.rows| - |lines| - 1, 0)
  {
    Painted(if |lines| == f.k then f else Resized(f, |lines|), lines, caret)
  }

  /** Margins gone, cursor on a fresh row under the box. */
  function Closed(f: Fixed): Fixed
    requires Fits(f)
  {
    if !f.open then f
    else
      var last := |f.s.rows| - 1;
      Fixed(f.s.(scrollback := f.s.scrollback + f.s.rows[..1], rows := Scrolled(f.s.rows, last, 1),
                 bottom := last, cursor := Cell(last, 0)), 0, false, None)
  }

  class FondoDriver {
    const output: Tty
    const active: bool
    var k: nat
    var open: bool
    var caret: Option<Place>

    constructor (output: Tty, active: bool)
      ensures this.output == output && this.active == active && !open && k == 0 && caret.None?
    {
      this.output, this.active, k, open, caret := output, active, 0, false, None;
    }

    ghost function View(): Fixed
      reads this, output
    {
      Fixed(output.screen, k, open, caret)
    }

    function LastRegionRow(): nat
      reads this, output
    {
      Max(0, |output.screen.rows| - k - 1)
    }

    method Margins()
      requires Sane(output.screen) && k < |output.screen.rows|
      modifies output
      ensures output.screen == old(output.screen).(bottom := LastRegionRow(), cursor := Cell(0, 0))
    {
      output.Emit(Decstbm(LastRegionRow()));
    }

    method ToRegion()
      requires Sane(output.screen) && k < |output.screen.rows|
      modifies output
      ensures output.screen == old(output.screen).(cursor := Cell(LastRegionRow(), 0))
    {
      output.Emit(Cup(Cell(LastRegionRow(), 0)));
    }

    /** Line feeds from the last row of a screen without margins. */
    method ScrollAway(d: nat)
      requires Sane(output.screen) && output.screen.bottom == |output.screen.rows| - 1 && d <= |output.screen.rows|
      modifies output
      ensures var s := old(output.screen);
              output.screen == s.(scrollback := s.scrollback + s.rows[..d], rows := Scrolled(s.rows, s.bottom, d), cursor := Cell(s.bottom, 0))
    {
      output.Emit(Cup(Cell(|output.screen.rows| - 1, 0)));
      output.Scroll(d);
    }

    /** `row` is a 1-based answer about the cursor, perhaps from before it moved. */
    method Aggancia(row: nat, n: nat) returns (hooked: bool)
      requires Fits(View()) && row <= |output.screen.rows| && n < |output.screen.rows|
      modifies this, output
      ensures View() == if active then Hooked(old(View()), row, n) else old(View())
      ensures hooked <==> active && View().open
    {
      if !active { return false; }
      if open { return true; }
      var below := |output.screen.rows| - n;
      if row <= below { return false; }
      open, k := true, n;
      var d := row - below;
      ScrollAway(d);
      Margins();
      ToRegion();
      caret := None;
      hooked := true;
    }

    method Chiudi()
      requires Fits(View())
      modifies this, output
      ensures View() == if active then Closed(old(View())) else old(View())
    {
      if !active || !open { return; }
      open := false;
      output.Emit(Decstbm(|output.screen.rows| - 1));
      output.Emit(Cup(Cell(|output.screen.rows| - 1, 0)));
      output.Emit(Lf);
      k := 0;
      caret := None;
    }

    /** The content scrolled up ahead of a growing box; from the region, the cursor saved first. */
    method MakeRoom(d: nat)
      requires Fits(View()) && open && d <= output.screen.bottom + 1
      modifies output
      ensures var s := old(output.screen);
              output.screen == if caret.None? then FedBy(s.(saved := Some(s.cursor)), d) else FedBy(s.(cursor := Cell(s.bottom, 0)), d)
    {
      if caret.None? { output.Emit(Decsc); } else { ToRegion(); }
      output.Scroll(d);
    }

    /** The margins of the box as it is now, and the region's cursor: the saved one moved up with its text, or the last row. */
    method Resettle(wasInRegion: bool, d: nat)
      requires Sane(output.screen) && k < |output.screen.rows| && (wasInRegion ==> output.screen.saved.Some?)
      modifies output
      ensures var s := old(output.screen);
              output.screen == s.(bottom := LastRegionRow(),
                                  cursor := if wasInRegion then Cell(Max(0, s.saved.value.r - d), s.saved.value.c) else Cell(LastRegionRow(), 0))
    {
      Margins();
      if wasInRegion {
        output.Emit(Decrc);
        output.Emit(Cuu(d));
      } else {
        ToRegion();
      }
    }

    method Grow(n: nat)
      requires Fits(View()) && open && k < n < |output.screen.rows|
      modifies this, output
      ensures View() == Resized(old(View()), n)
    {
      var wasInRegion := caret.None?;
      var d := n - k;
      MakeRoom(d);
      k := n;
      Resettle(wasInRegion, d);
      caret := None;
    }

    method Wipe(row: nat)
      requires Sane(output.screen) && row < |output.screen.rows|
      modifies output
      ensures Sane(output.screen)
      ensures output.screen == old(output.screen).(rows := old(output.screen.rows)[row := ""], cursor := Cell(row, 0))
    {
      output.Emit(Cup(Cell(row, 0)));
      output.Emit(El2);
    }

    method Line(row: nat, line: string)
      requires Sane(output.screen) && row < |output.screen.rows| && '\n' !in line
      modifies output
      ensures Sane(output.screen)
      ensures output.screen == old(output.screen).(rows := old(output.screen.rows)[row := line], cursor := Cell(row, |line|))
    {
      Wipe(row);
      TypedLine(output.screen, line, "");
      assert "" + line == line;
      output.Write(line);
    }

    method WipeRows(from: nat, count: nat)
      requires Sane(output.screen) && from + count <= |output.screen.rows|
      modifies output
      ensures Sane(output.screen)
      ensures output.screen == old(output.screen).(rows := Erased(old(output.screen).rows, from, count), cursor := output.screen.cursor)
    {
      ghost var s := output.screen;
      assert Erased(s.rows, from, 0) == s.rows;
      var i := 0;
      while i < count
        invariant 0 <= i <= count && Sane(output.screen)
        invariant output.screen == s.(rows := Erased(s.rows, from, i), cursor := output.screen.cursor)
      {
        ErasedNext(s.rows, from, i);
        Wipe(from + i);
        i := i + 1;
      }
    }

    method Lines(from: nat, lines: seq<string>)
      requires Sane(output.screen) && from + |lines| <= |output.screen.rows| && Plain(lines)
      modifies output
      ensures Sane(output.screen)
      ensures output.screen == old(output.screen).(rows := Overlaid(old(output.screen).rows, from, lines), cursor := output.screen.cursor)
    {
      ghost var s := output.screen;
      assert Overlaid(s.rows, from, lines[..0]) == s.rows;
      var i := 0;
      while i < |lines|
        invariant 0 <= i <= |lines| && Sane(output.screen)
        invariant output.screen == s.(rows := Overlaid(s.rows, from, lines[..i]), cursor := output.screen.cursor)
      {
        OverlaidNext(s.rows, from, lines, i);
        Line(from + i, lines[i]);
        i := i + 1;
      }
      assert lines[..i] == lines;
    }

    /** The rows a shrinking box gives back, wiped; from the region, the cursor saved first. */
    method GiveBack(n: nat)
      requires Fits(View()) && open && n < k
      modifies output
      ensures Sane(output.screen)
      ensures output.screen == old(output.screen).(
                rows := Erased(old(output.screen).rows, |old(output.screen).rows| - k, k - n),
                saved := if caret.None? then Some(old(output.screen).cursor) else old(output.screen).saved,
                cursor := output.screen.cursor)
    {
      if caret.None? { output.Emit(Decsc); } else { ToRegion(); }
      WipeRows(|output.screen.rows| - k, k - n);
    }

    method Shrink(n: nat)
      requires Fits(View()) && open && n < k
      modifies this, output
      ensures View() == Resized(old(View()), n)
    {
      var wasInRegion := caret.None?;
      GiveBack(n);
      k := n;
      Margins();
      if wasInRegion { output.Emit(Decrc); } else { ToRegion(); }
      caret := None;
    }

    method Paint(lines: seq<string>, where: Option<Place>)
      requires Fits(View()) && open && |lines| == k && Drawable(View(), lines, where)
      modifies this, output
      ensures View() == Painted(old(View()), lines, where)
    {
      var wasInRegion := caret.None?;
      if wasInRegion { output.Emit(Decsc); }
      var first := |output.screen.rows| - k;
      Lines(first, lines);
      assert Overlaid(old(output.screen).rows, first, lines) == old(output.screen).rows[..first] + lines;
      caret := where;
      if where.None? {
        if wasInRegion { output.Emit(Decrc); } else { ToRegion(); }
      } else {
        output.Emit(Cup(Cell(first + where.value.row, where.value.column - 1)));
      }
    }

    method Disegna(lines: seq<string>, where: Option<Place>)
      requires Fits(View()) && Drawable(View(), lines, where)
      modifies this, output
      ensures View() == if active && old(open) then Drawn(old(View()), lines, where) else old(View())
    {
      if !active || !open { return; }
      if |lines| > k {
        Grow(|lines|);
      } else if |lines| < k {
        Shrink(|lines|);
      }
      Paint(lines, where);
    }

    method NellaRegione()
      requires Fits(View())
      modifies output
      ensures output.screen == if active && open then old(output.screen).(cursor := Cell(output.screen.bottom, 0)) else old(output.screen)
    {
      if !active || !open { return; }
      ToRegion();
    }

    method NelRiquadro()
      requires Fits(View()) && (caret.Some? ==> caret.value.column >= 1)
      modifies output
      ensures output.screen == if active && open && caret.Some? then old(output.screen).(cursor := BoxCell(old(View()))) else old(output.screen)
      ensures active && open && caret.Some? ==>
                output.screen.cursor == Cell(|output.screen.rows| - k + caret.value.row, caret.value.column - 1)
    {
      if !active || !open || caret.None? { return; }
      output.Emit(Cup(Cell(|output.screen.rows| - k + caret.value.row, caret.value.column - 1)));
    }
  }

  function BoxCell(f: Fixed): Cell
    requires f.k <= |f.s.rows| && f.caret.Some? && f.caret.value.column >= 1
  {
    Cell(|f.s.rows| - f.k + f.caret.value.row, f.caret.value.column - 1)
  }
}
