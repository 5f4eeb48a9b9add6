/**
 * The simple editor the two-dimensional one (cli/editor.ts) stands for: a flat text with
 * one offset, written as what is before and what is after the cursor.
 */
module FlatText {

  import opened Common
  import opened Editor

  datatype Flat = Flat(
    before: string,
    after: string,
    history: seq<string>,
    index: Option<nat>,
    draft: Option<string>,
    pasting: bool)

  function LastLine(b: string): (l: string)
    ensures |l| <= |b|
  {
    if b == "" || b[|b| - 1] == '\n' then "" else LastLine(b[..|b| - 1]) + [b[|b| - 1]]
  }

  function FirstLine(a: string): (l: string)
    ensures |l| <= |a|
  {
    if a == "" || a[0] == '\n' then "" else [a[0]] + FirstLine(a[1..])
  }

  /** Every break, however the terminal spells it, as one line feed. */
  function Normal(s: string): (n: string)
    decreases |s|
  {
    if s == "" then ""
    else if |s| >= 2 && s[0] == '\r' && s[1] == '\n' then "\n" + Normal(s[2..])
    else (if s[0] == '\r' then "\n" else [s[0]]) + Normal(s[1..])
  }

  function MoveTo(f: Flat, at: nat): Flat
    requires at <= |f.before| + |f.after|
  {
    f.(before := (f.before + f.after)[..at], after := (f.before + f.after)[at..])
  }

  function Recalled(f: Flat, index: Option<nat>): Flat {
    f.(index := index, after := "",
    before := if index.None? then (if f.draft.Some? then f.draft.value else "")
              else if index.value < |f.history| then f.history[index.value] else "")
  }

  /** To the row above at the same column, or into history from the first row. */
  function FlatUp(f: Flat): Flat {
    var l := LastLine(f.before);
    if |l| < |f.before| then
      var above := f.before[..|f.before| - |l| - 1];
      var p := LastLine(above);
      MoveTo(f, |above| - |p| + Min(|l|, |p|))
    else if |f.history| == 0 then f
    else
      Recalled(if f.index.None? then f.(draft := Some(f.before + f.after)) else f,
               Some(if f.index.None? then |f.history| - 1 else Max(0, f.index.value - 1)))
  }

  function FlatDown(f: Flat): Flat {
    var l := FirstLine(f.after);
    if |l| < |f.after| then
      var below := FirstLine(f.after[|l| + 1..]);
      MoveTo(f, |f.before| + |l| + 1 + Min(|LastLine(f.before)|, |below|))
    else if f.index.None? then f
    else Recalled(f, if f.index.value + 1 >= |f.history| then None else Some(f.index.value + 1))
  }

  function FlatTyped(f: Flat, k: Key): Flat {
    var ch := k.sequence;
    if ch == "" || k.ctrl || k.meta || ch[0] == ESC then f
    else if |ch| == 1 && ch[0] < ' ' && ch[0] != '\n' && ch[0] != '\r' then f
    else f.(before := f.before + Normal(ch))
  }

  function FlatDo(f: Flat, c: Command): (Flat, Action) {
    var l := LastLine(f.before);
    match c
    case PasteOn => (f.(pasting := true), Nothing)
    case PasteOff => (f.(pasting := false), Nothing)
    case Cancel => (f, Interrupt)
    case DeleteOrQuit =>
      if f.before == "" && f.after == "" then (f, Quit)
      else if f.after != "" && f.after[0] != '\n' then (f.(after := f.after[1..]), Nothing)
      else (f, Nothing)
    case NewRow => (f.(before := f.before + "\n"), Nothing)
    case Submit => (f, Send(f.before + f.after))
    case Rub => (if f.before == "" then f else f.(before := f.before[..|f.before| - 1]), Nothing)
    case ToStart => (MoveTo(f, |f.before| - |l|), Nothing)
    case ToEnd => (MoveTo(f, |f.before| + |FirstLine(f.after)|), Nothing)
    case KillToStart => (f.(before := f.before[..|f.before| - |l|]), Nothing)
    case KillToEnd => (f.(after := f.after[|FirstLine(f.after)|..]), Nothing)
    case KillTheWord => (f.(before := f.before[..|f.before| - (|l| - WordStart(l, |l|))]), Nothing)
    case GoLeft => (if f.before == "" then f else MoveTo(f, |f.before| - 1), Nothing)
    case GoRight => (if f.after == "" then f else MoveTo(f, |f.before| + 1), Nothing)
    case GoUp => (FlatUp(f), Nothing)
    case GoDown => (FlatDown(f), Nothing)
    case Text(k) => (FlatTyped(f, k), Nothing)
  }

  function FlatPress(f: Flat, k: Key): (Flat, Action) { FlatDo(f, Meaning(k, f.pasting)) }

  // ---- The two-dimensional state as a flat one ---------------------------------------

  /** Rows above the cursor, each with its break. */
  function Lead(lines: seq<string>): string {
    if lines == [] then "" else Lead(lines[..|lines| - 1]) + lines[|lines| - 1] + "\n"
  }

  /** Rows below the cursor, each after its break. */
  function Trail(lines: seq<string>): string {
    if lines == [] then "" else "\n" + lines[0] + Trail(lines[1..])
  }

  function Flatten(s: State): Flat
    requires Valid(s)
  {
    Flat(Lead(s.lines[..s.row]) + Line(s)[..s.col], Line(s)[s.col..] + Trail(s.lines[s.row + 1..]), s.history, s.index,
         if s.draft.Some? then Some(Join(s.draft.value)) else None, s.pasting)
  }

  lemma LeadSnoc(lines: seq<string>, line: string)
    ensures Lead(lines + [line]) == Lead(lines) + line + "\n"
  {
    assert (lines + [line])[..|lines|] == lines;
  }

  lemma LastOfLead(lines: seq<string>, x: string)
    requires OneLine(x)
    ensures LastLine(Lead(lines) + x) == x
    decreases |x|
  {
    var b := Lead(lines) + x;
    if x != "" {
      LastOfLead(lines, x[..|x| - 1]);
      assert b[..|b| - 1] == Lead(lines) + x[..|x| - 1];
      assert x[..|x| - 1] + [x[|x| - 1]] == x;
      assert b[|b| - 1] == x[|x| - 1];
    } else {
      assert b == Lead(lines);
    }
  }

  lemma FirstOfTrail(x: string, lines: seq<string>)
    requires OneLine(x)
    ensures FirstLine(x + Trail(lines)) == x
    decreases |x|
  {
    if x != "" {
      FirstOfTrail(x[1..], lines);
      assert (x + Trail(lines))[1..] == x[1..] + Trail(lines);
    } else {
      assert x + Trail(lines) == Trail(lines);
    }
  }

  /** The whole text, read at any row. */
  lemma {:induction false} JoinAt(lines: seq<string>, row: nat)
    requires row < |lines|
    ensures Join(lines) == Lead(lines[..row]) + lines[row] + Trail(lines[row + 1..])
    decreases row, |lines|
  {
    if row > 0 {
      JoinAt(lines, row - 1);
      assert lines[..row] == lines[..row - 1] + [lines[row - 1]];
      LeadSnoc(lines[..row - 1], lines[row - 1]);
      assert lines[row - 1 + 1..][1..] == lines[row + 1..];
    } else {
      assert lines[..0] == [];
      JoinTrail(lines);
    }
  }

  lemma {:induction false} JoinTrail(lines: seq<string>)
    requires |lines| > 0
    ensures Join(lines) == lines[0] + Trail(lines[1..])
    decreases |lines|
  {
    if |lines| > 1 { JoinTrail(lines[1..]); }
  }

  lemma {:induction false} JoinSplit(s: string)
    ensures Join(Split(s)) == s
    decreases |s|
  {
    if s != "" {
      JoinSplit(s[1..]);
      var rest := Split(s[1..]);
      if s[0] == '\n' {
        assert ([""] + rest)[1..] == rest;
      } else {
        JoinTrail(rest);
        var whole := [[s[0]] + rest[0]] + rest[1..];
        JoinTrail(whole);
        assert whole[1..] == rest[1..];
      }
    }
  }

  /** The text of a state is before and after its cursor. */
  lemma JoinFlat(s: State)
    requires Valid(s)
    ensures Join(s.lines) == Flatten(s).before + Flatten(s).after
  {
    JoinAt(s.lines, s.row);
    assert Line(s) == Line(s)[..s.col] + Line(s)[s.col..];
  }

  lemma FlatLines(s: State)
    requires Valid(s)
    ensures LastLine(Flatten(s).before) == Line(s)[..s.col] && FirstLine(Flatten(s).after) == Line(s)[s.col..]
    ensures s.row == 0 <==> |LastLine(Flatten(s).before)| == |Flatten(s).before|
    ensures s.row == |s.lines| - 1 <==> |FirstLine(Flatten(s).after)| == |Flatten(s).after|
  {
    LastOfLead(s.lines[..s.row], Line(s)[..s.col]);
    FirstOfTrail(Line(s)[s.col..], s.lines[s.row + 1..]);
    if s.row > 0 {
      assert s.lines[..s.row] == s.lines[..s.row - 1] + [s.lines[s.row - 1]];
      LeadSnoc(s.lines[..s.row - 1], s.lines[s.row - 1]);
    }
  }

  /** An edit of the current row, leaving `x` before the cursor and `y` after it. */
  lemma EditLine(s: State, x: string, y: string)
    requires Valid(s) && OneLine(x) && OneLine(y)
    ensures var t := WithLine(s, x + y, |x|);
            Valid(t) && Flatten(t) == Flatten(s).(before := Lead(s.lines[..s.row]) + x, after := y + Trail(s.lines[s.row + 1..]))
  {
    var t := WithLine(s, x + y, |x|);
    assert t.lines[..s.row] == s.lines[..s.row] && t.lines[s.row + 1..] == s.lines[s.row + 1..];
    assert (x + y)[..|x|] == x && (x + y)[|x|..] == y;
  }

  lemma InsertFlat(s: State, text: string)
    requires Valid(s) && OneLine(text)
    ensures Valid(Insert(s, text)) && Flatten(Insert(s, text)) == Flatten(s).(before := Flatten(s).before + text)
  {
    EditLine(s, Line(s)[..s.col] + text, Line(s)[s.col..]);
    assert Lead(s.lines[..s.row]) + (Line(s)[..s.col] + text) == Flatten(s).before + text;
  }

  lemma BreakFlat(s: State)
    requires Valid(s)
    ensures Valid(Break(s)) && Flatten(Break(s)) == Flatten(s).(before := Flatten(s).before + "\n")
  {
    var t := Break(s);
    ValidBreak(s);
    assert t.lines[..t.row] == s.lines[..s.row] + [Line(s)[..s.col]];
    LeadSnoc(s.lines[..s.row], Line(s)[..s.col]);
    assert t.lines[t.row + 1..] == s.lines[s.row + 1..];
  }

  lemma MergeFlat(s: State)
    requires Valid(s) && s.col == 0 && s.row > 0
    ensures var f := Flatten(s); f.before != "" && Valid(Backspace(s)) && Flatten(Backspace(s)) == f.(before := f.before[..|f.before| - 1])
  {
    var t, above := Backspace(s), s.lines[s.row - 1];
    LeadNext(s, s.row - 1);
    assert t.lines[..t.row] == s.lines[..s.row - 1] && t.lines[t.row + 1..] == s.lines[s.row + 1..];
    assert forall i | s.row <= i < |t.lines| :: t.lines[i] == s.lines[i + 1];
    assert (above + Line(s))[..|above|] == above && (above + Line(s))[|above|..] == Line(s)[0..];
    assert Line(s)[..0] == "" && Lead(s.lines[..s.row]) + "" == Lead(s.lines[..s.row]);
    assert (Lead(s.lines[..s.row - 1]) + above + "\n")[..|Lead(s.lines[..s.row])| - 1] == Lead(s.lines[..s.row - 1]) + above;
  }

  lemma BackspaceFlat(s: State)
    requires Valid(s)
    ensures Valid(Backspace(s))
    ensures Flatten(Backspace(s)) == var f := Flatten(s); if f.before == "" then f else f.(before := f.before[..|f.before| - 1])
  {
    if s.col > 0 {
      EditLine(s, Line(s)[..s.col - 1], Line(s)[s.col..]);
      var b := Flatten(s).before;
      assert Lead(s.lines[..s.row]) + Line(s)[..s.col - 1] == b[..|b| - 1];
    } else if s.row > 0 {
      MergeFlat(s);
    } else {
      assert s.lines[..0] == [];
    }
  }

  /** The cursor's offset in the flat text. */
  function Offset(s: State): nat
    requires Valid(s)
  {
    |Lead(s.lines[..s.row])| + s.col
  }

  /** Any place in the buffer is a place in the flat text. */
  lemma MoveFlat(s: State, t: State)
    requires Valid(s) && t == s.(row := t.row, col := t.col) && t.row < |s.lines| && t.col <= |s.lines[t.row]|
    ensures Offset(t) <= |Flatten(s).before| + |Flatten(s).after| && Flatten(t) == MoveTo(Flatten(s), Offset(t))
  {
    JoinFlat(s);
    JoinFlat(t);
    var text := Flatten(s).before + Flatten(s).after;
    assert text == Flatten(t).before + Flatten(t).after;
    assert Flatten(t).before == text[..|Flatten(t).before|];
    assert Flatten(t).after == text[|Flatten(t).before|..];
  }

  lemma LeadNext(s: State, row: nat)
    requires Valid(s) && row + 1 < |s.lines|
    ensures Lead(s.lines[..row + 1]) == Lead(s.lines[..row]) + s.lines[row] + "\n"
  {
    assert s.lines[..row + 1] == s.lines[..row] + [s.lines[row]];
    LeadSnoc(s.lines[..row], s.lines[row]);
  }

  lemma OffsetOfBefore(s: State)
    requires Valid(s)
    ensures Offset(s) == |Flatten(s).before|
  {
  }

  lemma OffsetLeft(s: State)
    requires Valid(s)
    ensures Valid(Left(s)) && Offset(Left(s)) == Max(0, Offset(s) - 1)
  {
    if s.row > 0 { LeadNext(s, s.row - 1); }
  }

  lemma LeftFlat(s: State)
    requires Valid(s)
    ensures Valid(Left(s))
    ensures Flatten(Left(s)) == var f := Flatten(s); if f.before == "" then f else MoveTo(f, |f.before| - 1)
  {
    MoveFlat(s, Left(s));
    OffsetOfBefore(s);
    OffsetLeft(s);
    if Flatten(s).before == "" { FlatLines(s); }
  }

  lemma OffsetRight(s: State)
    requires Valid(s)
    ensures Valid(Right(s))
    ensures Offset(Right(s)) == Offset(s) + if s.col == |Line(s)| && s.row == |s.lines| - 1 then 0 else 1
  {
    if s.row < |s.lines| - 1 { LeadNext(s, s.row); }
  }

  lemma RightFlat(s: State)
    requires Valid(s)
    ensures Valid(Right(s))
    ensures Flatten(Right(s)) == var f := Flatten(s); if f.after == "" then f else MoveTo(f, |f.before| + 1)
  {
    MoveFlat(s, Right(s));
    OffsetOfBefore(s);
    OffsetRight(s);
    FlatLines(s);
  }

  lemma RecallFlat(s: State, index: Option<nat>)
    requires Valid(s) && (index.Some? ==> index.value < |s.history| && s.draft.Some?)
    ensures Valid(FromHistory(s, index)) && Flatten(FromHistory(s, index)) == Recalled(Flatten(s), index)
  {
    var t := FromHistory(s, index);
    if index.Some? { JoinSplit(s.history[index.value]); }
    JoinFlat(t);
    assert t.lines[t.row + 1..] == [];
    assert Flatten(t).before + "" == Flatten(t).before;
  }

  lemma FlatUpAt(f: Flat, above: string, l: string)
    requires f.before == above + ("\n" + l) && LastLine(f.before) == l
    ensures |above| - |LastLine(above)| + Min(|l|, |LastLine(above)|) <= |f.before| + |f.after|
    ensures FlatUp(f) == MoveTo(f, |above| - |LastLine(above)| + Min(|l|, |LastLine(above)|))
  {
    assert f.before[..|f.before| - |l| - 1] == above;
  }

  lemma OffsetUp(s: State)
    requires Valid(s) && s.row > 0
    ensures Offset(Up(s)) == |Above(s)| - |s.lines[s.row - 1]| + Min(|Line(s)[..s.col]|, |s.lines[s.row - 1]|)
  {
  }

  /** The text before the row above's break, and what stands after it. */
  function Above(s: State): string
    requires Valid(s) && s.row > 0
  {
    Lead(s.lines[..s.row - 1]) + s.lines[s.row - 1]
  }

  lemma BeforeFromAbove(s: State)
    requires Valid(s) && s.row > 0
    ensures Flatten(s).before == Above(s) + ("\n" + Line(s)[..s.col])
  {
    LeadNext(s, s.row - 1);
  }

  lemma AboveLines(s: State)
    requires Valid(s) && s.row > 0
    ensures LastLine(Above(s)) == s.lines[s.row - 1] && LastLine(Flatten(s).before) == Line(s)[..s.col]
  {
    LastOfLead(s.lines[..s.row], Line(s)[..s.col]);
    LastOfLead(s.lines[..s.row - 1], s.lines[s.row - 1]);
  }

  lemma FlatUpOffset(s: State)
    requires Valid(s) && s.row > 0
    ensures Offset(Up(s)) <= |Flatten(s).before| + |Flatten(s).after| && FlatUp(Flatten(s)) == MoveTo(Flatten(s), Offset(Up(s)))
  {
    AboveLines(s);
    BeforeFromAbove(s);
    FlatUpAt(Flatten(s), Above(s), Line(s)[..s.col]);
    OffsetUp(s);
  }

  lemma RowUpFlat(s: State)
    requires Valid(s) && s.row > 0
    ensures Valid(Up(s)) && Flatten(Up(s)) == FlatUp(Flatten(s))
  {
    FlatUpOffset(s);
    MoveFlat(s, Up(s));
  }

  lemma UpFlat(s: State)
    requires Valid(s)
    ensures Valid(Up(s)) && Flatten(Up(s)) == FlatUp(Flatten(s))
  {
    if s.row > 0 {
      RowUpFlat(s);
    } else {
      FlatLines(s);
      if |s.history| > 0 {
        JoinFlat(s);
        var base := if s.index.None? then s.(draft := Some(s.lines)) else s;
        RecallFlat(base, Some(if s.index.None? then |s.history| - 1 else Max(0, s.index.value - 1)));
      }
    }
  }

  lemma FlatDownAt(f: Flat, l: string, rest: string)
    requires f.after == l + ("\n" + rest) && FirstLine(f.after) == l
    ensures |f.before| + |l| + 1 + Min(|LastLine(f.before)|, |FirstLine(rest)|) <= |f.before| + |f.after|
    ensures FlatDown(f) == MoveTo(f, |f.before| + |l| + 1 + Min(|LastLine(f.before)|, |FirstLine(rest)|))
  {
    assert f.after[|l| + 1..] == ("\n" + rest)[1..] == rest;
  }

  lemma OffsetDown(s: State)
    requires Valid(s) && s.row < |s.lines| - 1
    ensures Offset(Down(s)) == |Flatten(s).before| + |Line(s)[s.col..]| + 1 + Min(s.col, |s.lines[s.row + 1]|)
  {
    LeadNext(s, s.row);
  }

  lemma AfterFromBelow(s: State)
    requires Valid(s) && s.row < |s.lines| - 1
    ensures Flatten(s).after == Line(s)[s.col..] + ("\n" + Below(s))
  {
    var below, rest := s.lines[s.row + 1], s.lines[s.row + 2..];
    assert s.lines[s.row + 1..][1..] == rest;
    assert "\n" + (below + Trail(rest)) == "\n" + below + Trail(rest) == Trail(s.lines[s.row + 1..]);
  }

  function Below(s: State): string
    requires Valid(s) && s.row < |s.lines| - 1
  {
    s.lines[s.row + 1] + Trail(s.lines[s.row + 2..])
  }

  lemma BelowLines(s: State)
    requires Valid(s) && s.row < |s.lines| - 1
    ensures FirstLine(Below(s)) == s.lines[s.row + 1]
    ensures FirstLine(Flatten(s).after) == Line(s)[s.col..] && LastLine(Flatten(s).before) == Line(s)[..s.col]
  {
    LastOfLead(s.lines[..s.row], Line(s)[..s.col]);
    FirstOfTrail(Line(s)[s.col..], s.lines[s.row + 1..]);
    FirstOfTrail(s.lines[s.row + 1], s.lines[s.row + 2..]);
  }

  lemma FlatDownOffset(s: State)
    requires Valid(s) && s.row < |s.lines| - 1
    ensures Offset(Down(s)) <= |Flatten(s).before| + |Flatten(s).after| && FlatDown(Flatten(s)) == MoveTo(Flatten(s), Offset(Down(s)))
  {
    BelowLines(s);
    AfterFromBelow(s);
    FlatDownAt(Flatten(s), Line(s)[s.col..], Below(s));
    OffsetDown(s);
  }

  lemma RowDownFlat(s: State)
    requires Valid(s) && s.row < |s.lines| - 1
    ensures Valid(Down(s)) && Flatten(Down(s)) == FlatDown(Flatten(s))
  {
    FlatDownOffset(s);
    MoveFlat(s, Down(s));
  }

  lemma LastRowAfter(s: State)
    requires Valid(s) && s.row == |s.lines| - 1
    ensures |FirstLine(Flatten(s).after)| == |Flatten(s).after|
  {
    FlatLines(s);
  }

  /** Where a walk down through history goes next. */
  function NextRecalled(index: nat, n: nat): Option<nat> { if index + 1 >= n then None else Some(index + 1) }

  lemma FlatDownRecalls(f: Flat)
    requires |FirstLine(f.after)| == |f.after|
    ensures f.index.None? ==> FlatDown(f) == f
    ensures f.index.Some? ==> FlatDown(f) == Recalled(f, NextRecalled(f.index.value, |f.history|))
  {
  }

  lemma DownRecalls(s: State)
    requires Valid(s) && s.row == |s.lines| - 1
    ensures s.index.None? ==> Down(s) == s
    ensures s.index.Some? ==> Down(s) == FromHistory(s, NextRecalled(s.index.value, |s.history|))
  {
  }

  lemma RecalledAlike(s: State, t: State, f: Flat, index: Option<nat>)
    requires Valid(s) && (index.Some? ==> index.value < |s.history| && s.draft.Some?)
    requires t == FromHistory(s, index) && f == Recalled(Flatten(s), index)
    ensures Valid(t) && Flatten(t) == f
  {
    RecallFlat(s, index);
  }

  lemma RecallDownFlat(s: State)
    requires Valid(s) && s.row == |s.lines| - 1
    ensures Valid(Down(s)) && Flatten(Down(s)) == FlatDown(Flatten(s))
  {
    LastRowAfter(s);
    FlatDownRecalls(Flatten(s));
    DownRecalls(s);
    if s.index.Some? {
      RecalledAlike(s, Down(s), FlatDown(Flatten(s)), NextRecalled(s.index.value, |s.history|));
    }
  }

  lemma DownFlat(s: State)
    requires Valid(s)
    ensures Valid(Down(s)) && Flatten(Down(s)) == FlatDown(Flatten(s))
  {
    if s.row < |s.lines| - 1 { RowDownFlat(s); } else { RecallDownFlat(s); }
  }

  lemma {:induction false} WordPrefix(line: string, col: nat, i: nat)
    requires i <= col <= |line|
    ensures OverBlanks(line, i) == OverBlanks(line[..col], i) && OverWord(line, i) == OverWord(line[..col], i)
    decreases i
  {
    if i > 0 { WordPrefix(line, col, i - 1); }
  }

  lemma WordStartPrefix(line: string, col: nat)
    requires col <= |line|
    ensures WordStart(line[..col], |line[..col]|) == WordStart(line, col)
  {
    WordPrefix(line, col, col);
    WordPrefix(line, col, OverBlanks(line, col));
  }

  lemma DropTail(lead: string, line: string, col: nat, i: nat)
    requires i <= col <= |line|
    ensures (lead + line[..col])[..|lead + line[..col]| - (col - i)] == lead + line[..i]
  {
  }

  lemma KillWordFlat(s: State)
    requires Valid(s)
    ensures Valid(KillWord(s))
    ensures var f := Flatten(s); var l := LastLine(f.before);
            Flatten(KillWord(s)) == f.(before := f.before[..|f.before| - (|l| - WordStart(l, |l|))])
  {
    var i, lead := WordStart(Line(s), s.col), Lead(s.lines[..s.row]);
    LastOfLead(s.lines[..s.row], Line(s)[..s.col]);
    WordStartPrefix(Line(s), s.col);
    DropTail(lead, Line(s), s.col, i);
    EditLine(s, Line(s)[..i], Line(s)[s.col..]);
  }

  lemma JoinNext(b: string, rows: seq<string>)
    requires |rows| > 1
    ensures b + rows[0] + "\n" + Join(rows[1..]) == b + Join(rows)
  {
  }

  lemma {:induction false} InsertRowsFlat(s: State, rows: seq<string>)
    requires Valid(s) && Rows(rows)
    ensures Flatten(InsertRows(s, rows)) == Flatten(s).(before := Flatten(s).before + Join(rows))
    decreases |rows|
  {
    var s1 := Insert(s, rows[0]);
    InsertFlat(s, rows[0]);
    if |rows| > 1 {
      BreakFlat(s1);
      InsertRowsFlat(Break(s1), rows[1..]);
      JoinNext(Flatten(s).before, rows);
    }
  }

  lemma {:induction false} JoinPieces(s: string)
    ensures Join(Pieces(s)) == Normal(s)
    decreases |s|
  {
    if s != "" {
      if |s| >= 2 && s[0] == '\r' && s[1] == '\n' {
        JoinPieces(s[2..]);
        assert ([""] + Pieces(s[2..]))[1..] == Pieces(s[2..]);
      } else {
        JoinPieces(s[1..]);
        var rest := Pieces(s[1..]);
        if s[0] == '\r' || s[0] == '\n' {
          assert ([""] + rest)[1..] == rest;
        } else {
          var whole := [[s[0]] + rest[0]] + rest[1..];
          JoinTrail(rest);
          JoinTrail(whole);
          assert whole[1..] == rest[1..];
        }
      }
    }
  }

  lemma {:induction false} NormalOneLine(s: string)
    requires '\n' !in s && '\r' !in s
    ensures Normal(s) == s
    decreases |s|
  {
    if s != "" { NormalOneLine(s[1..]); }
  }

  lemma TypedFlat(s: State, k: Key)
    requires Valid(s)
    ensures Valid(Editor.Typed(s, k)) && Flatten(Editor.Typed(s, k)) == FlatTyped(Flatten(s), k)
  {
    var ch := k.sequence;
    if ch == "" || k.ctrl || k.meta || ch[0] == ESC {
    } else if '\n' in ch || '\r' in ch {
      InsertRowsFlat(s, Pieces(ch));
      JoinPieces(ch);
    } else if !(|ch| == 1 && ch[0] < ' ') {
      InsertFlat(s, ch);
      NormalOneLine(ch);
    }
  }

  lemma AfterLine(s: State)
    requires Valid(s)
    ensures s.col < |Line(s)| ==> Flatten(s).after[0] == Line(s)[s.col] && Flatten(s).after[0] != '\n'
    ensures s.col == |Line(s)| ==> Flatten(s).after == "" || Flatten(s).after[0] == '\n'
  {
    if s.col == |Line(s)| { assert Flatten(s).after == Trail(s.lines[s.row + 1..]); }
  }

  lemma DeleteFlat(s: State)
    requires Valid(s)
    ensures Valid(Delete(s))
    ensures Flatten(Delete(s)) == var f := Flatten(s); if f.after != "" && f.after[0] != '\n' then f.(after := f.after[1..]) else f
  {
    AfterLine(s);
    if s.col < |Line(s)| {
      var x, y := Line(s)[..s.col], Line(s)[s.col..];
      EditLine(s, x, y[1..]);
      assert y[1..] + Trail(s.lines[s.row + 1..]) == Flatten(s).after[1..];
    }
  }

  lemma KillLineFlat(s: State)
    requires Valid(s)
    ensures var f := Flatten(s); var t := WithLine(s, Line(s)[s.col..], 0);
            Valid(t) && Flatten(t) == f.(before := f.before[..|f.before| - |LastLine(f.before)|])
    ensures var f := Flatten(s); var t := WithLine(s, Line(s)[..s.col], s.col);
            Valid(t) && Flatten(t) == f.(after := f.after[|FirstLine(f.after)|..])
  {
    FlatLines(s);
    var x, y := Line(s)[..s.col], Line(s)[s.col..];
    EditLine(s, "", y);
    assert "" + y == y && Lead(s.lines[..s.row]) + "" == Flatten(s).before[..|Flatten(s).before| - |x|];
    EditLine(s, x, "");
    assert x + "" == x && "" + Trail(s.lines[s.row + 1..]) == Flatten(s).after[|y|..];
  }

  lemma HomeFlat(s: State)
    requires Valid(s)
    ensures var f := Flatten(s); Flatten(s.(col := 0)) == MoveTo(f, |f.before| - |LastLine(f.before)|)
  {
    FlatLines(s);
    MoveFlat(s, s.(col := 0));
  }

  lemma EndFlat(s: State)
    requires Valid(s)
    ensures var f := Flatten(s); Flatten(s.(col := |Line(s)|)) == MoveTo(f, |f.before| + |FirstLine(f.after)|)
  {
    FlatLines(s);
    MoveFlat(s, s.(col := |Line(s)|));
  }

  predicate Moves(c: Command) { c.ToStart? || c.ToEnd? || c.GoLeft? || c.GoRight? || c.GoUp? || c.GoDown? }

  lemma LineMoveRefines(s: State, c: Command)
    requires Valid(s) && (c.ToStart? || c.ToEnd?)
    ensures Valid(Do(s, c).0)
    ensures Flatten(Do(s, c).0) == FlatDo(Flatten(s), c).0 && Do(s, c).1 == FlatDo(Flatten(s), c).1
  {
    if c.ToStart? { HomeFlat(s); } else { EndFlat(s); }
  }

  lemma StepRefines(s: State, c: Command)
    requires Valid(s) && (c.GoLeft? || c.GoRight?)
    ensures Valid(Do(s, c).0)
    ensures Flatten(Do(s, c).0) == FlatDo(Flatten(s), c).0 && Do(s, c).1 == FlatDo(Flatten(s), c).1
  {
    if c.GoLeft? { LeftFlat(s); } else { RightFlat(s); }
  }

  lemma RowMoveRefines(s: State, c: Command)
    requires Valid(s) && (c.GoUp? || c.GoDown?)
    ensures Valid(Do(s, c).0)
    ensures Flatten(Do(s, c).0) == FlatDo(Flatten(s), c).0 && Do(s, c).1 == FlatDo(Flatten(s), c).1
  {
    if c.GoUp? { UpFlat(s); } else { DownFlat(s); }
  }

  lemma MoveRefines(s: State, c: Command)
    requires Valid(s) && Moves(c)
    ensures Valid(Do(s, c).0)
    ensures Flatten(Do(s, c).0) == FlatDo(Flatten(s), c).0 && Do(s, c).1 == FlatDo(Flatten(s), c).1
  {
    if c.ToStart? || c.ToEnd? {
      LineMoveRefines(s, c);
    } else if c.GoLeft? || c.GoRight? {
      StepRefines(s, c);
    } else {
      RowMoveRefines(s, c);
    }
  }

  predicate Rubs(c: Command) { c.Rub? || c.KillToStart? || c.KillToEnd? || c.KillTheWord? || c.DeleteOrQuit? }

  lemma DeleteRefines(s: State)
    requires Valid(s)
    ensures var c := DeleteOrQuit;
            && Valid(Do(s, c).0)
            && Flatten(Do(s, c).0) == FlatDo(Flatten(s), c).0 && Do(s, c).1 == FlatDo(Flatten(s), c).1
  {
    EmptyFlat(s);
    DeleteFlat(s);
  }

  lemma KillRefines(s: State, c: Command)
    requires Valid(s) && (c.KillToStart? || c.KillToEnd? || c.KillTheWord?)
    ensures Valid(Do(s, c).0)
    ensures Flatten(Do(s, c).0) == FlatDo(Flatten(s), c).0 && Do(s, c).1 == FlatDo(Flatten(s), c).1
  {
    if c.KillTheWord? { KillWordFlat(s); } else { KillLineFlat(s); }
  }

  lemma RubRefines(s: State, c: Command)
    requires Valid(s) && Rubs(c)
    ensures Valid(Do(s, c).0)
    ensures Flatten(Do(s, c).0) == FlatDo(Flatten(s), c).0 && Do(s, c).1 == FlatDo(Flatten(s), c).1
  {
    if c.DeleteOrQuit? {
      DeleteRefines(s);
    } else if c.Rub? {
      BackspaceFlat(s);
    } else {
      KillRefines(s, c);
    }
  }

  lemma WriteRefines(s: State, c: Command)
    requires Valid(s) && !Moves(c) && !Rubs(c)
    ensures Valid(Do(s, c).0)
    ensures Flatten(Do(s, c).0) == FlatDo(Flatten(s), c).0 && Do(s, c).1 == FlatDo(Flatten(s), c).1
  {
    match c
    case PasteOn =>
    case PasteOff =>
    case Cancel =>
    case NewRow => BreakFlat(s);
    case Submit => JoinFlat(s);
    case Text(k) => TypedFlat(s, k);
  }

  lemma EmptyFlat(s: State)
    requires Valid(s)
    ensures |s.lines| == 1 && Line(s) == "" <==> Flatten(s).before == "" && Flatten(s).after == ""
  {
    FlatLines(s);
  }

  /** Every key does to the flat text what it says, and keeps the buffer well formed. */
  lemma PressRefines(s: State, k: Key)
    requires Valid(s)
    ensures Valid(Press(s, k).0)
    ensures Flatten(Press(s, k).0) == FlatPress(Flatten(s), k).0 && Press(s, k).1 == FlatPress(Flatten(s), k).1
  {
    var c := Meaning(k, s.pasting);
    if Moves(c) { MoveRefines(s, c); } else if Rubs(c) { RubRefines(s, c); } else { WriteRefines(s, c); }
  }
}
