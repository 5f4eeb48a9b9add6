/**
 * The prompt's text buffer (cli/editor.ts): rows, a cursor, and what every key does. A pure
 * state machine, except the word scan and the paste loop, which update local variables.
 */
module Editor {

  import opened Common
  import opened Text

  /** A key as `emitKeypressEvents` decodes it; an absent field is empty or false. */
  datatype Key = Key(name: string, ctrl: bool, meta: bool, shift: bool, sequence: string)

  datatype State = State(
    lines: seq<string>,
    row: nat,
    col: nat,
    history: seq<string>,
    index: Option<nat>,
    draft: Option<seq<string>>,
    pasting: bool)

  datatype Action = Nothing | Send(text: string) | Interrupt | Quit

  predicate OneLine(s: string) { '\n' !in s }

  predicate Rows(lines: seq<string>) { |lines| > 0 && forall i | 0 <= i < |lines| :: OneLine(lines[i]) }

  /** Cursor in bounds, no line feed inside a row, a draft behind every walk through history. */
  predicate Valid(s: State) {
    && Rows(s.lines) && s.row < |s.lines| && s.col <= |s.lines[s.row]|
    && (s.index.Some? ==> s.index.value < |s.history| && s.draft.Some?)
    && (s.draft.Some? ==> Rows(s.draft.value))
  }

  function Initial(history: seq<string>): State { State([""], 0, 0, history, None, None, false) }

  function Join(lines: seq<string>): string {
    if |lines| == 0 then "" else if |lines| == 1 then lines[0] else lines[0] + "\n" + Join(lines[1..])
  }

  /** `split('\n')`. */
  function Split(s: string): (lines: seq<string>)
    ensures Rows(lines)
    decreases |s|
  {
    if s == "" then [""]
    else
      var rest := Split(s[1..]);
      if s[0] == '\n' then [""] + rest else [[s[0]] + rest[0]] + rest[1..]
  }

  /** `split(/\r\n|\r|\n/)`. */
  function Pieces(s: string): (lines: seq<string>)
    ensures Rows(lines)
    decreases |s|
  {
    if s == "" then [""]
    else if |s| >= 2 && s[0] == '\r' && s[1] == '\n' then [""] + Pieces(s[2..])
    else
      var rest := Pieces(s[1..]);
      if s[0] == '\r' || s[0] == '\n' then [""] + rest else [[s[0]] + rest[0]] + rest[1..]
  }

  const ESC: char := '\U{1B}'
  const PASTE_START: string := [ESC, '[', '2', '0', '0', '~']
  const PASTE_END: string := [ESC, '[', '2', '0', '1', '~']

  function Line(s: State): string
    requires Valid(s)
  {
    s.lines[s.row]
  }

  function WithLine(s: State, line: string, col: nat): State
    requires Valid(s)
  {
    s.(lines := s.lines[s.row := line], col := col)
  }

  function Insert(s: State, text: string): State
    requires Valid(s)
  {
    WithLine(s, Line(s)[..s.col] + text + Line(s)[s.col..], s.col + |text|)
  }

  function Break(s: State): State
    requires Valid(s)
  {
    s.(lines := s.lines[..s.row] + [Line(s)[..s.col], Line(s)[s.col..]] + s.lines[s.row + 1..], row := s.row + 1, col := 0)
  }

  function Backspace(s: State): State
    requires Valid(s)
  {
    if s.col > 0 then WithLine(s, Line(s)[..s.col - 1] + Line(s)[s.col..], s.col - 1)
    else if s.row > 0 then
      var above := s.lines[s.row - 1];
      s.(lines := s.lines[..s.row - 1] + [above + Line(s)] + s.lines[s.row + 1..], row := s.row - 1, col := |above|)
    else s
  }

  function Delete(s: State): State
    requires Valid(s)
  {
    if s.col < |Line(s)| then WithLine(s, Line(s)[..s.col] + Line(s)[s.col + 1..], s.col) else s
  }

  /** Where a word kill stops: over the blanks, then over the word. */
  function OverBlanks(line: string, i: nat): (j: nat)
    requires i <= |line|
    ensures j <= i
  {
    if i > 0 && IsSpace(line[i - 1]) then OverBlanks(line, i - 1) else i
  }

  function OverWord(line: string, i: nat): (j: nat)
    requires i <= |line|
    ensures j <= i
  {
    if i > 0 && !IsSpace(line[i - 1]) then OverWord(line, i - 1) else i
  }

  function WordStart(line: string, col: nat): (i: nat)
    requires col <= |line|
    ensures i <= col
  {
    OverWord(line, OverBlanks(line, col))
  }

  predicate BlanksUpTo(line: string, j: nat, col: nat) {
    j <= col <= |line| && (forall k | j <= k < col :: IsSpace(line[k])) && (j > 0 ==> !IsSpace(line[j - 1]))
  }

  predicate WordUpTo(line: string, i: nat, j: nat) {
    i <= j <= |line| && (forall k | i <= k < j :: !IsSpace(line[k])) && (i > 0 ==> IsSpace(line[i - 1]))
  }

  /** `line[i..col]` is one whole word and all the blanks after it, and no more than that. */
  ghost predicate OneWord(line: string, i: nat, col: nat) {
    exists j: nat :: BlanksUpTo(line, j, col) && WordUpTo(line, i, j)
  }

  /** Ctrl+W's scan, as the source runs it. */
  method ScanWord(line: string, col: nat) returns (i: nat)
    requires col <= |line|
    ensures i == WordStart(line, col) && OneWord(line, i, col)
  {
    i := col;
    while i > 0 && IsSpace(line[i - 1])
      invariant 0 <= i <= col && OverBlanks(line, i) == OverBlanks(line, col)
      invariant forall k | i <= k < col :: IsSpace(line[k])
    {
      i := i - 1;
    }
    ghost var j := i;
    while i > 0 && !IsSpace(line[i - 1])
      invariant 0 <= i <= j && OverWord(line, i) == OverWord(line, j)
      invariant forall k | i <= k < j :: !IsSpace(line[k])
    {
      i := i - 1;
    }
    assert BlanksUpTo(line, j, col) && WordUpTo(line, i, j);
  }

  function KillWord(s: State): State
    requires Valid(s)
  {
    var i := WordStart(Line(s), s.col);
    WithLine(s, Line(s)[..i] + Line(s)[s.col..], i)
  }

  function Left(s: State): State
    requires Valid(s)
  {
    if s.col > 0 then s.(col := s.col - 1)
    else if s.row > 0 then s.(row := s.row - 1, col := |s.lines[s.row - 1]|)
    else s
  }

  function Right(s: State): State
    requires Valid(s)
  {
    if s.col < |Line(s)| then s.(col := s.col + 1)
    else if s.row < |s.lines| - 1 then s.(row := s.row + 1, col := 0)
    else s
  }

  /** The text a history index stands for; none is the draft. */
  function FromHistory(s: State, index: Option<nat>): State
    requires s.draft.Some? ==> Rows(s.draft.value)
  {
    var lines := if index.None? then (if s.draft.Some? then s.draft.value else [""])
                 else if index.value < |s.history| then Split(s.history[index.value]) else [""];
    s.(index := index, lines := lines, row := |lines| - 1, col := |lines[|lines| - 1]|)
  }

  function Up(s: State): State
    requires Valid(s)
  {
    if s.row > 0 then s.(row := s.row - 1, col := Min(s.col, |s.lines[s.row - 1]|))
    else if |s.history| == 0 then s
    else
      var base := if s.index.None? then s.(draft := Some(s.lines)) else s;
      FromHistory(base, Some(if s.index.None? then |s.history| - 1 else Max(0, s.index.value - 1)))
  }

  function Down(s: State): State
    requires Valid(s)
  {
    if s.row < |s.lines| - 1 then s.(row := s.row + 1, col := Min(s.col, |s.lines[s.row + 1]|))
    else if s.index.None? then s
    else FromHistory(s, if s.index.value + 1 >= |s.history| then None else Some(s.index.value + 1))
  }

  /** Rows typed one after another, with a break between them. */
  function InsertRows(s: State, rows: seq<string>): (s': State)
    requires Valid(s) && Rows(rows)
    ensures Valid(s')
    decreases |rows|
  {
    var s1 := Insert(s, rows[0]);
    ValidInsert(s, rows[0]);
    if |rows| == 1 then s1 else ValidBreak(s1); InsertRows(Break(s1), rows[1..])
  }

  lemma ValidInsert(s: State, text: string)
    requires Valid(s) && OneLine(text)
    ensures Valid(Insert(s, text))
  {
  }

  lemma ValidBreak(s: State)
    requires Valid(s)
    ensures Valid(Break(s))
  {
    var b := Break(s);
    forall i | 0 <= i < |b.lines| ensures OneLine(b.lines[i]) {
      if i > s.row + 1 { assert b.lines[i] == s.lines[i - 1]; }
    }
  }

  lemma {:induction false} InsertRowsLast(s: State, rows: seq<string>, piece: string)
    requires Valid(s) && Rows(rows) && OneLine(piece)
    ensures Rows(rows + [piece])
    ensures var t := InsertRows(s, rows); Valid(Break(t)) && InsertRows(s, rows + [piece]) == Insert(Break(t), piece)
    decreases |rows|
  {
    var all := rows + [piece];
    var s1 := Insert(s, rows[0]);
    ValidInsert(s, rows[0]);
    ValidBreak(s1);
    ValidBreak(InsertRows(s, rows));
    if |rows| == 1 {
      assert all[1..] == [piece];
    } else {
      assert all[1..] == rows[1..] + [piece];
      InsertRowsLast(Break(s1), rows[1..], piece);
    }
  }

  /** The paste loop, as the source runs it. */
  method InsertChunk(s: State, chunk: string) returns (s': State)
    requires Valid(s)
    ensures Valid(s') && s' == InsertRows(s, Pieces(chunk))
  {
    var pieces := Pieces(chunk);
    ValidInsert(s, pieces[0]);
    s' := Insert(s, pieces[0]);
    var i := 1;
    while i < |pieces|
      invariant 1 <= i <= |pieces| && Rows(pieces[..i])
      invariant Valid(s') && s' == InsertRows(s, pieces[..i])
    {
      InsertRowsLast(s, pieces[..i], pieces[i]);
      assert pieces[..i + 1] == pieces[..i] + [pieces[i]];
      s' := Break(s');
      ValidInsert(s', pieces[i]);
      s' := Insert(s', pieces[i]);
      i := i + 1;
    }
    assert pieces[..i] == pieces;
  }

  /** What is left once every named key was recognised: text, or nothing. */
  function Typed(s: State, k: Key): State
    requires Valid(s)
  {
    var ch := k.sequence;
    if ch == "" || k.ctrl || k.meta || ch[0] == ESC then s
    else if '\n' in ch || '\r' in ch then InsertRows(s, Pieces(ch))
    else if |ch| == 1 && ch[0] < ' ' then s
    else Insert(s, ch)
  }

  /** What a key means. */
  datatype Command =
    | PasteOn | PasteOff | Cancel | DeleteOrQuit | NewRow | Submit | Rub
    | ToStart | ToEnd | KillToStart | KillToEnd | KillTheWord
    | GoLeft | GoRight | GoUp | GoDown | Text(key: Key)

  /** In the source's order: the paste markers first, so that a pasted return is not a submit. */
  function Meaning(k: Key, pasting: bool): Command {
    if k.sequence == PASTE_START then PasteOn
    else if k.sequence == PASTE_END then PasteOff
    else if k.ctrl && k.name == "c" then Cancel
    else if k.ctrl && k.name == "d" then DeleteOrQuit
    else if k.name == "enter" then NewRow
    else if k.name == "return" then (if pasting || k.meta || k.shift then NewRow else Submit)
    else if k.name == "backspace" then Rub
    else if k.ctrl && k.name == "a" then ToStart
    else if k.ctrl && k.name == "e" then ToEnd
    else if k.ctrl && k.name == "u" then KillToStart
    else if k.ctrl && k.name == "k" then KillToEnd
    else if k.ctrl && k.name == "w" then KillTheWord
    else if k.name == "left" then GoLeft
    else if k.name == "right" then GoRight
    else if k.name == "home" then ToStart
    else if k.name == "end" then ToEnd
    else if k.name == "up" then GoUp
    else if k.name == "down" then GoDown
    else Text(k)
  }

  function Do(s: State, c: Command): (State, Action)
    requires Valid(s)
  {
    match c
    case PasteOn => (s.(pasting := true), Nothing)
    case PasteOff => (s.(pasting := false), Nothing)
    case Cancel => (s, Interrupt)
    case DeleteOrQuit => if |s.lines| == 1 && Line(s) == "" then (s, Quit) else (Delete(s), Nothing)
    case NewRow => (Break(s), Nothing)
    case Submit => (s, Send(Join(s.lines)))
    case Rub => (Backspace(s), Nothing)
    case ToStart => (s.(col := 0), Nothing)
    case ToEnd => (s.(col := |Line(s)|), Nothing)
    case KillToStart => (WithLine(s, Line(s)[s.col..], 0), Nothing)
    case KillToEnd => (WithLine(s, Line(s)[..s.col], s.col), Nothing)
    case KillTheWord => (KillWord(s), Nothing)
    case GoLeft => (Left(s), Nothing)
    case GoRight => (Right(s), Nothing)
    case GoUp => (Up(s), Nothing)
    case GoDown => (Down(s), Nothing)
    case Text(k) => (Typed(s, k), Nothing)
  }

  /** One key. */
  function Press(s: State, k: Key): (State, Action)
    requires Valid(s)
  {
    Do(s, Meaning(k, s.pasting))
  }
}
