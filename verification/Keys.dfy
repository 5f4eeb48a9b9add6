/**
 * The keymap of the prompt (cli/editor.ts, `premi`), key by key: what each does to the text
 * before and after the cursor, told by the key alone.
 */
module Keys {

  import opened Common
  import opened Text
  import opened Editor
  import opened FlatText

  /** The two sequences around a bracketed paste come before every other reading of a key. */
  predicate Marker(k: Key) { k.sequence == "\U{1B}[200~" || k.sequence == "\U{1B}[201~" }

  predicate Ctrl(k: Key, name: string) { k.ctrl && k.name == name && !Marker(k) }

  predicate Named(k: Key, name: string) { k.name == name && !Marker(k) }

  /** Nothing but the text and the cursor, and no action. */
  ghost predicate Becomes(s: State, k: Key, before: string, after: string)
    requires Valid(s)
  {
    PressRefines(s, k);
    Press(s, k).1 == Nothing && Flatten(Press(s, k).0) == Flatten(s).(before := before, after := after)
  }

  lemma BecomesBy(s: State, k: Key, before: string, after: string)
    requires Valid(s) && FlatPress(Flatten(s), k) == (Flatten(s).(before := before, after := after), Nothing)
    ensures Becomes(s, k, before, after)
  {
    PressRefines(s, k);
  }

  // ---- Lines of the flat text -----------------------------------------------------------------

  /** What stands after the last break, and what stands before the first. */
  lemma {:induction false} LastLineIs(b: string)
    ensures var l := LastLine(b);
            '\n' !in l && b[|b| - |l|..] == l && (|l| < |b| ==> b[|b| - |l| - 1] == '\n')
    decreases |b|
  {
    if b != "" && b[|b| - 1] != '\n' {
      var front := b[..|b| - 1];
      LastLineIs(front);
      var l := LastLine(front);
      assert b[|b| - |l| - 1..] == front[|front| - |l|..] + [b[|b| - 1]];
    }
  }

  lemma {:induction false} FirstLineIs(a: string)
    ensures var l := FirstLine(a); '\n' !in l && a[..|l|] == l && (|l| < |a| ==> a[|l|] == '\n')
    decreases |a|
  {
    if a != "" && a[0] != '\n' {
      FirstLineIs(a[1..]);
      var l := FirstLine(a[1..]);
      assert a[..|l| + 1] == [a[0]] + a[1..][..|l|];
    }
  }

  // ---- Keys that are not text -------------------------------------------------------------------

  lemma PasteMarkers(s: State, k: Key)
    requires Valid(s)
    ensures k.sequence == "\U{1B}[200~" ==> Press(s, k) == (s.(pasting := true), Nothing)
    ensures k.sequence == "\U{1B}[201~" ==> Press(s, k) == (s.(pasting := false), Nothing)
  {
    assert PASTE_START == "\U{1B}[200~" && PASTE_END == "\U{1B}[201~";
  }

  /** Ctrl+C asks the caller to interrupt. */
  lemma Interrupts(s: State, k: Key)
    requires Valid(s) && Ctrl(k, "c")
    ensures Press(s, k) == (s, Interrupt)
  {
  }

  /** Ctrl+D quits on an empty buffer, and else deletes ahead, within the row. */
  lemma DeletesOrQuits(s: State, k: Key)
    requires Valid(s) && Ctrl(k, "d")
    ensures var f := Flatten(s);
            if f.before == "" && f.after == "" then Press(s, k) == (s, Quit)
            else if f.after != "" && f.after[0] != '\n' then Becomes(s, k, f.before, f.after[1..])
            else Becomes(s, k, f.before, f.after)
  {
    PressRefines(s, k);
    EmptyFlat(s);
  }

  /** Ctrl+J, and Return inside a paste or with a modifier, break the row. */
  lemma BreaksRow(s: State, k: Key)
    requires Valid(s) && (Named(k, "enter") || (Named(k, "return") && (s.pasting || k.meta || k.shift)))
    requires !Ctrl(k, "c") && !Ctrl(k, "d")
    ensures Becomes(s, k, Flatten(s).before + "\n", Flatten(s).after)
  {
    PressRefines(s, k);
  }

  lemma Rubs(s: State, k: Key)
    requires Valid(s) && Named(k, "backspace")
    ensures var f := Flatten(s); Becomes(s, k, if f.before == "" then "" else f.before[..|f.before| - 1], f.after)
  {
    PressRefines(s, k);
  }

  /** Ctrl+A and Home: to the start of the row. */
  lemma GoesToStart(s: State, k: Key)
    requires Valid(s) && (Ctrl(k, "a") || Named(k, "home"))
    ensures var f := Flatten(s); var l := LastLine(f.before);
            Becomes(s, k, f.before[..|f.before| - |l|], l + f.after)
  {
    var f := Flatten(s);
    StartOfLine(f);
    BecomesBy(s, k, f.before[..|f.before| - |LastLine(f.before)|], LastLine(f.before) + f.after);
  }

  lemma StartOfLine(f: Flat)
    ensures var l := LastLine(f.before);
            MoveTo(f, |f.before| - |l|) == f.(before := f.before[..|f.before| - |l|], after := l + f.after)
  {
    var b, a := f.before, f.after;
    LastLineIs(b);
    CutLast(b, a, LastLine(b));
  }

  lemma CutLast(b: string, a: string, l: string)
    requires |l| <= |b| && b[|b| - |l|..] == l
    ensures (b + a)[..|b| - |l|] == b[..|b| - |l|] && (b + a)[|b| - |l|..] == l + a
  {
    Cut(b, a, |b| - |l|);
  }

  /** Ctrl+E and End: to its end. */
  lemma GoesToEnd(s: State, k: Key)
    requires Valid(s) && (Ctrl(k, "e") || Named(k, "end"))
    ensures var f := Flatten(s); var l := FirstLine(f.after);
            Becomes(s, k, f.before + l, f.after[|l|..])
  {
    var f := Flatten(s);
    var l := FirstLine(f.after);
    FirstLineIs(f.after);
    CutAfter(f.before, f.after, |l|);
    BecomesBy(s, k, f.before + l, f.after[|l|..]);
  }

  lemma Cut(b: string, a: string, i: nat)
    requires i <= |b|
    ensures (b + a)[..i] == b[..i] && (b + a)[i..] == b[i..] + a
  {
  }

  lemma CutAfter(b: string, a: string, i: nat)
    requires i <= |a|
    ensures (b + a)[..|b| + i] == b + a[..i] && (b + a)[|b| + i..] == a[i..]
  {
  }

  /** Ctrl+U drops the row up to the cursor. */
  lemma KillsToStart(s: State, k: Key)
    requires Valid(s) && Ctrl(k, "u")
    ensures var f := Flatten(s); Becomes(s, k, f.before[..|f.before| - |LastLine(f.before)|], f.after)
  {
    PressRefines(s, k);
  }

  /** Ctrl+K drops the row from the cursor on. */
  lemma KillsToEnd(s: State, k: Key)
    requires Valid(s) && Ctrl(k, "k")
    ensures var f := Flatten(s); Becomes(s, k, f.before, f.after[|FirstLine(f.after)|..])
  {
    PressRefines(s, k);
  }

  /** Ctrl+W drops one word, and the blanks after it, up to the cursor. */
  lemma KillsWord(s: State, k: Key)
    requires Valid(s) && Ctrl(k, "w")
    ensures exists i: nat :: DropsWord(s, k, i)
  {
    var f := Flatten(s);
    var l := LastLine(f.before);
    WordStartIsOneWord(l, |l|);
    BecomesBy(s, k, f.before[..|f.before| - (|l| - WordStart(l, |l|))], f.after);
    assert DropsWord(s, k, WordStart(l, |l|));
  }

  /** The row up to the cursor loses one word, which begins at `i`, and the blanks after it. */
  ghost predicate DropsWord(s: State, k: Key, i: nat)
    requires Valid(s)
  {
    var f := Flatten(s);
    var l := LastLine(f.before);
    i <= |l| && OneWord(l, i, |l|) && Becomes(s, k, f.before[..|f.before| - (|l| - i)], f.after)
  }

  lemma {:induction false} BlanksAre(line: string, i: nat)
    requires i <= |line|
    ensures BlanksUpTo(line, OverBlanks(line, i), i)
    decreases i
  {
    if i > 0 && IsSpace(line[i - 1]) { BlanksAre(line, i - 1); }
  }

  lemma {:induction false} WordIs(line: string, i: nat)
    requires i <= |line|
    ensures WordUpTo(line, OverWord(line, i), i)
    decreases i
  {
    if i > 0 && !IsSpace(line[i - 1]) { WordIs(line, i - 1); }
  }

  lemma WordStartIsOneWord(line: string, col: nat)
    requires col <= |line|
    ensures OneWord(line, WordStart(line, col), col)
  {
    BlanksAre(line, col);
    WordIs(line, OverBlanks(line, col));
  }

  lemma StepsLeft(s: State, k: Key)
    requires Valid(s) && Named(k, "left")
    ensures var f := Flatten(s); var n := |f.before|;
            if n == 0 then Becomes(s, k, "", f.after) else Becomes(s, k, f.before[..n - 1], [f.before[n - 1]] + f.after)
  {
    var f := Flatten(s);
    if f.before != "" {
      OneLeft(f);
      BecomesBy(s, k, f.before[..|f.before| - 1], [f.before[|f.before| - 1]] + f.after);
    } else {
      BecomesBy(s, k, "", f.after);
    }
  }

  lemma OneLeft(f: Flat)
    requires f.before != ""
    ensures var n := |f.before| - 1; MoveTo(f, n) == f.(before := f.before[..n], after := [f.before[n]] + f.after)
  {
    var n := |f.before| - 1;
    Cut(f.before, f.after, n);
    assert f.before[n..] == [f.before[n]];
  }

  lemma StepsRight(s: State, k: Key)
    requires Valid(s) && Named(k, "right")
    ensures var f := Flatten(s);
            if f.after == "" then Becomes(s, k, f.before, "") else Becomes(s, k, f.before + [f.after[0]], f.after[1..])
  {
    PressRefines(s, k);
    var f := Flatten(s);
    if f.after != "" {
      CutAfter(f.before, f.after, 1);
      assert f.after[..1] == [f.after[0]];
    }
  }

  // ---- Up and down, in the buffer and in history ----------------------------------------------------

  /** The buffer shows this text, the cursor at its end. */
  ghost predicate ShowsAtEnd(s: State, text: string) {
    |s.lines| > 0 && Join(s.lines) == text && s.row == |s.lines| - 1 && s.col == |s.lines[s.row]|
  }

  lemma GoesUp(s: State, k: Key)
    requires Valid(s) && Named(k, "up")
    ensures var t := Press(s, k).0; var n := |s.history|;
            && Press(s, k).1 == Nothing && t.history == s.history && t.pasting == s.pasting
            && (s.row > 0 ==>
                  t == s.(row := s.row - 1, col := if s.col < |s.lines[s.row - 1]| then s.col else |s.lines[s.row - 1]|))
            && (s.row == 0 && n == 0 ==> t == s)
            && (s.row == 0 && n > 0 && s.index.None? ==> t.index == Some(n - 1) && t.draft == Some(s.lines) && ShowsAtEnd(t, s.history[n - 1]))
            && (s.row == 0 && n > 0 && s.index.Some? ==>
                  var i := if s.index.value == 0 then 0 else s.index.value - 1;
                  t.index == Some(i) && t.draft == s.draft && ShowsAtEnd(t, s.history[i]))
  {
    if s.row == 0 && |s.history| > 0 {
      var base := if s.index.None? then s.(draft := Some(s.lines)) else s;
      RecallsAtEnd(base, if s.index.None? then |s.history| - 1 else Max(0, s.index.value - 1));
    }
  }

  lemma RecallsAtEnd(s: State, i: nat)
    requires i < |s.history| && (s.draft.Some? ==> Rows(s.draft.value))
    ensures var t := FromHistory(s, Some(i)); t == s.(index := Some(i), lines := t.lines, row := t.row, col := t.col) && ShowsAtEnd(t, s.history[i])
  {
    JoinSplit(s.history[i]);
  }

  lemma GoesDown(s: State, k: Key)
    requires Valid(s) && Named(k, "down")
    ensures var t := Press(s, k).0; var last := s.row == |s.lines| - 1;
            && Press(s, k).1 == Nothing && t.history == s.history && t.pasting == s.pasting && t.draft == s.draft
            && (!last ==> t == s.(row := s.row + 1, col := if s.col < |s.lines[s.row + 1]| then s.col else |s.lines[s.row + 1]|))
            && (last && s.index.None? ==> t == s)
            && (last && s.index.Some? && s.index.value + 1 < |s.history| ==>
                  t.index == Some(s.index.value + 1) && ShowsAtEnd(t, s.history[s.index.value + 1]))
            && (last && s.index.Some? && s.index.value + 1 == |s.history| ==>
                  t.index.None? && t.lines == s.draft.value && ShowsAtEnd(t, Join(s.draft.value)))
  {
    if s.row == |s.lines| - 1 && s.index.Some? {
      DownRecalls(s);
      if s.index.value + 1 < |s.history| { RecallsAtEnd(s, s.index.value + 1); }
    }
  }

  // ---- Text ---------------------------------------------------------------------------------------------

  /** No key of the table: text, or a sequence nobody knows. */
  predicate Unnamed(k: Key) {
    && !Marker(k) && !(k.ctrl && k.name in {"c", "d", "a", "e", "u", "k", "w"})
    && k.name !in {"enter", "return", "backspace", "left", "right", "home", "end", "up", "down"}
  }

  /** Escape sequences, control characters and modified keys type nothing; the rest types itself, its breaks normalised. */
  lemma TypesItself(s: State, k: Key)
    requires Valid(s) && Unnamed(k)
    ensures var f, ch := Flatten(s), k.sequence;
            Becomes(s, k, f.before + if ch == "" || k.ctrl || k.meta || ch[0] == '\U{1B}' || (|ch| == 1 && ch[0] < ' ' && ch != "\n" && ch != "\r")
                                     then "" else Normal(ch), f.after)
  {
    PressRefines(s, k);
    assert Flatten(s).before + "" == Flatten(s).before;
  }

  /** Normalising reads CR LF, CR and LF each as one break, and leaves everything else. */
  lemma NormalReads(c: char, rest: string)
    ensures Normal("") == "" && Normal("\r\n" + rest) == "\n" + Normal(rest)
    ensures c != '\r' ==> Normal([c] + rest) == [c] + Normal(rest)
    ensures rest == "" || rest[0] != '\n' ==> Normal("\r" + rest) == "\n" + Normal(rest)
  {
    assert ("\r\n" + rest)[2..] == rest && ("\r\n" + rest)[0] == '\r' && ("\r\n" + rest)[1] == '\n';
    assert ([c] + rest)[1..] == rest && ("\r" + rest)[1..] == rest;
  }
}
