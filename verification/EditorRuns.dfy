/** What the editor keeps over any sequence of keys (cli/editor.ts). */
module EditorRuns {

  import opened Common
  import opened Editor
  import opened FlatText

  /** The state after `keys`, whatever the caller does with the actions in between. */
  function Type(s: State, keys: seq<Key>): (t: State)
    requires Valid(s)
    ensures Valid(t)
    decreases |keys|
  {
    if keys == [] then s else PressRefines(s, keys[0]); Type(Press(s, keys[0]).0, keys[1..])
  }

  /** Every state a prompt can reach from an empty buffer is well formed, whatever was said before. */
  lemma ReachableIsValid(history: seq<string>, keys: seq<Key>)
    ensures Valid(Initial(history)) && Valid(Type(Initial(history), keys))
    ensures Flatten(Type(Initial(history), keys)) == FlatType(Flat("", "", history, None, None, false), keys)
  {
    var s := Initial(history);
    assert Lead(s.lines[..0]) == "" && s.lines[1..] == [];
    RunRefines(s, keys);
  }

  function FlatType(f: Flat, keys: seq<Key>): Flat
    decreases |keys|
  {
    if keys == [] then f else FlatType(FlatPress(f, keys[0]).0, keys[1..])
  }

  /** The two-dimensional editor and the flat one stay in step over every run. */
  lemma {:induction false} RunRefines(s: State, keys: seq<Key>)
    requires Valid(s)
    ensures Flatten(Type(s, keys)) == FlatType(Flatten(s), keys)
    decreases |keys|
  {
    if keys != [] {
      PressRefines(s, keys[0]);
      RunRefines(Press(s, keys[0]).0, keys[1..]);
    }
  }

  /** Everything but the text and the cursor. */
  predicate SameBesides(s: State, t: State) {
    t == s.(lines := t.lines, row := t.row, col := t.col)
  }

  lemma {:induction false} RowsSameBesides(s: State, rows: seq<string>)
    requires Valid(s) && Rows(rows)
    ensures SameBesides(s, InsertRows(s, rows))
    decreases |rows|
  {
    var s1 := Insert(s, rows[0]);
    ValidInsert(s, rows[0]);
    if |rows| > 1 {
      ValidBreak(s1);
      RowsSameBesides(Break(s1), rows[1..]);
    }
  }

  /** Only the paste markers and the history keys change more than the text and the cursor. */
  lemma DoKeeps(s: State, c: Command)
    requires Valid(s)
    ensures c != PasteOn && c != PasteOff && c != GoUp && c != GoDown ==> SameBesides(s, Do(s, c).0)
    ensures c != PasteOn && c != PasteOff ==> Do(s, c).0.pasting == s.pasting
  {
    match c
    case Text(k) =>
      if '\n' in k.sequence || '\r' in k.sequence { RowsSameBesides(s, Pieces(k.sequence)); }
    case _ =>
  }

  // ---- Sending ---------------------------------------------------------------------------

  /** A key submits exactly when it is a bare return outside a paste; it then submits the whole text. */
  lemma SubmitsOnlyOnReturn(s: State, k: Key)
    requires Valid(s)
    ensures Press(s, k).1.Send? <==>
              && k.name == "return" && !s.pasting && !k.meta && !k.shift
              && k.sequence != PASTE_START && k.sequence != PASTE_END
    ensures Press(s, k).1.Send? ==> Press(s, k) == (s, Send(Flatten(s).before + Flatten(s).after))
  {
    JoinFlat(s);
  }

  /** Between the paste markers no key submits. */
  lemma {:induction false} PasteNeverSubmits(s: State, keys: seq<Key>, i: nat)
    requires Valid(s) && i < |keys|
    requires keys[0].sequence == PASTE_START || s.pasting
    requires forall j | 0 <= j < i :: keys[j].sequence != PASTE_END
    ensures !Press(Type(s, keys[..i]), keys[i]).1.Send?
    decreases i
  {
    if i > 0 {
      var t := Press(s, keys[0]).0;
      PressRefines(s, keys[0]);
      StaysPasting(s, keys[0]);
      assert keys[..i][1..] == keys[1..][..i - 1];
      PasteNeverSubmits(t, keys[1..], i - 1);
    }
  }

  lemma StaysPasting(s: State, k: Key)
    requires Valid(s) && (s.pasting || k.sequence == PASTE_START) && k.sequence != PASTE_END
    ensures Press(s, k).0.pasting
  {
    DoKeeps(s, Meaning(k, s.pasting));
  }

  // ---- The draft ---------------------------------------------------------------------------

  /** The draft is taken on leaving for history, kept on the way, and given back on return. */
  predicate DraftKept(s: State, t: State)
    requires Valid(s)
  {
    && (s.index.Some? && t.index.Some? ==> t.draft == s.draft)
    && (s.index.Some? && t.index.None? ==>
          t.lines == s.draft.value && t.row == |t.lines| - 1 && t.col == |t.lines[t.row]|)
    && (s.index.None? && t.index.Some? ==> t.draft == Some(s.lines))
  }

  lemma DraftStep(s: State, k: Key)
    requires Valid(s)
    ensures DraftKept(s, Press(s, k).0)
  {
    var c := Meaning(k, s.pasting);
    DoKeeps(s, c);
    if c == GoUp {
      assert DraftKept(s, Up(s));
    } else if c == GoDown {
      assert DraftKept(s, Down(s));
    }
  }

  /**
   * Leave a draft for history, edit and wander as you like, and come back: the rows are
   * the draft's, exactly, with the cursor at their end.
   */
  lemma {:induction false} DraftComesBack(s: State, keys: seq<Key>, draft: seq<string>)
    requires Valid(s) && |keys| > 0
    requires if s.index.None? then draft == s.lines else s.draft == Some(draft)
    requires s.index.None? ==> Type(s, keys[..1]).index.Some?
    requires forall i | 1 <= i < |keys| :: Type(s, keys[..i]).index.Some?
    requires Type(s, keys).index.None?
    ensures var t := Type(s, keys); t.lines == draft && t.row == |draft| - 1 && t.col == |draft[t.row]|
    decreases |keys|
  {
    PressRefines(s, keys[0]);
    DraftStep(s, keys[0]);
    var t := Press(s, keys[0]).0;
    assert keys[..1][1..] == [] && Type(s, keys[..1]) == t;
    if |keys| == 1 {
      assert keys[1..] == [];
    } else {
      assert Type(s, keys[..1]).index.Some?;
      forall i | 1 <= i < |keys| - 1 ensures Type(t, keys[1..][..i]).index.Some? {
        assert keys[..i + 1][1..] == keys[1..][..i];
        assert Type(s, keys[..i + 1]).index.Some?;
      }
      DraftComesBack(t, keys[1..], draft);
    }
  }

  // ---- One text, one place --------------------------------------------------------------------

  lemma {:induction false} LeadInjective(a: seq<string>, b: seq<string>)
    requires Lead(a) == Lead(b)
    requires (forall i | 0 <= i < |a| :: OneLine(a[i])) && (forall i | 0 <= i < |b| :: OneLine(b[i]))
    ensures a == b
    decreases |a|
  {
    if a != [] && b != [] {
      var a', x, b', y := a[..|a| - 1], a[|a| - 1], b[..|b| - 1], b[|b| - 1];
      LastOfLead(a', x);
      LastOfLead(b', y);
      assert Lead(a)[..|Lead(a)| - 1] == Lead(a') + x;
      assert Lead(b)[..|Lead(b)| - 1] == Lead(b') + y;
      assert Lead(a') == (Lead(a') + x)[..|Lead(a') + x| - |x|];
      assert Lead(b') == (Lead(b') + y)[..|Lead(b') + y| - |y|];
      LeadInjective(a', b');
      assert a == a' + [x] && b == b' + [y];
    }
  }

  lemma {:induction false} TrailInjective(a: seq<string>, b: seq<string>)
    requires Trail(a) == Trail(b)
    requires (forall i | 0 <= i < |a| :: OneLine(a[i])) && (forall i | 0 <= i < |b| :: OneLine(b[i]))
    ensures a == b
    decreases |a|
  {
    if a != [] && b != [] {
      FirstOfTrail(a[0], a[1..]);
      FirstOfTrail(b[0], b[1..]);
      assert Trail(a)[1..] == a[0] + Trail(a[1..]);
      assert Trail(b)[1..] == b[0] + Trail(b[1..]);
      assert Trail(a[1..]) == (a[0] + Trail(a[1..]))[|a[0]|..];
      assert Trail(b[1..]) == (b[0] + Trail(b[1..]))[|b[0]|..];
      TrailInjective(a[1..], b[1..]);
      assert a == [a[0]] + a[1..] && b == [b[0]] + b[1..];
    }
  }

  lemma SamePlace(s: State, t: State)
    requires Valid(s) && Valid(t)
    requires Flatten(s).before == Flatten(t).before && Flatten(s).after == Flatten(t).after
    ensures Line(s) == Line(t) && s.col == t.col
    ensures Lead(s.lines[..s.row]) == Lead(t.lines[..t.row]) && Trail(s.lines[s.row + 1..]) == Trail(t.lines[t.row + 1..])
  {
    FlatLines(s);
    FlatLines(t);
    assert Line(s) == Line(s)[..s.col] + Line(s)[s.col..];
    assert Line(t) == Line(t)[..t.col] + Line(t)[t.col..];
    var b, a := Flatten(s).before, Flatten(s).after;
    assert Lead(s.lines[..s.row]) == b[..|b| - s.col] && Lead(t.lines[..t.row]) == b[..|b| - t.col];
    assert Trail(s.lines[s.row + 1..]) == a[|Line(s)| - s.col..] && Trail(t.lines[t.row + 1..]) == a[|Line(t)| - t.col..];
  }

  /** The flat text and offset determine the rows, the row and the column. */
  lemma FlattenInjective(s: State, t: State)
    requires Valid(s) && Valid(t)
    requires Flatten(s).before == Flatten(t).before && Flatten(s).after == Flatten(t).after
    ensures s.lines == t.lines && s.row == t.row && s.col == t.col
  {
    SamePlace(s, t);
    LeadInjective(s.lines[..s.row], t.lines[..t.row]);
    TrailInjective(s.lines[s.row + 1..], t.lines[t.row + 1..]);
    assert |s.lines[..s.row]| == s.row && |t.lines[..t.row]| == t.row;
    assert s.lines == s.lines[..s.row] + [Line(s)] + s.lines[s.row + 1..];
    assert t.lines == t.lines[..t.row] + [Line(t)] + t.lines[t.row + 1..];
  }

  // ---- Undo, and chunks against keys -----------------------------------------------------------

  function RubKey(): Key { Key("backspace", false, false, false, "\U{7F}") }

  function Rubs(n: nat): seq<Key> { seq(n, _ => RubKey()) }

  lemma TypeCons(s: State, k: Key, keys: seq<Key>)
    requires Valid(s)
    ensures Valid(Press(s, k).0) && Type(s, [k] + keys) == Type(Press(s, k).0, keys)
  {
    PressRefines(s, k);
    assert ([k] + keys)[1..] == keys;
  }

  lemma RubOnce(s: State)
    requires Valid(s) && Flatten(s).before != ""
    ensures var t, f := Press(s, RubKey()).0, Flatten(s);
            Valid(t) && SameBesides(s, t) && Flatten(t) == f.(before := f.before[..|f.before| - 1])
  {
    BackspaceFlat(s);
  }

  lemma {:induction false} RubsFlat(s: State, n: nat)
    requires Valid(s) && n <= |Flatten(s).before|
    ensures var t, f := Type(s, Rubs(n)), Flatten(s);
            SameBesides(s, t) && Flatten(t) == f.(before := f.before[..|f.before| - n])
    decreases n
  {
    if n > 0 {
      RubOnce(s);
      TypeCons(s, RubKey(), Rubs(n - 1));
      assert Rubs(n) == [RubKey()] + Rubs(n - 1);
      RubsFlat(Press(s, RubKey()).0, n - 1);
    }
  }

  /** A chunk of text as one key, as a paste delivers it. */
  function ChunkKey(chunk: string): Key { Key("", false, false, false, chunk) }

  /** Nothing the key table treats specially. */
  predicate PlainChunk(chunk: string) { chunk != "" && ESC != chunk[0] && (|chunk| > 1 || chunk[0] >= ' ' || chunk[0] in "\n\r") }

  lemma ChunkFlat(s: State, chunk: string)
    requires Valid(s) && PlainChunk(chunk)
    ensures var t := Press(s, ChunkKey(chunk)).0;
            Valid(t) && SameBesides(s, t) && Flatten(t) == Flatten(s).(before := Flatten(s).before + Normal(chunk))
  {
    PressRefines(s, ChunkKey(chunk));
    assert Meaning(ChunkKey(chunk), s.pasting) == Text(ChunkKey(chunk));
    if '\n' in chunk || '\r' in chunk { RowsSameBesides(s, Pieces(chunk)); }
  }

  /** One backspace per character, and one per break however it was spelled, undoes a chunk. */
  lemma ChunkThenRubs(s: State, chunk: string)
    requires Valid(s) && PlainChunk(chunk)
    ensures Type(s, [ChunkKey(chunk)] + Rubs(|Normal(chunk)|)) == s
  {
    var t := Press(s, ChunkKey(chunk)).0;
    var n := |Normal(chunk)|;
    ChunkFlat(s, chunk);
    RubsFlat(t, n);
    assert ([ChunkKey(chunk)] + Rubs(n))[1..] == Rubs(n);
    var u := Type(t, Rubs(n));
    assert (Flatten(s).before + Normal(chunk))[..|Flatten(s).before|] == Flatten(s).before;
    FlattenInjective(s, u);
  }

  predicate Printable(chunk: string) { forall i | 0 <= i < |chunk| :: chunk[i] >= ' ' || chunk[i] == '\n' }

  /** The key a terminal sends for one character outside a paste. */
  function KeyOf(ch: char): Key {
    if ch == '\n' then Key("enter", false, false, false, "\n") else Key([ch], false, false, false, [ch])
  }

  function KeysOf(chunk: string): (keys: seq<Key>)
    ensures |keys| == |chunk|
  {
    if chunk == "" then [] else [KeyOf(chunk[0])] + KeysOf(chunk[1..])
  }

  predicate Grown(s: State, t: State, text: string)
    requires Valid(s) && Valid(t)
  {
    SameBesides(s, t) && Flatten(t).before == Flatten(s).before + text && Flatten(t).after == Flatten(s).after
  }

  lemma KeyMeaning(ch: char, pasting: bool)
    requires ch >= ' ' || ch == '\n'
    ensures Meaning(KeyOf(ch), pasting) == if ch == '\n' then NewRow else Text(KeyOf(ch))
  {
    if ch != '\n' {
      assert |KeyOf(ch).name| == 1 && |KeyOf(ch).sequence| == 1;
    }
  }

  lemma KeyOfFlat(s: State, ch: char)
    requires Valid(s) && (ch >= ' ' || ch == '\n')
    ensures var t := Press(s, KeyOf(ch)).0; Valid(t) && Grown(s, t, [ch])
  {
    KeyMeaning(ch, s.pasting);
    if ch == '\n' {
      BreakFlat(s);
    } else {
      InsertFlat(s, [ch]);
    }
  }

  lemma GrownTwice(s: State, t: State, u: State, a: string, b: string)
    requires Valid(s) && Valid(t) && Valid(u) && Grown(s, t, a) && Grown(t, u, b)
    ensures Grown(s, u, a + b)
  {
    assert Flatten(s).before + a + b == Flatten(s).before + (a + b);
  }

  lemma {:induction false} KeysFlat(s: State, chunk: string)
    requires Valid(s) && Printable(chunk)
    ensures Grown(s, Type(s, KeysOf(chunk)), chunk)
    decreases |chunk|
  {
    if chunk == "" {
      assert Flatten(s).before + chunk == Flatten(s).before;
    } else {
      KeyOfFlat(s, chunk[0]);
      TypeCons(s, KeyOf(chunk[0]), KeysOf(chunk[1..]));
      var t := Press(s, KeyOf(chunk[0])).0;
      KeysFlat(t, chunk[1..]);
      GrownTwice(s, t, Type(s, KeysOf(chunk)), [chunk[0]], chunk[1..]);
      assert chunk == [chunk[0]] + chunk[1..];
    }
  }

  lemma {:induction false} NormalPrintable(chunk: string)
    requires Printable(chunk)
    ensures Normal(chunk) == chunk
    decreases |chunk|
  {
    if chunk != "" { NormalPrintable(chunk[1..]); }
  }

  /** A pasted chunk of printable text is the same as its keys, one by one. */
  lemma ChunkIsItsKeys(s: State, chunk: string)
    requires Valid(s) && Printable(chunk) && chunk != ""
    ensures Press(s, ChunkKey(chunk)).0 == Type(s, KeysOf(chunk))
  {
    ChunkFlat(s, chunk);
    KeysFlat(s, chunk);
    NormalPrintable(chunk);
    FlattenInjective(Press(s, ChunkKey(chunk)).0, Type(s, KeysOf(chunk)));
  }
}
