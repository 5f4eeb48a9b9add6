/** Strings as the source tests them: `trim() === ''`. */
module Text {

  predicate IsSpace(c: char) {
    || c in {' ', '\t', '\n', '\U{0B}', '\U{0C}', '\r', '\U{A0}', '\U{1680}', '\U{2028}', '\U{2029}', '\U{202F}', '\U{205F}', '\U{3000}', '\U{FEFF}'}
    || '\U{2000}' <= c <= '\U{200A}'
  }

  predicate Blank(s: string) { forall i | 0 <= i < |s| :: IsSpace(s[i]) }

  /** What every keyboard calls white space is, and what prints is not. */
  lemma WhiteSpace()
    ensures forall c | c in {' ', '\t', '\n', '\r', '\U{0B}', '\U{0C}', '\U{A0}'} :: IsSpace(c)
    ensures forall c | '!' <= c <= '~' :: !IsSpace(c)
  {
  }

  /** `t` is what stands between `i` and `j`, with white space alone around it and none at its ends. */
  predicate Between(s: string, t: string, i: nat, j: nat) {
    && i <= j <= |s| && t == s[i..j] && Blank(s[..i]) && Blank(s[j..])
    && (t != "" ==> !IsSpace(t[0]) && !IsSpace(t[|t| - 1]))
  }

  /** White space dropped at both ends, and nothing else. */
  ghost predicate TrimOf(s: string, t: string) { exists i: nat, j: nat :: Between(s, t, i, j) }

  lemma TrimFront(s: string, t: string)
    requires s != "" && IsSpace(s[0]) && TrimOf(s[1..], t)
    ensures TrimOf(s, t)
  {
    var i: nat, j: nat :| Between(s[1..], t, i, j);
    assert s[..i + 1] == [s[0]] + s[1..][..i] && s[j + 1..] == s[1..][j..];
    assert Between(s, t, i + 1, j + 1);
  }

  lemma TrimBack(s: string, t: string)
    requires s != "" && IsSpace(s[|s| - 1]) && TrimOf(s[..|s| - 1], t)
    ensures TrimOf(s, t)
  {
    var front := s[..|s| - 1];
    var i: nat, j: nat :| Between(front, t, i, j);
    assert s[..i] == front[..i] && s[j..] == front[j..] + [s[|s| - 1]];
    assert Between(s, t, i, j);
  }

  /** `trim()`: empty exactly when there is nothing but white space. */
  function Trim(s: string): (t: string)
    ensures t == "" <==> Blank(s)
    ensures t != "" ==> !IsSpace(t[0]) && !IsSpace(t[|t| - 1])
    ensures Blank(t) <==> Blank(s)
    ensures TrimOf(s, t)
    decreases |s|
  {
    if s == "" then
      assert Between(s, "", 0, 0);
      ""
    else if IsSpace(s[0]) then
      assert s == [s[0]] + s[1..];
      TrimFront(s, Trim(s[1..]));
      Trim(s[1..])
    else if IsSpace(s[|s| - 1]) then
      assert s == s[..|s| - 1] + [s[|s| - 1]];
      TrimBack(s, Trim(s[..|s| - 1]));
      Trim(s[..|s| - 1])
    else
      assert s[..0] == "" && s[|s|..] == "" && s[0..|s|] == s;
      assert Between(s, s, 0, |s|);
      s
  }
}
