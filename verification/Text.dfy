// The few string operations the runtime's text tests rely on.

module Text {
  // Unicode white space, as trimmed by Go's strings.TrimSpace.
  predicate IsSpace(c: char) {
    || c == ' ' || '\t' <= c <= '\r'
    || c == '\U{85}' || c == '\U{A0}' || c == '\U{1680}' || '\U{2000}' <= c <= '\U{200A}'
    || c == '\U{2028}' || c == '\U{2029}' || c == '\U{202F}' || c == '\U{205F}' || c == '\U{3000}'
  }

  // By code point.
  lemma Spaces(c: char)
    ensures IsSpace(c) <==>
      var n := c as int;
      n in {9, 10, 11, 12, 13, 32, 133, 160, 5760, 8232, 8233, 8239, 8287, 12288} || 8192 <= n <= 8202
  {
  }

  function TrimLeft(s: string): string {
    if s != "" && IsSpace(s[0]) then TrimLeft(s[1..]) else s
  }

  function TrimRight(s: string): string {
    if s != "" && IsSpace(s[|s| - 1]) then TrimRight(s[..|s| - 1]) else s
  }

  function TrimSpace(s: string): string {
    TrimRight(TrimLeft(s))
  }

  predicate Trimmed(s: string) {
    s == "" || (!IsSpace(s[0]) && !IsSpace(s[|s| - 1]))
  }

  predicate Blank(s: string) {
    TrimSpace(s) == ""
  }

  predicate HasPrefix(s: string, prefix: string) {
    prefix <= s
  }

  predicate AllSpace(s: string) {
    forall i :: 0 <= i < |s| ==> IsSpace(s[i])
  }

  lemma {:induction false} TrimLeftStops(s: string)
    ensures |TrimLeft(s)| <= |s|
    ensures TrimLeft(s) == s[|s| - |TrimLeft(s)|..] && AllSpace(s[..|s| - |TrimLeft(s)|])
    ensures TrimLeft(s) != "" ==> !IsSpace(TrimLeft(s)[0])
  {
    if s != "" && IsSpace(s[0]) {
      TrimLeftStops(s[1..]);
      var cut := |s| - |TrimLeft(s)|;
      assert s[..cut] == [s[0]] + s[1..][..cut - 1] && s[cut..] == s[1..][cut - 1..];
    }
  }

  lemma {:induction false} TrimRightStops(s: string)
    ensures TrimRight(s) <= s && AllSpace(s[|TrimRight(s)|..])
    ensures TrimRight(s) != "" ==> !IsSpace(TrimRight(s)[|TrimRight(s)| - 1])
  {
    if s != "" && IsSpace(s[|s| - 1]) {
      TrimRightStops(s[..|s| - 1]);
      var kept := |TrimRight(s)|;
      assert s[kept..] == s[..|s| - 1][kept..] + [s[|s| - 1]];
    }
  }

  lemma TrimSpaceTrims(s: string)
    ensures Trimmed(TrimSpace(s)) && |TrimSpace(s)| <= |s|
    ensures Trimmed(s) ==> TrimSpace(s) == s
  {
    TrimLeftStops(s);
    TrimRightStops(TrimLeft(s));
  }

  // Only white space is cut off, and only at the two ends.
  lemma TrimSpaceKeepsTheText(s: string)
    ensures exists front, back :: s == front + TrimSpace(s) + back && AllSpace(front) && AllSpace(back)
  {
    TrimLeftStops(s);
    TrimRightStops(TrimLeft(s));
    var left := TrimLeft(s);
    var front, back := s[..|s| - |left|], left[|TrimRight(left)|..];
    assert s == front + TrimSpace(s) + back;
  }

  lemma LettersAreNotSpace(c: char)
    requires 'a' <= c <= 'z'
    ensures !IsSpace(c) && Trimmed([c]) && !Blank([c])
  {
    assert 0x61 <= c as int <= 0x7a;
    assert ' ' as int == 0x20 && '\r' as int == 0x0d && '\U{85}' as int == 0x85;
    TrimSpaceTrims([c]);
  }
}
