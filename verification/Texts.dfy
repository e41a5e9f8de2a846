module Texts {

  // White space removed at both ends by `trim` (section 22.1.3.32 of ECMA-262).
  predicate IsSpace(c: char) {
    || '\U{0009}' <= c <= '\U{000D}' || c == ' ' || c == '\U{00A0}' || c == '\U{1680}'
    || '\U{2000}' <= c <= '\U{200A}' || c == '\U{2028}' || c == '\U{2029}' || c == '\U{202F}'
    || c == '\U{205F}' || c == '\U{3000}' || c == '\U{FEFF}'
  }

  function Trim(s: string): (t: string)
    ensures |t| <= |s|
    ensures t != "" ==> !IsSpace(t[0]) && !IsSpace(t[|t| - 1])
  {
    if s == "" then ""
    else if IsSpace(s[0]) then Trim(s[1..])
    else if IsSpace(s[|s| - 1]) then Trim(s[..|s| - 1])
    else s
  }

  // What is left is a stretch of the text with nothing but white space around it.
  lemma {:induction false} TrimRemovesSpaceOnly(s: string) returns (i: nat, j: nat)
    ensures i <= j <= |s| && Trim(s) == s[i..j]
    ensures forall k :: 0 <= k < i || j <= k < |s| ==> IsSpace(s[k])
  {
    if s == "" {
      return 0, 0;
    } else if IsSpace(s[0]) {
      i, j := TrimRemovesSpaceOnly(s[1..]);
      assert s[1..][i..j] == s[i + 1..j + 1];
      assert forall k :: 1 <= k < |s| ==> s[k] == s[1..][k - 1];
      return i + 1, j + 1;
    } else if IsSpace(s[|s| - 1]) {
      var init := s[..|s| - 1];
      i, j := TrimRemovesSpaceOnly(init);
      assert init[i..j] == s[i..j];
      assert forall k :: 0 <= k < |s| - 1 ==> s[k] == init[k];
    } else {
      return 0, |s|;
    }
  }
}
