/** Spaces around text. */
module Spaces {

  /** `unicode.IsSpace`. */
  predicate IsSpace(c: char) {
    || c in {'\t', '\n', '\U{000B}', '\U{000C}', '\r', ' ', '\U{0085}', '\U{00A0}', '\U{1680}'}
    || '\U{2000}' <= c <= '\U{200A}'
    || c in {'\U{2028}', '\U{2029}', '\U{202F}', '\U{205F}', '\U{3000}'}
  }

  ghost predicate Blank(s: string) {
    forall i :: 0 <= i < |s| ==> IsSpace(s[i])
  }

  /** Where the text begins, after its leading spaces. */
  function TextStart(s: string): (i: nat)
    ensures i <= |s| && Blank(s[..i]) && (i < |s| ==> !IsSpace(s[i]))
  {
    if s == "" || !IsSpace(s[0]) then 0
    else
      var i := TextStart(s[1..]) + 1;
      assert s[1..][..i - 1] == s[1..i];
      i
  }

  /** Where the text ends, before its trailing spaces. */
  function TextEnd(s: string): (j: nat)
    ensures j <= |s| && Blank(s[j..]) && (j > 0 ==> !IsSpace(s[j - 1]))
  {
    if s == "" || !IsSpace(s[|s| - 1]) then |s|
    else
      var j := TextEnd(s[..|s| - 1]);
      assert forall k :: j <= k < |s| - 1 ==> s[k] == s[..|s| - 1][j..][k - j];
      j
  }

  /** `strings.TrimSpace`: the text without the spaces around it, so nothing is
      left of blank text only. */
  function TrimSpace(s: string): (r: string)
    ensures r == "" <==> Blank(s)
    ensures r != "" ==> Blank(s[..TextStart(s)]) && r == s[TextStart(s)..TextEnd(s)] && Blank(s[TextEnd(s)..])
                        && !IsSpace(r[0]) && !IsSpace(r[|r| - 1])
  {
    if TextStart(s) <= TextEnd(s) then s[TextStart(s)..TextEnd(s)] else ""
  }

  /** Trimming is the identity exactly on text without spaces at its ends. */
  lemma TrimmedAlready(s: string)
    ensures TrimSpace(s) == s <==> s == "" || (!IsSpace(s[0]) && !IsSpace(s[|s| - 1]))
    ensures |TrimSpace(s)| <= |s|
  {
  }
}
