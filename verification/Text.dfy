/** Python's notions of white space and line breaks, on Unicode characters. */
module Text {

  /** What `str.strip` removes. */
  predicate IsSpace(c: char) {
    || '\t' <= c <= '\r' || '\U{1C}' <= c <= ' ' || c == '\U{85}' || c == '\U{A0}' || c == '\U{1680}'
    || '\U{2000}' <= c <= '\U{200A}' || c == '\U{2028}' || c == '\U{2029}' || c == '\U{202F}' || c == '\U{205F}'
    || c == '\U{3000}'
  }

  /** Where `str.splitlines` ends a line. */
  predicate IsLineBreak(c: char) {
    || '\n' <= c <= '\r' || '\U{1C}' <= c <= '\U{1E}' || c == '\U{85}' || c == '\U{2028}' || c == '\U{2029}'
  }

  /** `str.strip`. */
  function Strip(s: string): string {
    if s != "" && IsSpace(s[0]) then Strip(s[1..])
    else if s != "" && IsSpace(s[|s| - 1]) then Strip(s[..|s| - 1])
    else s
  }

  /** Where `c` is first found, or the length. */
  function IndexOf(s: string, c: char): (n: nat)
    ensures n <= |s|
    ensures forall i :: 0 <= i < n ==> s[i] != c
    ensures n < |s| ==> s[n] == c
  {
    if s == "" || s[0] == c then 0 else 1 + IndexOf(s[1..], c)
  }

  /** `strip` leaves nothing. */
  predicate Blank(s: string) {
    forall c <- s :: IsSpace(c)
  }

  /** Neither end is white space. */
  predicate Tight(s: string) {
    s != "" ==> !IsSpace(s[0]) && !IsSpace(s[|s| - 1])
  }

  /** Strip takes away exactly the white space around a tight core. */
  lemma {:induction false} StripTakesOuterSpace(pre: string, core: string, post: string)
    requires Blank(pre) && Blank(post) && Tight(core)
    ensures Strip(pre + core + post) == core
  {
    var s := pre + core + post;
    if pre != "" {
      assert pre[0] in pre && s[1..] == pre[1..] + core + post;
      assert forall c <- pre[1..] :: c in pre;
      StripTakesOuterSpace(pre[1..], core, post);
    } else if post != "" {
      var last := |post| - 1;
      assert post[last] in post && s[..|s| - 1] == core + post[..last];
      assert forall c <- post[..last] :: c in post;
      if core == "" {
        assert s == post && forall c <- post[1..] :: c in post;
        assert s[1..] == pre + core + post[1..];
        assert post[0] in post;
        StripTakesOuterSpace(pre, core, post[1..]);
      } else {
        assert s[0] == core[0];
        assert s[..|s| - 1] == pre + core + post[..last];
        StripTakesOuterSpace(pre, core, post[..last]);
      }
    } else {
      assert s == core;
    }
  }

  /** Every string is a tight core in white space. */
  lemma {:induction false} StripSplits(s: string) returns (pre: string, post: string)
    ensures s == pre + Strip(s) + post && Blank(pre) && Blank(post) && Tight(Strip(s))
  {
    if s != "" && IsSpace(s[0]) {
      pre, post := StripSplits(s[1..]);
      pre := [s[0]] + pre;
    } else if s != "" && IsSpace(s[|s| - 1]) {
      pre, post := StripSplits(s[..|s| - 1]);
      post := post + [s[|s| - 1]];
    } else {
      pre, post := "", "";
    }
  }

  lemma StripOfBlank(s: string)
    ensures Blank(s) <==> Strip(s) == ""
  {
    if Blank(s) {
      StripTakesOuterSpace(s, "", "");
      assert s + "" + "" == s;
    }
    if Strip(s) == "" {
      var pre, post := StripSplits(s);
      assert forall c <- s :: c in pre || c in post;
    }
  }
}
