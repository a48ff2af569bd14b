/** String facts used wherever the system builds keys or trims text. */
module Text {

  /** The characters Python's str.strip() removes. */
  predicate IsSpace(c: char) {
    var n := c as int;
    || 0x09 <= n <= 0x0d || 0x1c <= n <= 0x20 || n == 0x85 || n == 0xa0 || n == 0x1680
    || 0x2000 <= n <= 0x200a || n == 0x2028 || n == 0x2029 || n == 0x202f || n == 0x205f || n == 0x3000
  }

  function StripLeft(s: string): (r: string)
    ensures r == "" || !IsSpace(r[0])
    ensures |r| <= |s| && r == s[|s| - |r|..]
    ensures forall k :: 0 <= k < |s| - |r| ==> IsSpace(s[k])
  {
    if s == "" then "" else if IsSpace(s[0]) then StripLeft(s[1..]) else s
  }

  function StripRight(s: string): (r: string)
    ensures r == "" || !IsSpace(r[|r| - 1])
    ensures r <= s
    ensures forall k :: |r| <= k < |s| ==> IsSpace(s[k])
  {
    if s == "" then "" else if IsSpace(s[|s| - 1]) then StripRight(s[..|s| - 1]) else s
  }

  /** Python's str.strip(): drop white space at both ends. */
  function Strip(s: string): (r: string)
    ensures r == "" || (!IsSpace(r[0]) && !IsSpace(r[|r| - 1]))
    ensures r == "" <==> forall k :: 0 <= k < |s| ==> IsSpace(s[k])
  {
    var l := StripLeft(s);
    var r := StripRight(l);
    assert r != "" ==> r[0] == l[0];
    assert l != "" ==> s[|s| - |l|] == l[0];
    assert l != "" ==> r != "";
    r
  }

  predicate Blank(s: string) {
    forall k :: 0 <= k < |s| ==> IsSpace(s[k])
  }

  lemma LeftPart(s: string) returns (front: string)
    ensures s == front + StripLeft(s) && Blank(front)
  {
    hide IsSpace, StripLeft;
    var l := StripLeft(s);
    front := s[..|s| - |l|];
    assert l == s[|s| - |l|..];
  }

  lemma RightPart(s: string) returns (back: string)
    ensures s == StripRight(s) + back && Blank(back)
  {
    hide IsSpace, StripRight;
    var r := StripRight(s);
    back := s[|r|..];
  }

  /** Stripping cuts a middle part out of the text and drops only white space around it. */
  lemma StripParts(s: string) returns (front: string, back: string)
    ensures s == front + Strip(s) + back && Blank(front) && Blank(back)
    ensures Strip(s) == "" || (!IsSpace(Strip(s)[0]) && !IsSpace(Strip(s)[|Strip(s)| - 1]))
  {
    hide Blank, StripLeft, StripRight;
    assert Strip(s) == StripRight(StripLeft(s));
    hide Strip;
    front := LeftPart(s);
    back := RightPart(StripLeft(s));
  }

  /**
    * A text built as head + separator + tail determines both parts when the head never
    * contains the separator.
    */
  lemma {:induction false} SeparatorSplits(a: string, b: string, sep: char, x: string, y: string)
    requires sep !in a && sep !in b
    requires a + [sep] + x == b + [sep] + y
    ensures a == b && x == y
  {
    var l, r := a + [sep] + x, b + [sep] + y;
    assert l[|a|] == sep && forall k :: 0 <= k < |a| ==> l[k] == a[k];
    assert r[|b|] == sep && forall k :: 0 <= k < |b| ==> r[k] == b[k];
    assert |a| == |b|;
    assert a == l[..|a|] && b == r[..|a|];
    assert x == l[|a| + 1..] && y == r[|a| + 1..];
  }
}
