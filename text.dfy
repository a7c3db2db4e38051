/** The java.lang.String operations the interceptor uses, on `seq<char>`. */
module Text {

  /** `s.indexOf(c)`: the index of the first `c` in `s`, or -1 when there is none. */
  function IndexOf(s: string, c: char): (r: int)
    ensures r == -1 <==> c !in s
    ensures r != -1 ==> 0 <= r < |s| && s[r] == c && c !in s[..r]
  {
    if |s| == 0 then -1
    else if s[0] == c then 0
    else
      var k := IndexOf(s[1..], c);
      if k == -1 then -1
      else
        assert s[..k + 1] == [s[0]] + s[1..][..k];
        k + 1
  }

  /** `r` is the part of `s` before its first `c`: a prefix of `s` free of `c`
      that is followed in `s` by `c` or by nothing. */
  ghost predicate IsSegmentBefore(r: string, s: string, c: char) {
    r <= s && c !in r && (|r| < |s| ==> s[|r|] == c)
  }

  /** The segment before the first `c` is unique. */
  lemma SegmentBeforeUnique(r1: string, r2: string, s: string, c: char)
    requires IsSegmentBefore(r1, s, c) && IsSegmentBefore(r2, s, c)
    ensures r1 == r2
  {
  }

  /** When `s` holds no `c`, the segment before the first `c` is all of `s`. */
  lemma SegmentBeforeWithoutSeparator(r: string, s: string, c: char)
    requires IsSegmentBefore(r, s, c) && c !in s
    ensures r == s
  {
  }

  /** Case folding of one character, restricted to ASCII letters. */
  function ToLowerAscii(c: char): char {
    if 'A' <= c <= 'Z' then (c as int + 32) as char else c
  }

  /** `a.equalsIgnoreCase(b)`: equal lengths and equal characters after case folding. */
  function EqualsIgnoreCase(a: string, b: string): (r: bool)
    ensures r <==> |a| == |b| && forall i :: 0 <= i < |a| ==> ToLowerAscii(a[i]) == ToLowerAscii(b[i])
  {
    if |a| != |b| then false
    else if |a| == 0 then true
    else
      var rest := EqualsIgnoreCase(a[1..], b[1..]);
      assert forall i :: 1 <= i < |a| ==> a[1..][i - 1] == a[i] && b[1..][i - 1] == b[i];
      ToLowerAscii(a[0]) == ToLowerAscii(b[0]) && rest
  }
}
