// The string helpers the logger relies on: Go's `strings.TrimSpace` and a character count.

module Text {

  /** Go's `unicode.IsSpace`: the ASCII blanks, NEL, NBSP and the Unicode space separators. */
  predicate IsSpace(c: char) {
    var n := c as int;
    (9 <= n <= 13) || n == 32 || n == 0x85 || n == 0xA0 || n == 0x1680
    || (0x2000 <= n <= 0x200A) || n == 0x2028 || n == 0x2029 || n == 0x202F
    || n == 0x205F || n == 0x3000
  }

  /** Every character of `s` is white space (vacuously so for the empty string). */
  predicate Blank(s: string) {
    forall i :: 0 <= i < |s| ==> IsSpace(s[i])
  }

  lemma {:induction false} BlankConcat(a: string, b: string)
    ensures Blank(a + b) <==> Blank(a) && Blank(b)
  {
    if Blank(a) && Blank(b) {
      forall i | 0 <= i < |a + b| ensures IsSpace((a + b)[i]) {
        if i >= |a| {
          assert (a + b)[i] == b[i - |a|];
        }
      }
    }
    if Blank(a + b) {
      forall i | 0 <= i < |a| ensures IsSpace(a[i]) {
        assert (a + b)[i] == a[i];
      }
      forall i | 0 <= i < |b| ensures IsSpace(b[i]) {
        assert (a + b)[|a| + i] == b[i];
      }
    }
  }

  /** Number of white-space characters at the front of `s`. */
  function LeadingSpaces(s: string): (n: nat)
    ensures n <= |s|
    ensures Blank(s[..n])
    ensures n < |s| ==> !IsSpace(s[n])
  {
    if |s| > 0 && IsSpace(s[0]) then
      var m := LeadingSpaces(s[1..]);
      assert s[..1 + m] == [s[0]] + s[1..][..m];
      BlankConcat([s[0]], s[1..][..m]);
      1 + m
    else
      0
  }

  /** Number of white-space characters at the end of `s`. */
  function TrailingSpaces(s: string): (n: nat)
    ensures n <= |s|
    ensures Blank(s[|s| - n..])
    ensures n < |s| ==> !IsSpace(s[|s| - n - 1])
  {
    if |s| > 0 && IsSpace(s[|s| - 1]) then
      var init := s[..|s| - 1];
      var m := TrailingSpaces(init);
      assert s[|s| - (1 + m)..] == init[|init| - m..] + [s[|s| - 1]];
      BlankConcat(init[|init| - m..], [s[|s| - 1]]);
      assert m < |init| ==> s[|s| - (1 + m) - 1] == init[|init| - m - 1];
      1 + m
    else
      0
  }

  /** `strings.TrimSpace`: drop the leading, then the trailing white space. */
  function TrimSpace(s: string): (r: string)
    ensures r == [] <==> Blank(s)
    ensures r != [] ==> !IsSpace(r[0]) && !IsSpace(r[|r| - 1])
  {
    var left := s[LeadingSpaces(s)..];
    var r := left[..|left| - TrailingSpaces(left)];
    assert Blank(s) ==> LeadingSpaces(s) == |s|;
    assert LeadingSpaces(s) == |s| ==> s == s[..LeadingSpaces(s)];
    r
  }

  /** TrimSpace keeps a contiguous piece of `s` and removes only white space around it. */
  lemma {:induction false} TrimSpaceIsInfix(s: string)
    ensures exists pre, suf :: s == pre + TrimSpace(s) + suf && Blank(pre) && Blank(suf)
  {
    var i := LeadingSpaces(s);
    var left := s[i..];
    var j := |left| - TrailingSpaces(left);
    var pre, r, suf := s[..i], left[..j], left[j..];
    assert r == TrimSpace(s);
    assert Blank(pre) && Blank(suf);
    assert s == pre + r + suf;
  }

  /** Padding a string that starts and ends with a non-space by white space is undone by TrimSpace. */
  lemma {:induction false} TrimSpaceOfPadded(pre: string, core: string, suf: string)
    requires Blank(pre) && Blank(suf)
    requires core != [] && !IsSpace(core[0]) && !IsSpace(core[|core| - 1])
    ensures TrimSpace(pre + core + suf) == core
  {
    var s := pre + core + suf;
    LeadingSpacesOfPadded(pre, core + suf);
    assert s == pre + (core + suf);
    var left := s[|pre|..];
    assert left == core + suf;
    TrailingSpacesOfPadded(core, suf);
  }

  lemma {:induction false} LeadingSpacesOfPadded(pre: string, rest: string)
    requires Blank(pre)
    requires rest != [] && !IsSpace(rest[0])
    ensures LeadingSpaces(pre + rest) == |pre|
    decreases |pre|
  {
    if pre != [] {
      assert (pre + rest)[1..] == pre[1..] + rest;
      LeadingSpacesOfPadded(pre[1..], rest);
    }
  }

  lemma {:induction false} TrailingSpacesOfPadded(init: string, suf: string)
    requires Blank(suf)
    requires init != [] && !IsSpace(init[|init| - 1])
    ensures TrailingSpaces(init + suf) == |suf|
    decreases |suf|
  {
    var s := init + suf;
    if suf == [] {
      assert s == init;
    } else {
      var shorter := suf[..|suf| - 1];
      assert s[|s| - 1] == suf[|suf| - 1];
      assert IsSpace(s[|s| - 1]);
      assert s[..|s| - 1] == init + shorter;
      TrailingSpacesOfPadded(init, shorter);
    }
  }

  /** Number of occurrences of `c` in `s`. */
  function Count(c: char, s: string): (n: nat)
    ensures n <= |s|
    ensures n == 0 <==> c !in s
  {
    if s == [] then 0 else (if s[0] == c then 1 else 0) + Count(c, s[1..])
  }

  lemma {:induction false} CountAppend(c: char, a: string, b: string)
    ensures Count(c, a + b) == Count(c, a) + Count(c, b)
    decreases |a|
  {
    if a != [] {
      assert (a + b)[1..] == a[1..] + b;
      CountAppend(c, a[1..], b);
    } else {
      assert a + b == b;
    }
  }
}
