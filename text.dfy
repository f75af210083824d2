/**
 * String helpers shared by the codec and the storage-path builders:
 * decimal rendering and reading of naturals, the text after the last '.',
 * and prefix tests.
 */
module Text {

  predicate IsDigit(c: char) {
    '0' <= c <= '9'
  }

  predicate AllDigits(s: string) {
    forall k :: 0 <= k < |s| ==> IsDigit(s[k])
  }

  function DigitChar(d: nat): (c: char)
    requires d < 10
    ensures IsDigit(c)
  {
    (48 + d) as char
  }

  function DigitValue(c: char): (d: nat)
    requires IsDigit(c)
    ensures d < 10
  {
    c as int - 48
  }

  /** Decimal rendering of a natural number, as `String(n)` gives it for n below 1e21. */
  function NatToString(n: nat): (s: string)
    ensures |s| >= 1 && AllDigits(s)
    ensures s[0] == '0' ==> n == 0
  {
    if n < 10 then [DigitChar(n)] else NatToString(n / 10) + [DigitChar(n % 10)]
  }

  /** Value of a run of decimal digits; leading zeros are allowed, as in `parseFloat`. */
  function DigitsValue(s: string): nat
    requires AllDigits(s)
  {
    if s == [] then 0 else 10 * DigitsValue(s[..|s| - 1]) + DigitValue(s[|s| - 1])
  }

  lemma {:induction false} DigitsValueOfNatToString(n: nat)
    ensures DigitsValue(NatToString(n)) == n
  {
    if n >= 10 {
      DigitsValueOfNatToString(n / 10);
      var s := NatToString(n);
      assert s[..|s| - 1] == NatToString(n / 10);
    }
  }

  /** Decimal rendering of an integer, with a leading '-' when negative. */
  function IntToString(i: int): (s: string)
    ensures |s| >= 1
    ensures forall k :: 0 <= k < |s| ==> IsDigit(s[k]) || s[k] == '-'
    ensures i >= 0 <==> AllDigits(s)
    ensures i < 0 <==> s[0] == '-'
  {
    if i >= 0 then NatToString(i)
    else
      var s := "-" + NatToString(-i);
      assert !IsDigit(s[0]);
      s
  }

  /**
   * `s.split('.').pop()`: the text after the last '.', or the whole of `s`
   * when it holds no '.'.
   */
  function AfterLastDot(s: string): (r: string)
    ensures '.' !in r
    ensures |r| <= |s| && r == s[|s| - |r|..]
    ensures '.' in s ==> |r| < |s| && s[|s| - |r| - 1] == '.'
    ensures '.' !in s ==> r == s
  {
    if s == [] then []
    else if s[|s| - 1] == '.' then []
    else
      var p := s[..|s| - 1];
      assert s == p + [s[|s| - 1]];
      var q := AfterLastDot(p);
      ExtendDotFreeSuffix(p, q, s[|s| - 1]);
      q + [s[|s| - 1]]
  }

  /** Appending a character other than '.' extends the text after the last '.' by that character. */
  lemma ExtendDotFreeSuffix(p: string, q: string, c: char)
    requires c != '.' && '.' !in q && |q| <= |p| && q == p[|p| - |q|..]
    requires '.' in p ==> |q| < |p| && p[|p| - |q| - 1] == '.'
    requires '.' !in p ==> q == p
    ensures var s, r := p + [c], q + [c];
      && '.' !in r && |r| <= |s| && r == s[|s| - |r|..]
      && ('.' in s ==> |r| < |s| && s[|s| - |r| - 1] == '.')
      && ('.' !in s ==> r == s)
  {
    var s, r := p + [c], q + [c];
    assert s[|s| - |r|..] == p[|p| - |q|..] + [c];
    assert '.' in s ==> '.' in p;
  }

  /**
   * `ext` is what the source means by "the extension of `name`": it holds
   * no '.', and either `name` holds no '.' and is `ext`, or `name` ends
   * with '.' followed by `ext`.
   */
  predicate IsExtensionOf(name: string, ext: string) {
    && '.' !in ext
    && (ext == name || (|ext| < |name| && name[|name| - |ext| - 1..] == "." + ext))
  }

  /** `AfterLastDot` computes exactly the extension, and nothing else is one. */
  lemma AfterLastDotIsExtension(name: string, ext: string)
    ensures ext == AfterLastDot(name) ==> IsExtensionOf(name, ext)
    ensures IsExtensionOf(name, ext) ==> ext == AfterLastDot(name)
  {
    var r := AfterLastDot(name);
    if IsExtensionOf(name, ext) && ext != name {
      var n := |name|;
      assert name[n - |ext| - 1..][0] == '.';
      assert '.' in name by {
        assert name[n - |ext| - 1] == '.';
      }
      SuffixNoLonger(name, r, ext);
      SuffixNoLonger(name, ext, r);
      assert ext == name[n - |ext|..] by {
        assert name[n - |ext| - 1..] == [name[n - |ext| - 1]] + name[n - |ext|..];
      }
    }
    if ext == r && '.' in name {
      assert name[|name| - |r| - 1..] == [name[|name| - |r| - 1]] + name[|name| - |r|..];
    }
  }

  /** Joining a head and a dot-free extension with '.' gives a name whose extension is that one. */
  lemma DotJoinHasExtension(head: string, ext: string)
    requires '.' !in ext
    ensures EndsWith(head + "." + ext, "." + ext)
    ensures AfterLastDot(head + "." + ext) == ext
  {
    var s := head + "." + ext;
    assert s[|s| - |ext| - 1..] == "." + ext;
    AfterLastDotIsExtension(s, ext);
  }

  /** A dot-free suffix is no longer than any suffix that follows a '.'. */
  lemma SuffixNoLonger(name: string, a: string, b: string)
    requires '.' !in a && |a| <= |name| && a == name[|name| - |a|..]
    requires |b| < |name| && name[|name| - |b| - 1] == '.'
    ensures |a| <= |b|
  {
  }

  predicate StartsWith(s: string, prefix: string) {
    |prefix| <= |s| && s[..|prefix|] == prefix
  }

  predicate EndsWith(s: string, suffix: string) {
    |suffix| <= |s| && s[|s| - |suffix|..] == suffix
  }
}
