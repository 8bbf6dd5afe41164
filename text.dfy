/** `String.prototype.trim` as the ECMAScript standard defines it (section 22.1.3.32 of
    ECMA-262): remove the leading and trailing characters that are WhiteSpace or LineTerminator. */
module Text {

  /** WhiteSpace (tab, vertical tab, form feed, the byte order mark and every space separator
      of Unicode category Zs) and LineTerminator (line feed, carriage return, U+2028, U+2029),
      by code point: U+0009 to U+000D covers tab, line feed, vertical tab, form feed and
      carriage return. */
  predicate IsWhiteSpace(c: char)
  {
    var n := c as int;
    || 0x9 <= n <= 0xD || n == 0x20 || n == 0xA0 || n == 0x1680 || 0x2000 <= n <= 0x200A
    || n == 0x2028 || n == 0x2029 || n == 0x202F || n == 0x205F || n == 0x3000 || n == 0xFEFF
  }

  predicate AllWhiteSpace(s: string)
  {
    forall k :: 0 <= k < |s| ==> IsWhiteSpace(s[k])
  }

  /** `s` without its leading whitespace. */
  function TrimStart(s: string): (r: string)
    ensures |r| <= |s| && r == s[|s| - |r|..]
    ensures forall k :: 0 <= k < |s| - |r| ==> IsWhiteSpace(s[k])
    ensures r == [] || !IsWhiteSpace(r[0])
  {
    if s != [] && IsWhiteSpace(s[0]) then
      var r := TrimStart(s[1..]);
      assert s[1..][|s| - 1 - |r|..] == s[|s| - |r|..];
      assert forall k :: 1 <= k < |s| - |r| ==> s[k] == s[1..][k - 1];
      r
    else
      s
  }

  /** `s` without its trailing whitespace. */
  function TrimEnd(s: string): (r: string)
    ensures |r| <= |s| && r == s[..|r|]
    ensures forall k :: |r| <= k < |s| ==> IsWhiteSpace(s[k])
    ensures r == [] || !IsWhiteSpace(r[|r| - 1])
  {
    if s != [] && IsWhiteSpace(s[|s| - 1]) then
      var r := TrimEnd(s[..|s| - 1]);
      assert s[..|s| - 1][..|r|] == s[..|r|];
      assert forall k :: |r| <= k < |s| - 1 ==> s[k] == s[..|s| - 1][k];
      r
    else
      s
  }

  /** `s.trim()`: `s` without its leading and trailing whitespace. */
  function Trim(s: string): (r: string)
    ensures |r| <= |s|
    ensures r == [] || (!IsWhiteSpace(r[0]) && !IsWhiteSpace(r[|r| - 1]))
  {
    TrimEnd(TrimStart(s))
  }

  /** What Trim cuts off on either side is whitespace. */
  lemma TrimCuts(s: string) returns (left: string, right: string)
    ensures AllWhiteSpace(left) && AllWhiteSpace(right)
    ensures s == left + Trim(s) + right
  {
    left := TrimStartCuts(s);
    right := TrimEndCuts(TrimStart(s));
  }

  lemma TrimStartCuts(s: string) returns (left: string)
    ensures AllWhiteSpace(left) && s == left + TrimStart(s)
  {
    var n := |s| - |TrimStart(s)|;
    left := s[..n];
    assert s == s[..n] + s[n..];
  }

  lemma TrimEndCuts(s: string) returns (right: string)
    ensures AllWhiteSpace(right) && s == TrimEnd(s) + right
  {
    var n := |TrimEnd(s)|;
    right := s[n..];
    assert s == s[..n] + s[n..];
  }

  lemma {:induction false} TrimStartSkipsWhiteSpace(w: string, s: string)
    requires AllWhiteSpace(w)
    ensures TrimStart(w + s) == TrimStart(s)
  {
    if w != [] {
      assert (w + s)[1..] == w[1..] + s;
      TrimStartSkipsWhiteSpace(w[1..], s);
    } else {
      assert w + s == s;
    }
  }

  lemma {:induction false} TrimEndSkipsWhiteSpace(s: string, w: string)
    requires AllWhiteSpace(w)
    ensures TrimEnd(s + w) == TrimEnd(s)
  {
    if w != [] {
      assert (s + w)[..|s + w| - 1] == s + w[..|w| - 1];
      TrimEndSkipsWhiteSpace(s, w[..|w| - 1]);
    } else {
      assert s + w == s;
    }
  }

  /** Trim removes exactly the surrounding whitespace: with `TrimCuts`, this determines
      the result. */
  lemma TrimPadded(left: string, t: string, right: string)
    requires AllWhiteSpace(left) && AllWhiteSpace(right)
    requires t == [] || (!IsWhiteSpace(t[0]) && !IsWhiteSpace(t[|t| - 1]))
    ensures Trim(left + t + right) == t
  {
    var s := left + t + right;
    assert s == left + (t + right);
    TrimStartSkipsWhiteSpace(left, t + right);
    if t == [] {
      assert t + right == right + [];
      TrimStartSkipsWhiteSpace(right, []);
      assert TrimStart(s) == [];
    } else {
      assert (t + right)[0] == t[0];
      assert TrimStart(t + right) == t + right;
      TrimEndSkipsWhiteSpace(t, right);
      assert TrimEnd(t) == t;
      assert TrimStart(s) == t + right;
    }
    assert Trim(s) == TrimEnd(TrimStart(s));
  }

  lemma TrimIdempotent(s: string)
    ensures Trim(Trim(s)) == Trim(s)
  {
    var r := Trim(s);
    assert TrimStart(r) == r;
    assert TrimEnd(r) == r;
  }
}
