/**
 * String helpers with JavaScript semantics: `String.prototype.trim` and the
 * `length` of a string, which counts UTF-16 code units.
 */
module Text {

  /**
   * The characters `trim` strips: the WhiteSpace and LineTerminator code points
   * of ECMAScript (TAB, VT, FF, SP, NBSP, ZWNBSP, the other space separators of
   * Unicode category Zs, LF, CR, LS and PS).
   */
  predicate IsWhitespace(c: char): (r: bool)
    ensures r ==> c as int <= 0xFFFF
  {
    || c == '\t' || c == '\n' || c == '\U{000B}' || c == '\U{000C}' || c == '\r'
    || c == ' ' || c == '\U{00A0}' || c == '\U{1680}'
    || ('\U{2000}' <= c <= '\U{200A}')
    || c == '\U{2028}' || c == '\U{2029}' || c == '\U{202F}' || c == '\U{205F}'
    || c == '\U{3000}' || c == '\U{FEFF}'
  }

  predicate AllWhitespace(s: string)
  {
    forall k :: 0 <= k < |s| ==> IsWhitespace(s[k])
  }

  /** `s` with its leading whitespace removed: a suffix of `s`. */
  function TrimStart(s: string): (r: string)
    ensures |r| <= |s| && r == s[|s| - |r|..]
    ensures AllWhitespace(s[..|s| - |r|])
    ensures r != [] ==> !IsWhitespace(r[0])
    decreases |s|
  {
    if s != [] && IsWhitespace(s[0]) then TrimStart(s[1..]) else s
  }

  /** `s` with its trailing whitespace removed: a prefix of `s`. */
  function TrimEnd(s: string): (r: string)
    ensures |r| <= |s| && r == s[..|r|]
    ensures AllWhitespace(s[|r|..])
    ensures r != [] ==> !IsWhitespace(r[|r| - 1])
    decreases |s|
  {
    if s != [] && IsWhitespace(s[|s| - 1]) then
      var p := s[..|s| - 1];
      var r := TrimEnd(p);
      assert p[..|r|] == s[..|r|];
      assert s[|r|..] == p[|r|..] + [s[|s| - 1]];
      r
    else s
  }

  /**
   * JavaScript's `s.trim()`: the slice `s[i..j]` that is left when every
   * leading and trailing whitespace character is removed.
   */
  function Trim(s: string): (r: string)
    ensures |r| <= |s|
    ensures r != [] ==> !IsWhitespace(r[0]) && !IsWhitespace(r[|r| - 1])
    ensures r == [] <==> AllWhitespace(s)
  {
    var t := TrimStart(s);
    var r := TrimEnd(t);
    assert r == [] ==> AllWhitespace(s) by {
      if r == [] {
        assert s == s[..|s| - |t|] + t;
        assert t == t[|r|..];
      }
    }
    r
  }

  /** The cut points of `Trim(s)` inside `s`: the whitespace removed on either side. */
  lemma TrimIsSlice(s: string)
    ensures var r := Trim(s);
      exists i | 0 <= i <= |s| - |r| ::
        && r == s[i..i + |r|]
        && AllWhitespace(s[..i])
        && AllWhitespace(s[i + |r|..])
  {
    var t := TrimStart(s);
    var r := TrimEnd(t);
    var i := |s| - |t|;
    assert r == Trim(s);
    assert t == s[i..];
    assert r == s[i..i + |r|] by { assert r == t[..|r|]; }
    assert s[i + |r|..] == t[|r|..];
    assert AllWhitespace(s[..i]);
    assert AllWhitespace(s[i + |r|..]);
  }

  /** Trimming twice is trimming once. */
  lemma TrimIdempotent(s: string)
    ensures Trim(Trim(s)) == Trim(s)
  {
    var r := Trim(s);
    if r != [] {
      assert TrimStart(r) == r;
      assert TrimEnd(r) == r;
    }
  }

  /** Leading whitespace does not survive `TrimStart`. */
  lemma {:induction false} TrimStartSkipsWhitespace(w: string, x: string)
    requires AllWhitespace(w)
    ensures TrimStart(w + x) == TrimStart(x)
    decreases |w|
  {
    if w == [] {
      assert w + x == x;
    } else {
      assert (w + x)[0] == w[0] && IsWhitespace(w[0]);
      assert (w + x)[1..] == w[1..] + x;
      TrimStartSkipsWhitespace(w[1..], x);
    }
  }

  /** Trailing whitespace does not survive `TrimEnd`. */
  lemma {:induction false} TrimEndSkipsWhitespace(x: string, w: string)
    requires AllWhitespace(w)
    ensures TrimEnd(x + w) == TrimEnd(x)
    decreases |w|
  {
    if w == [] {
      assert x + w == x;
    } else {
      var w' := w[..|w| - 1];
      assert (x + w)[|x + w| - 1] == w[|w| - 1] && IsWhitespace(w[|w| - 1]);
      assert (x + w)[..|x + w| - 1] == x + w';
      TrimEndSkipsWhitespace(x, w');
    }
  }

  /** Trimming a padded string gives back the text between the padding. */
  lemma TrimPadded(pad1: string, core: string, pad2: string)
    requires AllWhitespace(pad1) && AllWhitespace(pad2)
    requires core != [] ==> !IsWhitespace(core[0]) && !IsWhitespace(core[|core| - 1])
    ensures Trim(pad1 + core + pad2) == core
  {
    assert pad1 + core + pad2 == pad1 + (core + pad2);
    TrimStartSkipsWhitespace(pad1, core + pad2);
    if core == [] {
      assert AllWhitespace(core + pad2);
    } else {
      assert (core + pad2)[0] == core[0];
    }
    TrimEndSkipsWhitespace(core, pad2);
  }

  /** The number of UTF-16 code units of `s`, which is JavaScript's `s.length`. */
  function Utf16Length(s: string): (n: nat)
    ensures |s| <= n <= 2 * |s|
    ensures n == 0 <==> s == []
    ensures (forall k :: 0 <= k < |s| ==> s[k] as int <= 0xFFFF) ==> n == |s|
  {
    if s == [] then 0
    else (if s[0] as int > 0xFFFF then 2 else 1) + Utf16Length(s[1..])
  }
}
