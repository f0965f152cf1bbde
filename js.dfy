/** The few pieces of JavaScript semantics the user-sync handlers rely on:
    nullish values, truthiness of strings, the `??` operator, optional
    chaining, and `String.prototype.trim`.

    A JavaScript value that may be `null` or `undefined` is an `Option`:
    both `null` and `undefined` are `None`, because every operator the
    handlers apply to them (`!`, `??`, `?.`) treats the two alike. */
module Js {

  datatype Option<+T> = None | Some(value: T)

  /** `!x` for a string-or-nullish `x`: true for `null`, `undefined` and `""`. */
  predicate Falsy(x: Option<string>)
  {
    x.None? || x.value == ""
  }

  /** `x ?? fallback`: only a nullish `x` is replaced; `""` is kept. */
  function Coalesce<T>(x: Option<T>, fallback: T): T
  {
    match x
    case Some(v) => v
    case None => fallback
  }

  /** The characters ECMAScript's `trim` removes: the WhiteSpace production
      (TAB, VT, FF, ZWNBSP and every Space_Separator code point) and the
      LineTerminator production (LF, CR, LS, PS). */
  predicate IsJsWhitespace(c: char)
  {
    || c == '\t' || c == '\n' || c == '\U{B}' || c == '\U{C}' || c == '\r'
    || c == ' ' || c == '\U{A0}' || c == '\U{1680}'
    || ('\U{2000}' <= c <= '\U{200A}')
    || c == '\U{2028}' || c == '\U{2029}' || c == '\U{202F}' || c == '\U{205F}'
    || c == '\U{3000}' || c == '\U{FEFF}'
  }

  /** No whitespace at either end of `s`. */
  predicate Stripped(s: string)
  {
    s == [] || (!IsJsWhitespace(s[0]) && !IsJsWhitespace(s[|s| - 1]))
  }

  /** `s[i..j]` is what is left of `s` once its whitespace ends are cut off:
      everything before `i` and from `j` on is whitespace, and the slice
      itself neither starts nor ends with whitespace. */
  ghost predicate TrimmedSlice(s: string, i: int, j: int)
  {
    && 0 <= i <= j <= |s|
    && (forall k :: 0 <= k < i ==> IsJsWhitespace(s[k]))
    && (forall k :: j <= k < |s| ==> IsJsWhitespace(s[k]))
    && Stripped(s[i..j])
  }

  /** Removes the leading whitespace: the result is the longest suffix of
      `s` that does not start with whitespace. */
  function TrimStart(s: string): (r: string)
    ensures |r| <= |s| && r == s[|s| - |r|..]
    ensures forall k :: 0 <= k < |s| - |r| ==> IsJsWhitespace(s[k])
    ensures r == [] || !IsJsWhitespace(r[0])
    decreases |s|
  {
    if |s| > 0 && IsJsWhitespace(s[0]) then
      var r := TrimStart(s[1..]);
      assert s[1..][|s| - 1 - |r|..] == s[|s| - |r|..];
      assert forall k :: 1 <= k < |s| - |r| ==> s[k] == s[1..][k - 1];
      r
    else
      s
  }

  /** Removes the trailing whitespace: the result is the longest prefix of
      `s` that does not end with whitespace. */
  function TrimEnd(s: string): (r: string)
    ensures |r| <= |s| && r == s[..|r|]
    ensures forall k :: |r| <= k < |s| ==> IsJsWhitespace(s[k])
    ensures r == [] || !IsJsWhitespace(r[|r| - 1])
    decreases |s|
  {
    if |s| > 0 && IsJsWhitespace(s[|s| - 1]) then
      var r := TrimEnd(s[..|s| - 1]);
      assert s[..|s| - 1][..|r|] == s[..|r|];
      r
    else
      s
  }

  /** How many whitespace characters `s` starts with. */
  function LeadingSpaces(s: string): (n: nat)
    ensures n <= |s|
  {
    |s| - |TrimStart(s)|
  }

  /** `s.trim()`: the result is the slice of `s` left between its leading
      and its trailing whitespace (TrimUnique shows there is only one). */
  function Trim(s: string): (r: string)
    ensures |r| <= |s| && Stripped(r)
    ensures TrimmedSlice(s, LeadingSpaces(s), LeadingSpaces(s) + |r|)
    ensures r == s[LeadingSpaces(s)..LeadingSpaces(s) + |r|]
  {
    var t := TrimStart(s);
    var i := |s| - |t|;
    var r := TrimEnd(t);
    assert t == s[i..];
    assert r == s[i..i + |r|];
    r
  }

  /** Any slice that satisfies TrimmedSlice is the one `trim` returns, so
      TrimmedSlice defines `trim` independently of how Trim computes it. */
  lemma TrimUnique(s: string, i: int, j: int)
    requires TrimmedSlice(s, i, j)
    ensures Trim(s) == s[i..j]
  {
  }

  /** Whitespace added in front of `s` is all cut off by TrimStart. */
  lemma {:induction false} TrimStartIgnoresLeadingSpace(pad: string, s: string)
    requires forall k :: 0 <= k < |pad| ==> IsJsWhitespace(pad[k])
    ensures TrimStart(pad + s) == TrimStart(s)
    decreases |pad|
  {
    if pad == [] {
      assert pad + s == s;
    } else {
      assert (pad + s)[0] == pad[0];
      assert (pad + s)[1..] == pad[1..] + s;
      TrimStartIgnoresLeadingSpace(pad[1..], s);
    }
  }

  /** Whitespace added in front of `s` does not change its trim. */
  lemma TrimIgnoresLeadingSpace(pad: string, s: string)
    requires forall k :: 0 <= k < |pad| ==> IsJsWhitespace(pad[k])
    ensures Trim(pad + s) == Trim(s)
  {
    TrimStartIgnoresLeadingSpace(pad, s);
  }

  /** Whitespace added after `s` does not change its trim. */
  lemma TrimIgnoresTrailingSpace(s: string, pad: string)
    requires forall k :: 0 <= k < |pad| ==> IsJsWhitespace(pad[k])
    ensures Trim(s + pad) == Trim(s)
  {
    var i := LeadingSpaces(s);
    var j := i + |Trim(s)|;
    assert Trim(s + pad) == s[i..j] by {
      assert TrimmedSlice(s + pad, i, j) && (s + pad)[i..j] == s[i..j];
      TrimUnique(s + pad, i, j);
    }
  }
}
