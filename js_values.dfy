/** JavaScript value behaviour that both the browser client and the relay depend on:
    `null`/`undefined` for a missing string, truthiness, string conversion,
    `String.prototype.trim` and `String.prototype.includes`. */
module JsValues {

  /** A value that is a string or is missing (`null` or `undefined`). */
  datatype Option<+T> = None | Some(value: T)

  /** `if (v)` for a string-or-missing value: the empty string and a missing value are falsy. */
  predicate Truthy(v: Option<string>) {
    v.Some? && v.value != ""
  }

  /** `v + ''` for a string or `null`: a null field prints as "null". */
  function ToJsString(v: Option<string>): (r: string)
    ensures v.Some? ==> r == v.value
    ensures v.None? ==> r == "null"
  {
    match v
    case None => "null"
    case Some(s) => s
  }

  /** The characters `String.prototype.trim` removes: ECMAScript WhiteSpace and LineTerminator
      (tab, line feed, vertical tab, form feed, carriage return, space, no-break space,
      the Unicode space separators, line and paragraph separators, and the byte order mark). */
  predicate IsWhitespace(c: char) {
    c == '\t' || c == '\n' || c == '\U{000B}' || c == '\U{000C}' || c == '\r' || c == ' '
    || c == '\U{00A0}' || c == '\U{1680}' || ('\U{2000}' <= c <= '\U{200A}')
    || c == '\U{2028}' || c == '\U{2029}' || c == '\U{202F}' || c == '\U{205F}'
    || c == '\U{3000}' || c == '\U{FEFF}'
  }

  ghost predicate AllWhitespace(s: string) {
    forall i :: 0 <= i < |s| ==> IsWhitespace(s[i])
  }

  /** Leading whitespace removed: what is dropped is all whitespace, what is kept is a suffix
      that does not start with whitespace. */
  function TrimStart(s: string): (r: string)
    ensures |r| <= |s| && r == s[|s| - |r|..]
    ensures AllWhitespace(s[..|s| - |r|])
    ensures r != [] ==> !IsWhitespace(r[0])
  {
    if s != [] && IsWhitespace(s[0]) then
      var r := TrimStart(s[1..]);
      DropFront(s, r);
      r
    else s
  }

  /** Whitespace dropped from `s[1..]` plus a whitespace `s[0]` is whitespace dropped from `s`. */
  lemma DropFront(s: string, r: string)
    requires s != [] && IsWhitespace(s[0])
    requires |r| <= |s| - 1 && r == s[1..][|s| - 1 - |r|..] && AllWhitespace(s[1..][..|s| - 1 - |r|])
    ensures r == s[|s| - |r|..] && AllWhitespace(s[..|s| - |r|])
  {
    assert s[..|s| - |r|] == [s[0]] + s[1..][..|s| - 1 - |r|];
  }

  /** Trailing whitespace removed: what is dropped is all whitespace, what is kept is a prefix
      that does not end with whitespace. */
  function TrimEnd(s: string): (r: string)
    ensures |r| <= |s| && r == s[..|r|]
    ensures AllWhitespace(s[|r|..])
    ensures r != [] ==> !IsWhitespace(r[|r| - 1])
  {
    if s != [] && IsWhitespace(s[|s| - 1]) then
      var r := TrimEnd(s[..|s| - 1]);
      DropBack(s, r);
      r
    else s
  }

  /** Whitespace dropped from `s[..|s| - 1]` plus a whitespace last character is whitespace
      dropped from `s`. */
  lemma DropBack(s: string, r: string)
    requires s != [] && IsWhitespace(s[|s| - 1])
    requires |r| <= |s| - 1 && r == s[..|s| - 1][..|r|] && AllWhitespace(s[..|s| - 1][|r|..])
    ensures r == s[..|r|] && AllWhitespace(s[|r|..])
  {
    assert s[|r|..] == s[..|s| - 1][|r|..] + [s[|s| - 1]];
  }

  /** `r` is `s` with its first `k` and its last `m` characters removed, all of them whitespace. */
  ghost predicate StripsTo(s: string, k: nat, m: nat, r: string) {
    k + m <= |s| && r == s[k..|s| - m] && AllWhitespace(s[..k]) && AllWhitespace(s[|s| - m..])
  }

  /** `s.trim()`: a piece of `s` that neither starts nor ends with whitespace, and that is
      empty exactly when `s` is whitespace only. */
  function Trim(s: string): (r: string)
    ensures exists k, m :: StripsTo(s, k, m, r)
    ensures Includes(s, r)
    ensures r != [] ==> !IsWhitespace(r[0]) && !IsWhitespace(r[|r| - 1])
    ensures r == [] <==> AllWhitespace(s)
  {
    var front := TrimStart(s);
    var r := TrimEnd(front);
    IncludesAt(s, r, |s| - |front|);
    StripsFromParts(s, front, r);
    TrimmedEmptyOnlyIfBlank(s, front, r);
    r
  }

  /** A prefix of a suffix is a middle slice, and what the prefix leaves is a suffix. */
  lemma SliceOfSuffix(s: string, front: string, r: string)
    requires |front| <= |s| && front == s[|s| - |front|..]
    requires |r| <= |front| && r == front[..|r|]
    ensures r == s[|s| - |front|..|s| - (|front| - |r|)]
    ensures s[|s| - (|front| - |r|)..] == front[|r|..]
  {
  }

  /** Dropping whitespace from the front and then from the back strips `s` to `r`. */
  lemma StripsFromParts(s: string, front: string, r: string)
    requires |front| <= |s| && front == s[|s| - |front|..] && AllWhitespace(s[..|s| - |front|])
    requires |r| <= |front| && r == front[..|r|] && AllWhitespace(front[|r|..])
    ensures StripsTo(s, |s| - |front|, |front| - |r|, r)
  {
    SliceOfSuffix(s, front, r);
  }

  lemma TrimmedEmptyOnlyIfBlank(s: string, front: string, r: string)
    requires front == TrimStart(s) && r == TrimEnd(front)
    ensures r == [] <==> AllWhitespace(s)
  {
    var n := |s| - |front|;
    if r == [] {
      // an all-whitespace `front` must be empty, since TrimStart keeps no leading whitespace
      assert front[|r|..] == front;
      assert front == [];
      assert s[..n] == s;
    } else {
      assert r[0] == front[0] == s[n];
    }
  }

  /** `s.startsWith(p)`. */
  predicate StartsWith(s: string, p: string) {
    |p| <= |s| && s[..|p|] == p
  }

  /** `s.includes(p)`: `p` occurs in `s` at some index. */
  predicate Includes(s: string, p: string) {
    exists i :: 0 <= i <= |s| && StartsWith(s[i..], p)
  }

  /** An occurrence at a known index witnesses `includes`. */
  lemma IncludesAt(s: string, p: string, i: nat)
    requires i + |p| <= |s| && s[i..][..|p|] == p
    ensures Includes(s, p)
  {
    assert StartsWith(s[i..], p);
  }
}
