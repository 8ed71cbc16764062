// The few JavaScript string operations the backend and frontend rely on:
// `split` with a one-character separator, ASCII `toLowerCase`, and the
// truthiness test `!s` on a possibly-missing string.

module JsText {

  /** A value that may be missing (`null` / `undefined` in the source). */
  datatype Option<+T> = None | Some(value: T) {
    function GetOr(default: T): T {
      match this
      case Some(v) => v
      case None => default
    }
  }

  /** `!!s` for a string that may be missing: absent and empty are both falsy. */
  predicate Truthy(s: Option<string>) {
    s.Some? && s.value != ""
  }

  /** `s || fallback` for a string that may be missing. */
  function OrElse(s: Option<string>, fallback: string): string
  {
    if Truthy(s) then s.value else fallback
  }

  /** Position of the first `c` in `s`, or `|s|` when there is none. */
  function IndexOf(s: string, c: char): (i: nat)
    ensures i <= |s|
    ensures i < |s| ==> s[i] == c
    ensures forall j :: 0 <= j < i ==> s[j] != c
    ensures i == |s| <==> c !in s
  {
    if s == [] then 0
    else if s[0] == c then 0
    else 1 + IndexOf(s[1..], c)
  }

  /** `s.split(c)` for a one-character separator: the maximal runs between separators. */
  function Split(s: string, c: char): (parts: seq<string>)
    ensures |parts| >= 1
    ensures forall k :: 0 <= k < |parts| ==> c !in parts[k]
    decreases |s|
  {
    var i := IndexOf(s, c);
    if i == |s| then [s]
    else [s[..i]] + Split(s[i + 1..], c)
  }

  /** `parts.join(c)`, the inverse of `Split`. */
  function Join(parts: seq<string>, c: char): string
  {
    if parts == [] then ""
    else if |parts| == 1 then parts[0]
    else parts[0] + [c] + Join(parts[1..], c)
  }

  lemma {:induction false} JoinSplit(s: string, c: char)
    ensures Join(Split(s, c), c) == s
    decreases |s|
  {
    var i := IndexOf(s, c);
    if i < |s| {
      var rest := s[i + 1..];
      var tailParts := Split(rest, c);
      JoinSplit(rest, c);
      var parts := [s[..i]] + tailParts;
      assert Split(s, c) == parts;
      assert parts[0] == s[..i] && parts[1..] == tailParts;
      assert Join(parts, c) == s[..i] + [c] + Join(tailParts, c);
      assert s == s[..i] + [c] + rest;
    }
  }

  /** `s.split(c)[1]`: `undefined` when `s` has no `c`. */
  function SecondField(s: string, c: char): (r: Option<string>)
    ensures r.Some? <==> c in s
    ensures r.Some? ==> c !in r.value
  {
    var parts := Split(s, c);
    if |parts| >= 2 then Some(parts[1]) else None
  }

  lemma IndexOfPrefixed(a: string, c: char, rest: string)
    requires c !in a
    ensures IndexOf(a + [c] + rest, c) == |a|
  {
    var s := a + [c] + rest;
    assert s[|a|] == c;
    assert forall j :: 0 <= j < |a| ==> s[j] == a[j];
  }

  /**
   * The second field is exactly the text between the first `c` and the next
   * one (or the end): `a` + c + `b` + (nothing, or c + anything) gives `b`.
   */
  lemma SecondFieldOf(a: string, c: char, b: string, tail: string)
    requires c !in a && c !in b
    requires tail == [] || tail[0] == c
    ensures SecondField(a + [c] + b + tail, c) == Some(b)
  {
    var s := a + [c] + b + tail;
    assert s == a + [c] + (b + tail);
    IndexOfPrefixed(a, c, b + tail);
    var rest := s[|a| + 1..];
    assert rest == b + tail;
    if tail == [] {
      assert rest == b;
    } else {
      assert rest == b + [c] + tail[1..];
      IndexOfPrefixed(b, c, tail[1..]);
    }
    var j := IndexOf(rest, c);
    assert rest[..j] == b;
    assert Split(rest, c)[0] == b;
    assert Split(s, c) == [s[..|a|]] + Split(rest, c);
  }

  /** ASCII `toLowerCase` of one character. */
  function LowerChar(ch: char): char
  {
    if 'A' <= ch <= 'Z' then (ch as int + 32) as char else ch
  }

  /** `s.toLowerCase()`, restricted to ASCII letters. */
  function Lower(s: string): (r: string)
    ensures |r| == |s|
    ensures forall i :: 0 <= i < |r| ==> !('A' <= r[i] <= 'Z')
    ensures forall i :: 0 <= i < |s| && !('A' <= s[i] <= 'Z') ==> r[i] == s[i]
    ensures forall i :: 0 <= i < |s| && 'A' <= s[i] <= 'Z' ==>
      'a' <= r[i] <= 'z' && r[i] as int - 'a' as int == s[i] as int - 'A' as int
  {
    seq(|s|, i requires 0 <= i < |s| => LowerChar(s[i]))
  }

  /** Lower-casing twice is lower-casing once. */
  lemma LowerIdempotent(s: string)
    ensures Lower(Lower(s)) == Lower(s)
  {
  }
}
