/** JavaScript values and the few built-in operations the client relies on:
    truthiness, `||`, `String(undefined)`, `String.prototype.split` with a
    one-character separator, array indexing and JSON values. */
module Js {

  /** A value that may be `null` or `undefined` (None) or present (Some). */
  datatype Option<+T> = None | Some(value: T)

  /** The truthiness of a value that is a string, `null` or `undefined`:
      only a present, non-empty string is truthy. */
  predicate Truthy(v: Option<string>)
  {
    v.Some? && v.value != ""
  }

  /** `a || b` where both operands may be missing. */
  function Or(a: Option<string>, b: Option<string>): Option<string>
  {
    if Truthy(a) then a else b
  }

  /** `a || b` where `b` is a string literal. */
  function OrElse(a: Option<string>, b: string): string
  {
    if Truthy(a) then a.value else b
  }

  /** `String(v)`: what `localStorage.setItem` stores; `undefined` becomes the text "undefined". */
  function StringOf(v: Option<string>): string
  {
    if v.Some? then v.value else "undefined"
  }

  /** `xs[i]`, which is `undefined` past the end of the array. */
  function At<T>(xs: seq<T>, i: nat): Option<T>
  {
    if i < |xs| then Some(xs[i]) else None
  }

  /** `parts.join(sep)`. */
  function Join(parts: seq<string>, sep: char): string
    decreases |parts|
  {
    if parts == [] then ""
    else if |parts| == 1 then parts[0]
    else parts[0] + [sep] + Join(parts[1..], sep)
  }

  /** `s.split(sep)` for a one-character separator: the maximal pieces of `s`
      between occurrences of `sep`, so the empty string splits into `[""]`. */
  function Split(s: string, sep: char): (parts: seq<string>)
    ensures |parts| >= 1
    ensures forall i :: 0 <= i < |parts| ==> sep !in parts[i]
    ensures (|parts| == 1) == (sep !in s)
    ensures Join(parts, sep) == s
    decreases |s|
  {
    if s == [] then [""]
    else
      var rest := Split(s[1..], sep);
      if s[0] == sep then
        assert ([""] + rest)[1..] == rest;
        [""] + rest
      else
        var parts := [[s[0]] + rest[0]] + rest[1..];
        assert parts[1..] == rest[1..];
        assert s == [s[0]] + s[1..];
        parts
  }

  /** Splitting a piece free of the separator gives that piece alone. */
  lemma {:induction false} SplitPiece(a: string, sep: char)
    requires sep !in a
    ensures Split(a, sep) == [a]
    decreases |a|
  {
    if a != [] {
      assert sep !in a[1..];
      SplitPiece(a[1..], sep);
      assert [a[0]] + a[1..] == a;
    }
  }

  /** Splitting a text that starts with a separator-free piece and a separator. */
  lemma {:induction false} SplitAfterPiece(a: string, sep: char, b: string)
    requires sep !in a
    ensures Split(a + [sep] + b, sep) == [a] + Split(b, sep)
    decreases |a|
  {
    var s := a + [sep] + b;
    if a == [] {
      assert s == [sep] + b;
      assert s[1..] == b;
    } else {
      assert s[1..] == a[1..] + [sep] + b;
      assert sep !in a[1..];
      SplitAfterPiece(a[1..], sep, b);
      assert [a[0]] + a[1..] == a;
    }
  }

  /** The other round trip: joining separator-free pieces and splitting the
      result gives the pieces back. */
  lemma {:induction false} SplitJoin(parts: seq<string>, sep: char)
    requires |parts| >= 1
    requires forall i :: 0 <= i < |parts| ==> sep !in parts[i]
    ensures Split(Join(parts, sep), sep) == parts
    decreases |parts|
  {
    if |parts| == 1 {
      SplitPiece(parts[0], sep);
    } else {
      var tail := parts[1..];
      assert forall i :: 0 <= i < |tail| ==> sep !in tail[i] by {
        forall i | 0 <= i < |tail| ensures sep !in tail[i] { assert tail[i] == parts[i + 1]; }
      }
      SplitJoin(tail, sep);
      SplitAfterPiece(parts[0], sep, Join(tail, sep));
      assert [parts[0]] + tail == parts;
    }
  }

  /** The first piece of a split is a prefix of the joined text, and is
      followed there by the separator unless it is the only piece. */
  lemma JoinFirstPiece(parts: seq<string>, sep: char)
    requires |parts| >= 1
    ensures parts[0] <= Join(parts, sep)
    ensures |parts| == 1 ==> Join(parts, sep) == parts[0]
    ensures |parts| > 1 ==> |Join(parts, sep)| > |parts[0]| && Join(parts, sep)[|parts[0]|] == sep
  {
    if |parts| > 1 {
      var j := Join(parts, sep);
      assert j == parts[0] + ([sep] + Join(parts[1..], sep));
    }
  }

  /** A JSON value, as an object body or a scraped payload is serialised. */
  datatype Json =
    | Null
    | Bool(b: bool)
    | Num(n: int)
    | Str(s: string)
    | Arr(items: seq<Json>)
    | Obj(fields: map<string, Json>)
}
