/** Values shared by the client and the server side of the live-query model:
    an optional value, documents, and the two JavaScript array edits the
    source relies on (`splice` with a clamped start, and the positional
    overwrite `a[i] = b[i]`). */
module Shared {

  datatype Option<T> = None | Some(value: T)

  /** A document `_id`. */
  type Id = string

  /** A document: its `_id` and its other fields. */
  datatype Doc = Doc(id: Id, fields: map<string, string>)

  /** `angular.extend(target, source)`: every field of `source` is copied onto
      `target`; fields only `target` has are kept. */
  function Extend(target: Doc, source: Doc): (r: Doc)
    ensures r.id == source.id
    ensures r.fields.Keys == target.fields.Keys + source.fields.Keys
    ensures forall f :: f in source.fields ==> r.fields[f] == source.fields[f]
    ensures forall f :: f in target.fields && f !in source.fields ==> r.fields[f] == target.fields[f]
  {
    Doc(source.id, target.fields + source.fields)
  }

  /** The position `Array.prototype.splice(start, ...)` works at on an array of
      length `len`: a negative start counts from the end, and the result is
      clamped to `0..len`. */
  function SpliceStart(len: nat, start: int): (p: nat)
    ensures p <= len
    ensures 0 <= start <= len ==> p == start
  {
    if start < 0 then (if len + start < 0 then 0 else len + start)
    else if start > len then len
    else start
  }

  /** `s.splice(start, 0, x)`: insert `x` before the element at the clamped start. */
  function InsertAt<T>(s: seq<T>, start: int, x: T): (r: seq<T>)
    ensures |r| == |s| + 1
    ensures r[SpliceStart(|s|, start)] == x
    ensures r[..SpliceStart(|s|, start)] == s[..SpliceStart(|s|, start)]
    ensures r[SpliceStart(|s|, start) + 1..] == s[SpliceStart(|s|, start)..]
    ensures forall k :: 0 <= k < |r| ==>
      r[k] == if k < SpliceStart(|s|, start) then s[k] else if k == SpliceStart(|s|, start) then x else s[k - 1]
    ensures multiset(r) == multiset(s) + multiset{x}
  {
    var p := SpliceStart(|s|, start);
    assert s == s[..p] + s[p..];
    s[..p] + [x] + s[p..]
  }

  /** `s.splice(i, 1)` for an index inside the array. */
  function RemoveAt<T>(s: seq<T>, i: nat): (r: seq<T>)
    requires i < |s|
    ensures |r| == |s| - 1
    ensures r[..i] == s[..i] && r[i..] == s[i + 1..]
    ensures forall k :: 0 <= k < |r| ==> r[k] == if k < i then s[k] else s[k + 1]
    ensures multiset(r) == multiset(s) - multiset{s[i]}
  {
    assert s == s[..i] + [s[i]] + s[i + 1..];
    s[..i] + s[i + 1..]
  }

  /** The array left by `while (i--) a[i] = b[i]` with `i` starting at `|b|`:
      the first `|b|` positions hold `b`, any longer tail of `a` stays. */
  function Overlay<T>(a: seq<T>, b: seq<T>): (r: seq<T>)
    ensures |r| == if |a| > |b| then |a| else |b|
    ensures forall k :: 0 <= k < |b| ==> r[k] == b[k]
    ensures forall k :: |b| <= k < |a| ==> r[k] == a[k]
  {
    if |a| > |b| then b + a[|b|..] else b
  }

  /** The positional overwrite as the source runs it, from the last index down. */
  method OverlayInPlace<T>(a: seq<T>, b: seq<T>) returns (r: seq<T>)
    ensures r == Overlay(a, b)
  {
    var i := |b|;
    r := if |a| > |b| then a[|b|..] else [];
    while i > 0
      invariant 0 <= i <= |b|
      invariant r == b[i..] + (if |a| > |b| then a[|b|..] else [])
    {
      i := i - 1;
      r := [b[i]] + r;
    }
  }
}
