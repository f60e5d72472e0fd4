/** What the client live query (`liveQuery` in client/moonridge-model.js)
    does to its local result when the server pushes a delta, stated on
    values: the `docs` array and the `count` together form a `View`. The
    class `ClientModel.LiveQuery` runs these edits in place, with the
    source's search loops, and is proved to agree with the functions here;
    the lemmas state what the edits mean. */
module LiveQuerySync {
  import opened Shared

  /** The `isInResult` argument of an update push: a boolean membership
      flag, a number (the new sorted position), any other truthy value (a
      string or an object), or any other falsy value (absent, `null`, `''`). */
  datatype Signal = Flag(b: bool) | Position(n: int) | OtherTruthy | Absent

  /** One push from the server, as routed to `on_create`, `on_push`,
      `on_update` or `on_remove`. */
  datatype Delta =
    | Create(doc: Doc, index: Option<int>)
    | Push(doc: Doc, index: Option<int>)
    | Update(doc: Doc, signal: Signal)
    | Remove(id: Id)

  /** The part of `indexedByMethods` the reconciler reads: whether the
      query has `count` and `sort` steps, and its `limit` if any. */
  datatype Shape = Shape(count: bool, sort: bool, limit: Option<int>)

  /** The local result of a live query. */
  datatype View = View(docs: seq<Doc>, count: int)

  /** What the server's `liveQuery` call resolves with: a count, or documents. */
  datatype InitialResult = CountResult(n: int) | DocsResult(docs: seq<Doc>)

  /** JavaScript truthiness of the membership signal. */
  predicate Truthy(s: Signal)
  {
    match s
    case Flag(b) => b
    case Position(n) => n != 0
    case OtherTruthy => true
    case Absent => false
  }

  /** The index the search loop `while (i--)` stops at: the last document
      with that `_id`, or -1. */
  function FindLast(docs: seq<Doc>, id: Id): (r: int)
    ensures -1 <= r < |docs|
    ensures r >= 0 ==> docs[r].id == id && forall k :: r < k < |docs| ==> docs[k].id != id
    ensures r == -1 ==> forall k :: 0 <= k < |docs| ==> docs[k].id != id
    decreases |docs|
  {
    if |docs| == 0 then -1
    else if docs[|docs| - 1].id == id then |docs| - 1
    else FindLast(docs[..|docs| - 1], id)
  }

  /** Insert at a numeric index, or append (`splice(index, 0, doc)` / `push(doc)`). */
  function Place(docs: seq<Doc>, index: Option<int>, doc: Doc): seq<Doc>
  {
    match index
    case Some(p) => InsertAt(docs, p, doc)
    case None => docs + [doc]
  }

  /** The position `Place` puts the new document at. */
  function PlacedAt(docs: seq<Doc>, index: Option<int>): nat
  {
    match index
    case Some(p) => SpliceStart(|docs|, p)
    case None => |docs|
  }

  /** `on_create` / `on_push`. */
  function Created(v: View, shape: Shape, doc: Doc, index: Option<int>): View
  {
    if shape.count then View(v.docs, v.count + 1)
    else
      var placed := Place(v.docs, index, doc);
      var kept := if shape.limit.Some? && shape.limit.value < |placed| then placed[..|placed| - 1] else placed;
      View(kept, |kept|)
  }

  /** The change a membership signal makes to a count query. */
  function CountStep(s: Signal): int
  {
    match s
    case Position(_) => 1
    case Flag(b) => if b then 1 else -1
    case OtherTruthy => 0
    case Absent => 0
  }

  /** `on_update`. */
  function Updated(v: View, shape: Shape, doc: Doc, s: Signal): View
  {
    if shape.count then View(v.docs, v.count + CountStep(s))
    else
      var i := FindLast(v.docs, doc.id);
      if i >= 0 then
        if s == Flag(false) then View(RemoveAt(v.docs, i), v.count)
        else if s.Position? && s.n != i then
          var rest := RemoveAt(v.docs, i);
          View(if i < s.n then InsertAt(rest, s.n - 1, doc) else InsertAt(rest, s.n, doc), v.count)
        else View(v.docs[i := Extend(v.docs[i], doc)], v.count)
      else if Truthy(s) then
        View(Place(v.docs, if s.Position? then Some(s.n) else None, doc), v.count)
      else View(v.docs, |v.docs|)
  }

  /** `on_remove`: the new view and whether a document was removed. */
  function Removed(v: View, shape: Shape, id: Id): (View, bool)
  {
    if shape.count then (View(v.docs, v.count - 1), true)
    else
      var i := FindLast(v.docs, id);
      if i >= 0 then (View(RemoveAt(v.docs, i), v.count - 1), true)
      else (v, false)
  }

  /** One delta applied. */
  function Apply(v: View, shape: Shape, d: Delta): View
  {
    match d
    case Create(doc, index) => Created(v, shape, doc, index)
    case Push(doc, index) => Created(v, shape, doc, index)
    case Update(doc, s) => Updated(v, shape, doc, s)
    case Remove(id) => Removed(v, shape, id).0
  }

  /** Deltas applied in the order they arrived. */
  function ApplyAll(v: View, shape: Shape, ds: seq<Delta>): View
    decreases |ds|
  {
    if |ds| == 0 then v else ApplyAll(Apply(v, shape, ds[0]), shape, ds[1..])
  }

  /** The population step: `count +=` the initial count, or `count +=` the
      number of initial documents, which overwrite `docs` position by position. */
  function Populated(v: View, res: InitialResult): View
  {
    match res
    case CountResult(n) => View(v.docs, v.count + n)
    case DocsResult(ds) => View(Overlay(v.docs, ds), v.count + |ds|)
  }

  /** No two documents share an `_id`. */
  predicate UniqueIds(docs: seq<Doc>)
  {
    forall j, k :: 0 <= j < k < |docs| ==> docs[j].id != docs[k].id
  }

  /** Some document has this `_id`. */
  predicate HasId(docs: seq<Doc>, id: Id)
  {
    exists k :: 0 <= k < |docs| && docs[k].id == id
  }

  // ---------------------------------------------------------------------
  // Count queries
  // ---------------------------------------------------------------------

  /** The change a delta makes to a count query: creates and pushes +1,
      removes -1, updates by their signal. */
  function CountEffect(d: Delta): int
  {
    match d
    case Create(_, _) => 1
    case Push(_, _) => 1
    case Update(_, s) => CountStep(s)
    case Remove(_) => -1
  }

  function NetCount(ds: seq<Delta>): int
    decreases |ds|
  {
    if |ds| == 0 then 0 else CountEffect(ds[0]) + NetCount(ds[1..])
  }

  /** On a count query the deltas leave `docs` alone and move `count` by
      their net effect. */
  lemma {:induction false} CountQueryDeltas(v: View, shape: Shape, ds: seq<Delta>)
    requires shape.count
    ensures ApplyAll(v, shape, ds) == View(v.docs, v.count + NetCount(ds))
    decreases |ds|
  {
    if |ds| > 0 {
      CountQueryDeltas(Apply(v, shape, ds[0]), shape, ds[1..]);
    }
  }

  /** Count additivity: because population adds to `count` instead of
      assigning it, applying the initial count before or after any deltas
      gives the same result. */
  lemma CountPopulationCommutes(v: View, shape: Shape, n: int, ds: seq<Delta>)
    requires shape.count
    ensures ApplyAll(Populated(v, CountResult(n)), shape, ds) == Populated(ApplyAll(v, shape, ds), CountResult(n))
    ensures ApplyAll(Populated(v, CountResult(n)), shape, ds).count == v.count + n + NetCount(ds)
  {
    CountQueryDeltas(v, shape, ds);
    CountQueryDeltas(Populated(v, CountResult(n)), shape, ds);
  }

  // ---------------------------------------------------------------------
  // Document queries: create / push
  // ---------------------------------------------------------------------

  /** `on_create` on a document query inserts at the clamped index (or
      appends), drops the last element once the result exceeds `limit`, and
      recounts: the new `docs` is the insertion cut to at most one element
      shorter, and `count` is its length. */
  lemma CreatedInserts(v: View, shape: Shape, doc: Doc, index: Option<int>)
    requires !shape.count
    ensures var r := Created(v, shape, doc, index);
      var p := PlacedAt(v.docs, index);
      && r.count == |r.docs|
      && |r.docs| == (if shape.limit.Some? && shape.limit.value < |v.docs| + 1 then |v.docs| else |v.docs| + 1)
      && r.docs == (v.docs[..p] + [doc] + v.docs[p..])[..|r.docs|]
  {
    var p := PlacedAt(v.docs, index);
    var placed := Place(v.docs, index, doc);
    assert placed == v.docs[..p] + [doc] + v.docs[p..] by {
      if index.None? { assert v.docs[..p] == v.docs && v.docs[p..] == []; }
    }
  }

  /** A result that fits its `limit` still fits it after a create. */
  lemma CreatedKeepsLimit(v: View, shape: Shape, doc: Doc, index: Option<int>)
    requires !shape.count && shape.limit.Some? && |v.docs| <= shape.limit.value
    ensures |Created(v, shape, doc, index).docs| <= shape.limit.value
  {
    CreatedInserts(v, shape, doc, index);
  }

  /** With a full result of `limit` documents, a sorted insert at a position
      inside the result evicts the lowest-ranked previous element. */
  lemma SortedInsertEvicts(v: View, shape: Shape, doc: Doc, p: nat)
    requires !shape.count && shape.limit == Some(|v.docs|) && p < |v.docs|
    ensures Created(v, shape, doc, Some(p)).docs == v.docs[..p] + [doc] + v.docs[p..|v.docs| - 1]
  {
    CreatedInserts(v, shape, doc, Some(p));
    var ins := v.docs[..p] + [doc] + v.docs[p..];
    assert ins[..|v.docs|] == v.docs[..p] + [doc] + v.docs[p..|v.docs| - 1];
  }

  // ---------------------------------------------------------------------
  // Document queries: update
  // ---------------------------------------------------------------------

  /** `on_update` on a document that is in the result: a `false` signal
      removes it; a numeric signal other than its index moves the new version
      to `target - 1` (moving down) or `target` (moving up), keeping the
      length; any other signal merges the fields in place. `count` is not
      touched in any of these cases. */
  lemma UpdateFound(v: View, shape: Shape, doc: Doc, s: Signal)
    requires !shape.count
    requires FindLast(v.docs, doc.id) >= 0
    ensures var i := FindLast(v.docs, doc.id);
      var r := Updated(v, shape, doc, s);
      && r.count == v.count
      && (s == Flag(false) ==> r.docs == RemoveAt(v.docs, i))
      && (s.Position? && s.n != i ==>
            && |r.docs| == |v.docs|
            && r.docs[SpliceStart(|v.docs| - 1, if i < s.n then s.n - 1 else s.n)] == doc
            && multiset(r.docs) == multiset(v.docs) - multiset{v.docs[i]} + multiset{doc})
      && (s != Flag(false) && !(s.Position? && s.n != i) ==>
            && |r.docs| == |v.docs|
            && r.docs[i] == Extend(v.docs[i], doc)
            && forall k :: 0 <= k < |v.docs| && k != i ==> r.docs[k] == v.docs[k])
  {
  }

  /** `on_update` on a document that is not in the result: a truthy signal
      inserts it (at the numeric position, or at the end); a falsy one,
      including position 0, leaves `docs` alone and only recounts. */
  lemma UpdateMissing(v: View, shape: Shape, doc: Doc, s: Signal)
    requires !shape.count
    requires FindLast(v.docs, doc.id) == -1
    ensures var r := Updated(v, shape, doc, s);
      && (Truthy(s) ==>
            && r.count == v.count
            && multiset(r.docs) == multiset(v.docs) + multiset{doc}
            && r.docs[PlacedAt(v.docs, if s.Position? then Some(s.n) else None)] == doc)
      && (!Truthy(s) ==> r == View(v.docs, |v.docs|))
  {
  }

  lemma RemoveAtUnique(s: seq<Doc>, i: nat)
    requires i < |s| && UniqueIds(s)
    ensures UniqueIds(RemoveAt(s, i))
    ensures !HasId(RemoveAt(s, i), s[i].id)
  {
    var r := RemoveAt(s, i);
    forall j, k | 0 <= j < k < |r| ensures r[j].id != r[k].id {
      var j' := if j < i then j else j + 1;
      var k' := if k < i then k else k + 1;
      assert r[j] == s[j'] && r[k] == s[k'];
    }
    forall k | 0 <= k < |r| ensures r[k].id != s[i].id {
      var k' := if k < i then k else k + 1;
      assert r[k] == s[k'];
    }
  }

  lemma InsertAtUnique(s: seq<Doc>, start: int, x: Doc)
    requires UniqueIds(s) && !HasId(s, x.id)
    ensures UniqueIds(InsertAt(s, start, x))
    ensures HasId(InsertAt(s, start, x), x.id)
  {
    var r := InsertAt(s, start, x);
    var p := SpliceStart(|s|, start);
    forall j, k | 0 <= j < k < |r| ensures r[j].id != r[k].id {
      if j != p && k != p {
        var j' := if j < p then j else j - 1;
        var k' := if k < p then k else k - 1;
        assert r[j] == s[j'] && r[k] == s[k'];
      } else if j == p {
        assert r[k] == s[k - 1];
      } else {
        assert r[j] == s[j];
      }
    }
    assert r[p] == x;
  }

  /** With unique `_id`s, `on_update` keeps them unique, and the document is
      in the result afterwards exactly when it was there and the signal is
      not `false`, or it was not there and the signal is truthy. */
  lemma UpdateMembership(v: View, shape: Shape, doc: Doc, s: Signal)
    requires !shape.count && UniqueIds(v.docs)
    ensures UniqueIds(Updated(v, shape, doc, s).docs)
    ensures HasId(Updated(v, shape, doc, s).docs, doc.id) <==>
      if HasId(v.docs, doc.id) then s != Flag(false) else Truthy(s)
  {
    var i := FindLast(v.docs, doc.id);
    var r := Updated(v, shape, doc, s).docs;
    if i >= 0 {
      RemoveAtUnique(v.docs, i);
      var rest := RemoveAt(v.docs, i);
      if s == Flag(false) {
      } else if s.Position? && s.n != i {
        InsertAtUnique(rest, if i < s.n then s.n - 1 else s.n, doc);
      } else {
        forall j, k | 0 <= j < k < |r| ensures r[j].id != r[k].id {
          assert r[j].id == v.docs[j].id && r[k].id == v.docs[k].id;
        }
        assert r[i].id == doc.id;
      }
    } else {
      if Truthy(s) {
        if s.Position? {
          InsertAtUnique(v.docs, s.n, doc);
        } else {
          InsertAtUnique(v.docs, |v.docs|, doc);
          assert InsertAt(v.docs, |v.docs|, doc) == v.docs + [doc];
        }
      }
    }
  }

  // ---------------------------------------------------------------------
  // Document queries: remove
  // ---------------------------------------------------------------------

  /** `on_remove` deletes the last document with the `_id` and decrements
      `count`, returning true; when no document has it, nothing changes and
      it returns false. A count query always decrements. */
  lemma RemovedSpec(v: View, shape: Shape, id: Id)
    ensures shape.count ==> Removed(v, shape, id) == (View(v.docs, v.count - 1), true)
    ensures !shape.count ==> (Removed(v, shape, id).1 <==> HasId(v.docs, id))
    ensures !shape.count && HasId(v.docs, id) ==>
      && Removed(v, shape, id).0.count == v.count - 1
      && Removed(v, shape, id).0.docs == RemoveAt(v.docs, FindLast(v.docs, id))
    ensures !shape.count && !HasId(v.docs, id) ==> Removed(v, shape, id).0 == v
  {
  }

  /** With unique `_id`s, a removed document is gone and the rest stay unique. */
  lemma RemovedUnique(v: View, shape: Shape, id: Id)
    requires !shape.count && UniqueIds(v.docs)
    ensures UniqueIds(Removed(v, shape, id).0.docs)
    ensures !HasId(Removed(v, shape, id).0.docs, id)
  {
    var i := FindLast(v.docs, id);
    if i >= 0 {
      RemoveAtUnique(v.docs, i);
    }
  }

  // ---------------------------------------------------------------------
  // Population and ordering
  // ---------------------------------------------------------------------

  /** Deltas compose in arrival order: applying a queue and then more
      deltas is applying the whole sequence. */
  lemma {:induction false} ApplyAllConcat(v: View, shape: Shape, a: seq<Delta>, b: seq<Delta>)
    ensures ApplyAll(v, shape, a + b) == ApplyAll(ApplyAll(v, shape, a), shape, b)
    decreases |a|
  {
    if |a| == 0 {
      assert a + b == b;
    } else {
      assert (a + b)[0] == a[0];
      assert (a + b)[1..] == a[1..] + b;
      ApplyAllConcat(Apply(v, shape, a[0]), shape, a[1..], b);
    }
  }

  /** The first population of a fresh live query (`docs = []`, `count = 0`)
      yields exactly the initial result. */
  lemma FirstPopulation(res: InitialResult)
    ensures res.DocsResult? ==> Populated(View([], 0), res) == View(res.docs, |res.docs|)
    ensures res.CountResult? ==> Populated(View([], 0), res) == View([], res.n)
  {
  }

  /** The count example: an initial count of 5, with two creates and one
      remove queued during population, ends at 6. */
  lemma CountAdditivityExample(shape: Shape, d1: Doc, d2: Doc, id: Id)
    requires shape.count
    ensures ApplyAll(Populated(View([], 0), CountResult(5)), shape,
                     [Create(d1, None), Create(d2, None), Remove(id)]).count == 6
  {
    var ds := [Create(d1, None), Create(d2, None), Remove(id)];
    CountPopulationCommutes(View([], 0), shape, 5, ds);
    assert NetCount(ds) == 1 by {
      assert ds[1..] == [Create(d2, None), Remove(id)];
      assert ds[1..][1..] == [Remove(id)];
      assert NetCount([Remove(id)]) == -1 by {
        assert [Remove(id)][1..] == [];
      }
    }
  }

  /** On a document query a `false` update removes the document but,
      because the handler returns before recounting, `count` keeps its old
      value: docs `[d1, d2]` with count 2 become `[d2]` with count 2. */
  lemma UpdateLeavesCountStale(shape: Shape, d1: Doc, d2: Doc)
    requires !shape.count && d1.id != d2.id
    ensures Updated(View([d1, d2], 2), shape, d1, Flag(false)) == View([d2], 2)
  {
    assert FindLast([d1, d2], d1.id) == 0 by {
      assert [d1, d2][..1] == [d1];
    }
  }
}
