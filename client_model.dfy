/** The client side of a live query (client/moonridge-model.js): the
    per-model tables of live queries, and each live query's local result,
    promise-ordered delta handling and listener registry. The delta
    handlers edit `docs` and `count` in place with the source's search
    loops and are proved to agree with the value-level functions of
    `LiveQuerySync`. */
module ClientModel {
  import opened Shared
  import opened LiveQuerySync

  // ---------------------------------------------------------------------
  // Listener registry (`on`, `off`, `_invokeListeners`)
  // ---------------------------------------------------------------------

  /** The keys of `eventListeners`. */
  datatype EventName = UpdateEv | RemoveEv | CreateEv | PushEv | InitEv | AnyEv

  /** A registered callback, identified by value. */
  type Callback = nat

  /** A listener array: `None` is a slot emptied by `off` (`delete` leaves a hole). */
  type SlotList = seq<Option<Callback>>

  /** The `eventListeners` object: one listener array per event name. */
  datatype Slots = Slots(update: SlotList, remove: SlotList, create: SlotList,
                         push: SlotList, init: SlotList, any: SlotList)

  const NoListeners := Slots([], [], [], [], [], [])

  function SlotsOf(s: Slots, e: EventName): SlotList
  {
    match e
    case UpdateEv => s.update
    case RemoveEv => s.remove
    case CreateEv => s.create
    case PushEv => s.push
    case InitEv => s.init
    case AnyEv => s.any
  }

  function WithSlots(s: Slots, e: EventName, l: SlotList): (r: Slots)
    ensures SlotsOf(r, e) == l
    ensures forall f :: f != e ==> SlotsOf(r, f) == SlotsOf(s, f)
  {
    match e
    case UpdateEv => s.(update := l)
    case RemoveEv => s.(remove := l)
    case CreateEv => s.(create := l)
    case PushEv => s.(push := l)
    case InitEv => s.(init := l)
    case AnyEv => s.(any := l)
  }

  /** `on(evName, callback)`: append, and return the new slot's index. */
  function AddListener(s: Slots, e: EventName, cb: Callback): (r: (Slots, nat))
  {
    (WithSlots(s, e, SlotsOf(s, e) + [Some(cb)]), |SlotsOf(s, e)|)
  }

  /** An occupied slot. */
  predicate Occupied(l: SlotList, id: int)
  {
    0 <= id < |l| && l[id].Some?
  }

  /** `off(evName, evId)`: empty an occupied slot in place and report true;
      otherwise report false and change nothing. */
  function RemoveListener(s: Slots, e: EventName, id: int): (r: (Slots, bool))
  {
    var l := SlotsOf(s, e);
    if Occupied(l, id) then (WithSlots(s, e, l[id := None]), true) else (s, false)
  }

  /** The callbacks still registered in a listener array, in registration order. */
  function Present(l: SlotList): seq<Callback>
    decreases |l|
  {
    if |l| == 0 then []
    else (if l[0].Some? then [l[0].value] else []) + Present(l[1..])
  }

  /** The calls `while(index--)` makes over a listener array once holes are
      skipped: from the last slot down to the first. */
  function Fired(l: SlotList): seq<Callback>
    decreases |l|
  {
    if |l| == 0 then []
    else Fired(l[1..]) + (if l[0].Some? then [l[0].value] else [])
  }

  function Reverse<T>(s: seq<T>): (r: seq<T>)
    ensures |r| == |s|
    ensures forall k :: 0 <= k < |s| ==> r[k] == s[|s| - 1 - k]
    decreases |s|
  {
    if |s| == 0 then [] else Reverse(s[1..]) + [s[0]]
  }

  /** `_invokeListeners(which)` with holes skipped: the `any` listeners first
      (unless `which` is `any` itself), then `which`'s, each last-registered first. */
  function Invoked(s: Slots, which: EventName): seq<Callback>
  {
    (if which != AnyEv then Fired(s.any) else []) + Fired(SlotsOf(s, which))
  }

  /** Listeners run in reverse registration order: the calls are the
      registered callbacks reversed. */
  lemma {:induction false} FiredIsReversedPresent(l: SlotList)
    ensures Fired(l) == Reverse(Present(l))
    decreases |l|
  {
    if |l| > 0 {
      FiredIsReversedPresent(l[1..]);
      ReverseConcat(if l[0].Some? then [l[0].value] else [], Present(l[1..]));
    }
  }

  lemma {:induction false} ReverseConcat<T>(a: seq<T>, b: seq<T>)
    ensures Reverse(a + b) == Reverse(b) + Reverse(a)
  {
    assert |Reverse(a + b)| == |Reverse(b) + Reverse(a)|;
    forall k | 0 <= k < |a + b| ensures Reverse(a + b)[k] == (Reverse(b) + Reverse(a))[k] {
      if k < |b| {
        assert (a + b)[|a + b| - 1 - k] == b[|b| - 1 - k];
      } else {
        assert (a + b)[|a + b| - 1 - k] == a[|a| - 1 - (k - |b|)];
      }
    }
  }

  lemma {:induction false} FiredConcat(a: SlotList, b: SlotList)
    ensures Fired(a + b) == Fired(b) + Fired(a)
    decreases |a|
  {
    if |a| == 0 {
      assert a + b == b;
    } else {
      assert (a + b)[0] == a[0];
      assert (a + b)[1..] == a[1..] + b;
      FiredConcat(a[1..], b);
    }
  }

  /** `on` returns the slot index, and the new callback is the first one
      called for its event; the other events are untouched. */
  lemma OnIsLifo(s: Slots, e: EventName, cb: Callback)
    ensures AddListener(s, e, cb).1 == |SlotsOf(s, e)|
    ensures SlotsOf(AddListener(s, e, cb).0, e)[AddListener(s, e, cb).1] == Some(cb)
    ensures Fired(SlotsOf(AddListener(s, e, cb).0, e)) == [cb] + Fired(SlotsOf(s, e))
    ensures forall f :: f != e ==> SlotsOf(AddListener(s, e, cb).0, f) == SlotsOf(s, f)
  {
    FiredConcat(SlotsOf(s, e), [Some(cb)]);
    assert Fired([Some(cb)]) == [cb] by {
      assert [Some(cb)][1..] == [];
    }
  }

  /** `off` succeeds exactly on an occupied slot; it empties only that slot,
      keeps the array's length so no other id shifts, and a second `off` of
      the same id fails. */
  lemma OffClearsSlot(s: Slots, e: EventName, id: int)
    ensures RemoveListener(s, e, id).1 <==> Occupied(SlotsOf(s, e), id)
    ensures var l' := SlotsOf(RemoveListener(s, e, id).0, e);
      && |l'| == |SlotsOf(s, e)|
      && (forall k :: 0 <= k < |l'| && k != id ==> l'[k] == SlotsOf(s, e)[k])
      && !Occupied(l', id)
    ensures !RemoveListener(RemoveListener(s, e, id).0, e, id).1
    ensures forall f :: f != e ==> SlotsOf(RemoveListener(s, e, id).0, f) == SlotsOf(s, f)
  {
  }

  // --- The listener registry as written ---------------------------------

  /** What a run of `_invokeListeners` did: the callbacks called, and
      whether it ended by throwing. */
  datatype Invocation = Invocation(called: seq<Callback>, threw: bool)

  /** The `while(index--)` loop as written: `eventListeners[which][index].call`
      on a slot that `off` emptied is `undefined.call`, a TypeError that
      ends the loop. */
  function RunAsWritten(l: SlotList): (r: Invocation)
    decreases |l|
  {
    if |l| == 0 then Invocation([], false)
    else if l[|l| - 1].None? then Invocation([], true)
    else
      var rest := RunAsWritten(l[..|l| - 1]);
      Invocation([l[|l| - 1].value] + rest.called, rest.threw)
  }

  /** `_invokeListeners(which)` as written: the `any` run first, and a throw
      there skips `which`'s own listeners. */
  function InvokeAsWritten(s: Slots, which: EventName): Invocation
  {
    if which == AnyEv then RunAsWritten(s.any)
    else
      var a := RunAsWritten(s.any);
      if a.threw then a
      else
        var w := RunAsWritten(SlotsOf(s, which));
        Invocation(a.called + w.called, w.threw)
  }

  predicate NoHoles(l: SlotList)
  {
    forall k :: 0 <= k < |l| ==> l[k].Some?
  }

  /** Without holes the code as written calls exactly the corrected list and
      does not throw; with a hole it throws. */
  lemma {:induction false} RunAsWrittenAgrees(l: SlotList)
    ensures NoHoles(l) ==> RunAsWritten(l) == Invocation(Fired(l), false)
    ensures !NoHoles(l) ==> RunAsWritten(l).threw
    decreases |l|
  {
    if |l| > 0 {
      var p := l[..|l| - 1];
      RunAsWrittenAgrees(p);
      assert l == p + [l[|l| - 1]];
      FiredConcat(p, [l[|l| - 1]]);
      assert [l[|l| - 1]][1..] == [];
      if !NoHoles(l) && l[|l| - 1].Some? {
        var k :| 0 <= k < |l| && l[k].None?;
        assert p[k] == l[k];
      }
    }
  }

  /** The failing input: `on('create', a)`, `on('create', b)`, `off('create', 0)`,
      then a `create` push. As written only `b` is called and the handler
      throws; with holes skipped `b` is called and nothing throws. */
  lemma InvokeAfterOffThrows(a: Callback, b: Callback)
    ensures var s1 := AddListener(NoListeners, CreateEv, a).0;
      var s2 := AddListener(s1, CreateEv, b).0;
      var s3 := RemoveListener(s2, CreateEv, 0);
      && s3.1
      && InvokeAsWritten(s3.0, CreateEv) == Invocation([b], true)
      && Invoked(s3.0, CreateEv) == [b]
  {
    var s1 := AddListener(NoListeners, CreateEv, a).0;
    assert s1 == NoListeners.(create := [Some(a)]);
    var s2 := AddListener(s1, CreateEv, b).0;
    assert s2 == NoListeners.(create := [Some(a), Some(b)]);
    var s3 := RemoveListener(s2, CreateEv, 0);
    var l: SlotList := [None, Some(b)];
    assert Occupied(s2.create, 0);
    assert s2.create[0 := None] == l;
    assert s3 == (NoListeners.(create := l), true);
    assert l[..1] == [None];
    assert RunAsWritten(l[..1]) == Invocation([], true);
    assert RunAsWritten(l) == Invocation([b], true);
    assert l[1..] == [Some(b)];
    assert Fired([Some(b)]) == [b] by {
      assert [Some(b)][1..] == [];
    }
    assert Fired(l) == [b];
  }

  // ---------------------------------------------------------------------
  // Live queries and their model
  // ---------------------------------------------------------------------

  /** One `{mN, args}` step of the serialisable `LQ.query`. */
  datatype Call = Call(mN: string, args: seq<string>)

  /** `JSON.stringify(LQ.query)` is injective on these queries, so the query
      itself serves as its string key. */
  type QueryString = seq<Call>

  /** What `exec()` returns. */
  datatype ExecResult = CountWithSort | Returned(lq: LiveQuery)

  /** The event a delta is routed as (`createLQEventHandler(eventName)`). */
  function EventOf(d: Delta): EventName
  {
    match d
    case Create(_, _) => CreateEv
    case Push(_, _) => PushEv
    case Update(_, _) => UpdateEv
    case Remove(_) => RemoveEv
  }

  /** `_LQs` after `m` more registrations of `lq`, under `last + 1` to `last + m`. */
  function Registered(base: map<nat, LiveQuery>, last: nat, m: nat, lq: LiveQuery): map<nat, LiveQuery>
    decreases m
  {
    if m == 0 then base else Registered(base, last, m - 1, lq)[last + m := lq]
  }

  /** The indices `last + 1` to `last + m` now name `lq`; every other
      entry is kept. */
  lemma {:induction false} RegisteredSpec(base: map<nat, LiveQuery>, last: nat, m: nat, lq: LiveQuery)
    ensures var r := Registered(base, last, m, lq);
      && (forall j :: j in r <==> j in base || last < j <= last + m)
      && (forall j :: last < j <= last + m ==> r[j] == lq)
      && (forall j :: j in base && !(last < j <= last + m) ==> r[j] == base[j])
    decreases m
  {
    if m > 0 {
      RegisteredSpec(base, last, m - 1, lq);
    }
  }

  lemma {:induction false} RegisteredConcat(base: map<nat, LiveQuery>, last: nat, a: nat, b: nat, lq: LiveQuery)
    ensures Registered(Registered(base, last, a, lq), last + a, b, lq) == Registered(base, last, a + b, lq)
    decreases b
  {
    if b > 0 {
      RegisteredConcat(base, last, a, b - 1, lq);
    }
  }

  /** A `Model` created by `getModel`: its live-query tables. */
  class Model {
    var lastIndex: nat
    var lqs: map<nat, LiveQuery>
    var lqsByQuery: map<QueryString, LiveQuery>

    /** Every registered index was handed out by the counter, starting at 1. */
    predicate Valid()
      reads this
    {
      forall k :: k in lqs ==> 1 <= k <= lastIndex
    }

    constructor ()
      ensures Valid()
      ensures lastIndex == 0 && lqs == map[] && lqsByQuery == map[]
    {
      lastIndex := 0;
      lqs := map[];
      lqsByQuery := map[];
    }

    /** `liveQuery(previousLQ)`: stop the previous live query (its throw
        propagates), then make a fresh one with empty `docs` and zero
        `count`, copying the previous query and its methods, or else
        starting from the chained ones. */
    method StartLiveQuery(previous: LiveQuery?, unsubscribed: bool, chained: QueryString, chainedShape: Shape)
      returns (r: LiveQuery?)
      requires Valid()
      requires previous != null ==> previous.model == this
      modifies this, previous
      ensures Valid()
      ensures lastIndex == old(lastIndex)
      ensures previous == null ==> lqs == old(lqs) && lqsByQuery == old(lqsByQuery)
      ensures r == null ==> previous != null
      ensures previous != null && r == null ==> unchanged(this, previous)
      ensures previous != null && r != null ==>
        && previous.stopped && old(previous.index).Some?
        && (unsubscribed ==>
              && lqs == old(lqs) - {old(previous.index).value}
              && lqsByQuery == (if old(previous.queryStringified).Some?
                                then old(lqsByQuery) - {old(previous.queryStringified).value}
                                else old(lqsByQuery)))
        && (!unsubscribed ==> lqs == old(lqs) && lqsByQuery == old(lqsByQuery))
      ensures previous != null && !(old(previous.index).Some? && old(previous.index).value in old(lqs)) ==> r == null
      ensures (previous == null || (old(previous.index).Some? && old(previous.index).value in old(lqs))) ==>
        && r != null && fresh(r) && r.model == this
        && r.docs == [] && r.count == 0 && !r.stopped && r.index == None
        && r.query == (if previous == null then chained else old(previous.query))
        && r.shape == (if previous == null then chainedShape else old(previous.shape))
        && r.listeners == NoListeners && r.pending == [] && !r.populated
    {
      if previous != null {
        var threw := previous.Stop(unsubscribed);
        if threw {
          return null;
        }
        r := new LiveQuery(this, previous.query, previous.shape);
      } else {
        r := new LiveQuery(this, chained, chainedShape);
      }
    }

    /** The registration half of `exec`: `_LQsByQuery[queryStringified] = LQ`,
        then `_LQs[++lastIndex] = LQ`; the new index was never handed out. */
    method Register(lq: LiveQuery, q: QueryString) returns (n: nat)
      requires Valid()
      modifies this
      ensures Valid()
      ensures n == old(lastIndex) + 1 && n !in old(lqs) && lastIndex == n
      ensures lqs == old(lqs)[n := lq] && lqsByQuery == old(lqsByQuery)[q := lq]
    {
      n := lastIndex + 1;
      lqsByQuery := lqsByQuery[q := lq];
      lastIndex := n;
      lqs := lqs[n := lq];
    }

    /** The client RPC methods `update`, `remove`, `create`, `push`: the
        registered live query receives the delta (applied now, or queued
        until its population), and then its listeners are invoked; an
        unknown index only logs an error. */
    method Route(lqId: nat, d: Delta) returns (calls: Option<seq<Callback>>)
      modifies lqs.Values
      ensures lqId !in lqs ==> calls == None && unchanged(lqs.Values)
      ensures lqId in lqs ==>
        var lq := lqs[lqId];
        && unchanged(lqs.Values - {lq})
        && lq.query == old(lq.query) && lq.shape == old(lq.shape) && lq.listeners == old(lq.listeners)
        && lq.stopped == old(lq.stopped) && lq.index == old(lq.index)
        && lq.queryStringified == old(lq.queryStringified) && lq.populated == old(lq.populated)
        && lq.skipSocketEvents == old(lq.skipSocketEvents) && lq.socketHooks == old(lq.socketHooks)
        && calls == Some(Invoked(lq.listeners, EventOf(d)))
        && (old(lq.populated) ==> lq.View() == Apply(old(lq.View()), lq.shape, d) && lq.pending == old(lq.pending))
        && (!old(lq.populated) ==> lq.View() == old(lq.View()) && lq.pending == old(lq.pending) + [d])
    {
      if lqId in lqs {
        var lq := lqs[lqId];
        lq.Deliver(d);
        var c := lq.InvokeListeners(EventOf(d));
        calls := Some(c);
      } else {
        calls := None;
      }
    }
  }

  /** The object `liveQuery()` builds. */
  class LiveQuery {
    const model: Model
    var query: QueryString
    /** `indexedByMethods` as far as the handlers read it. */
    var shape: Shape
    var docs: seq<Doc>
    var count: int
    var stopped: bool
    /** `LQ.index`, numeric once `exec` registered the query. */
    var index: Option<nat>
    var queryStringified: Option<QueryString>
    /** Whether `LQ.promise` has resolved; before that, deltas wait in `pending`. */
    var populated: bool
    var pending: seq<Delta>
    var skipSocketEvents: bool
    /** How many `disconnect` / `reconnect` hook pairs the populations
        registered on the socket: one per population that did not skip them. */
    var socketHooks: nat
    var listeners: Slots

    constructor (m: Model, q: QueryString, sh: Shape)
      ensures model == m && query == q && shape == sh
      ensures docs == [] && count == 0 && !stopped && index == None && queryStringified == None
      ensures !populated && pending == [] && !skipSocketEvents && socketHooks == 0 && listeners == NoListeners
    {
      model := m;
      query := q;
      shape := sh;
      docs := [];
      count := 0;
      stopped := false;
      index := None;
      queryStringified := None;
      populated := false;
      pending := [];
      skipSocketEvents := false;
      socketHooks := 0;
      listeners := NoListeners;
    }

    function View(): View
      reads this
    {
      LiveQuerySync.View(docs, count)
    }

    // --- listeners -----------------------------------------------------

    /** `LQ.on(evName, callback)`. */
    method On(e: EventName, cb: Callback) returns (id: nat)
      modifies this`listeners
      ensures (listeners, id) == AddListener(old(listeners), e, cb)
    {
      id := |SlotsOf(listeners, e)|;
      listeners := WithSlots(listeners, e, SlotsOf(listeners, e) + [Some(cb)]);
    }

    /** `LQ.off(evName, evId)`. */
    method Off(e: EventName, id: int) returns (removed: bool)
      modifies this`listeners
      ensures (listeners, removed) == RemoveListener(old(listeners), e, id)
    {
      var l := SlotsOf(listeners, e);
      if 0 <= id < |l| && l[id].Some? {
        listeners := WithSlots(listeners, e, l[id := None]);
        removed := true;
      } else {
        removed := false;
      }
    }

    /** Runs one listener array from the last slot down, skipping holes. */
    method RunListeners(l: SlotList) returns (calls: seq<Callback>)
      ensures calls == Fired(l)
    {
      var i := |l|;
      calls := [];
      while i > 0
        invariant 0 <= i <= |l|
        invariant calls == Fired(l[i..])
      {
        i := i - 1;
        assert l[i..][1..] == l[i + 1..];
        if l[i].Some? {
          calls := calls + [l[i].value];
        }
      }
      assert l[0..] == l;
    }

    /** `LQ._invokeListeners(which)`, with emptied slots skipped. */
    method InvokeListeners(which: EventName) returns (calls: seq<Callback>)
      ensures calls == Invoked(listeners, which)
      ensures NoHoles(listeners.any) && NoHoles(SlotsOf(listeners, which)) ==>
        InvokeAsWritten(listeners, which) == Invocation(calls, false)
    {
      calls := [];
      if which != AnyEv {
        calls := RunListeners(listeners.any);
      }
      var own := RunListeners(SlotsOf(listeners, which));
      calls := calls + own;
      RunAsWrittenAgrees(listeners.any);
      RunAsWrittenAgrees(SlotsOf(listeners, which));
    }

    // --- reading the result --------------------------------------------

    /** `LQ.getDocById(id)`: the last document with that `_id`, or null. */
    method GetDocById(id: Id) returns (r: Option<Doc>)
      ensures r.None? <==> !HasId(docs, id)
      ensures r.Some? ==> r.value.id == id && r == Some(docs[FindLast(docs, id)])
    {
      var i := |docs|;
      while i > 0
        invariant 0 <= i <= |docs|
        invariant forall k :: i <= k < |docs| ==> docs[k].id != id
      {
        i := i - 1;
        if docs[i].id == id {
          return Some(docs[i]);
        }
      }
      return None;
    }

    /** `recountIfNormalQuery`. */
    method RecountIfNormalQuery()
      modifies this`count
      ensures count == if shape.count then old(count) else |docs|
    {
      if !shape.count {
        count := |docs|;
      }
    }

    // --- delta handlers --------------------------------------------------

    /** The body of `on_create` / `on_push`. */
    method OnCreate(doc: Doc, at: Option<int>)
      modifies this`docs, this`count
      ensures View() == Created(old(View()), shape, doc, at)
    {
      if shape.count {
        count := count + 1;
        return;
      }
      // `splice(index, 0, doc)` for a numeric index, `push` otherwise.
      var placed := Place(docs, at, doc);
      var kept := placed;
      if shape.limit.Some? && shape.limit.value < |placed| {
        // `splice(docs.length - 1, 1)`: drop the last document
        kept := placed[..|placed| - 1];
      }
      docs := kept;
      RecountIfNormalQuery();
    }

    /** The body of `on_update`: its `while(i--)` search, then the remove,
        move, merge or insert. */
    method OnUpdate(doc: Doc, s: Signal)
      modifies this`docs, this`count
      ensures View() == Updated(old(View()), shape, doc, s)
    {
      if shape.count {
        UpdateCount(s);
        return;
      }
      var i := |docs|;
      while i > 0
        invariant 0 <= i <= |docs|
        invariant forall k :: i <= k < |docs| ==> docs[k].id != doc.id
      {
        i := i - 1;
        if docs[i].id == doc.id {
          assert i == FindLast(docs, doc.id);
          if s == Flag(false) {
            docs := RemoveAt(docs, i);
            return;
          } else if s.Position? {
            if s.n != i {
              if i < s.n {
                docs := RemoveAt(docs, i);
                docs := InsertAt(docs, s.n - 1, doc);
              } else {
                docs := RemoveAt(docs, i);
                docs := InsertAt(docs, s.n, doc);
              }
            } else {
              docs := docs[i := Extend(docs[i], doc)];
            }
          } else {
            docs := docs[i := Extend(docs[i], doc)];
          }
          return;
        }
      }
      assert FindLast(docs, doc.id) == -1;
      if Truthy(s) {
        if s.Position? {
          docs := InsertAt(docs, s.n, doc);
        } else {
          docs := docs + [doc];
        }
        return;
      }
      RecountIfNormalQuery();
    }

    /** The count-query branch of `on_update`: a number or `true` counts
        the document in, `false` counts it out, anything else is ignored. */
    method UpdateCount(s: Signal)
      modifies this`count
      ensures count == old(count) + CountStep(s)
    {
      if s.Position? {
        count := count + 1;
      } else {
        if s == Flag(false) {
          count := count - 1;
        }
        if s == Flag(true) {
          count := count + 1;
        }
      }
    }

    /** The body of `on_remove`: true when it removed a document. */
    method OnRemove(id: Id) returns (removed: bool)
      modifies this`docs, this`count
      ensures (View(), removed) == Removed(old(View()), shape, id)
    {
      if shape.count {
        count := count - 1;
        return true;
      }
      var i := |docs|;
      while i > 0
        invariant 0 <= i <= |docs|
        invariant forall k :: i <= k < |docs| ==> docs[k].id != id
      {
        i := i - 1;
        if docs[i].id == id {
          assert i == FindLast(docs, id);
          docs := RemoveAt(docs, i);
          count := count - 1;
          return true;
        }
      }
      return false;
    }

    /** One delta, dispatched to its handler. */
    method ApplyDelta(d: Delta)
      modifies this`docs, this`count
      ensures View() == Apply(old(View()), shape, d)
    {
      match d {
        case Create(doc, at) => OnCreate(doc, at);
        case Push(doc, at) => OnCreate(doc, at);
        case Update(doc, s) => OnUpdate(doc, s);
        case Remove(id) => var _ := OnRemove(id);
      }
    }

    /** `on_*` as called by the router: the handler is chained on
        `LQ.promise`, so before population it waits in the queue. */
    method Deliver(d: Delta)
      modifies this`docs, this`count, this`pending
      ensures populated ==> View() == Apply(old(View()), shape, d) && pending == old(pending)
      ensures !populated ==> View() == old(View()) && pending == old(pending) + [d]
    {
      if populated {
        ApplyDelta(d);
      } else {
        pending := pending + [d];
      }
    }

    // --- lifecycle -----------------------------------------------------

    /** `queryExecFn(skipSocketEvents)`: refuse `count` with `sort`; reuse a
        running live query with the same query; otherwise register this one
        under the next index and under its query, and wait for population. */
    method Exec(skip: bool) returns (r: ExecResult)
      requires model.Valid()
      modifies this, model
      ensures model.Valid()
      ensures old(shape.count && shape.sort) ==> r == CountWithSort && unchanged(this, model)
      ensures !old(shape.count && shape.sort) ==> queryStringified == Some(query)
      ensures !old(shape.count && shape.sort) && old(query in model.lqsByQuery && !model.lqsByQuery[query].stopped) ==>
        r == Returned(old(model.lqsByQuery[query])) && unchanged(model)
        && index == old(index) && populated == old(populated) && skipSocketEvents == old(skipSocketEvents)
      ensures !old(shape.count && shape.sort) && !old(query in model.lqsByQuery && !model.lqsByQuery[query].stopped) ==>
        && r == Returned(this)
        && model.lastIndex == old(model.lastIndex) + 1
        && old(model.lastIndex) + 1 !in old(model.lqs)
        && index == Some(model.lastIndex)
        && model.lqs == old(model.lqs)[model.lastIndex := this]
        && model.lqsByQuery == old(model.lqsByQuery)[query := this]
        && !populated && skipSocketEvents == skip
      ensures query == old(query) && shape == old(shape) && docs == old(docs) && count == old(count)
      ensures stopped == old(stopped) && pending == old(pending) && listeners == old(listeners)
      ensures socketHooks == old(socketHooks)
    {
      if shape.count && shape.sort {
        return CountWithSort;
      }
      queryStringified := Some(query);
      if query in model.lqsByQuery && !model.lqsByQuery[query].stopped {
        return Returned(model.lqsByQuery[query]);
      }
      var n := model.Register(this, query);
      index := Some(n);
      populated := false;
      skipSocketEvents := skip;
      return Returned(this);
    }

    /** The resolution of `model.rpc.liveQuery`: add the initial count, or
        add the number of initial documents and overwrite `docs` position by
        position; fire the `init` listeners; register one more pair of
        socket hooks (or, on a re-execution, clear `stopped`); then run the
        queued deltas in arrival order. */
    method Populate(res: InitialResult) returns (initCalls: seq<Callback>)
      modifies this
      ensures populated && pending == []
      ensures View() == ApplyAll(Populated(old(View()), res), shape, old(pending))
      ensures initCalls == Invoked(listeners, InitEv)
      ensures old(skipSocketEvents) ==> socketHooks == old(socketHooks) && !stopped
      ensures !old(skipSocketEvents) ==> socketHooks == old(socketHooks) + 1 && stopped == old(stopped)
      ensures query == old(query) && shape == old(shape) && index == old(index) && listeners == old(listeners)
      ensures queryStringified == old(queryStringified) && skipSocketEvents == old(skipSocketEvents)
    {
      Seed(res);
      initCalls := InvokeListeners(InitEv);
      if !skipSocketEvents {
        socketHooks := socketHooks + 1;
      } else {
        stopped := false;
      }
      populated := true;
      Drain();
    }

    /** The first `then` of `LQ.promise`: the additive population step. */
    method Seed(res: InitialResult)
      modifies this`docs, this`count
      ensures View() == Populated(old(View()), res)
    {
      match res {
        case CountResult(n) =>
          count := count + n;
        case DocsResult(ds) =>
          count := count + |ds|;
          docs := OverlayInPlace(docs, ds);
      }
    }

    /** The handlers chained on `LQ.promise` while it was pending, run in the
        order they were chained. */
    method Drain()
      modifies this`docs, this`count, this`pending
      ensures pending == []
      ensures View() == ApplyAll(old(View()), shape, old(pending))
    {
      var queued := pending;
      var start := View();
      var i := 0;
      while i < |queued|
        invariant 0 <= i <= |queued|
        invariant View() == ApplyAll(start, shape, queued[..i])
      {
        ApplyAllConcat(start, shape, queued[..i], [queued[i]]);
        assert queued[..i + 1] == queued[..i] + [queued[i]];
        assert [queued[i]][1..] == [];
        ApplyDelta(queued[i]);
        i := i + 1;
      }
      assert queued[..i] == queued;
      pending := [];
    }

    /** `LQ.stop()`: throw unless registered under a numeric index; mark it
        stopped; once the server confirms the unsubscription, empty the result
        and delete both table entries. */
    method Stop(unsubscribed: bool) returns (threw: bool)
      modifies this`stopped, this`docs, this`count, model`lqs, model`lqsByQuery
      ensures threw <==> !(old(index).Some? && old(index).value in old(model.lqs))
      ensures threw ==> unchanged(this) && unchanged(model)
      ensures !threw ==> stopped
      ensures !threw && unsubscribed ==>
        && (shape.count ==> count == 0 && docs == old(docs))
        && (!shape.count ==> docs == [] && count == old(count))
        && model.lqs == old(model.lqs) - {index.value}
        && model.lqsByQuery == (if queryStringified.Some? then old(model.lqsByQuery) - {queryStringified.value} else old(model.lqsByQuery))
      ensures !threw && !unsubscribed ==> docs == old(docs) && count == old(count) && unchanged(model)
      ensures model.lastIndex == old(model.lastIndex)
    {
      if !(index.Some? && index.value in model.lqs) {
        return true;
      }
      stopped := true;
      if unsubscribed {
        if shape.count {
          count := 0;
        } else {
          docs := [];
        }
        model.lqs := model.lqs - {index.value};
        if queryStringified.Some? {
          model.lqsByQuery := model.lqsByQuery - {queryStringified.value};
        }
      }
      return false;
    }

    /** The socket `disconnect` event: every registered hook pair marks
        the live query stopped. */
    method Disconnect()
      modifies this`stopped
      ensures stopped == (old(stopped) || socketHooks > 0)
    {
      if socketHooks > 0 {
        stopped := true;
      }
    }

    /** Whether a running live query holds this one's query in `_LQsByQuery`. */
    predicate HeldByRunning()
      reads this, model, model.lqsByQuery.Values
    {
      query in model.lqsByQuery && !model.lqsByQuery[query].stopped
    }

    /** The socket `reconnect` event: each registered hook pair in turn
        empties the result and runs `exec` again without registering new
        hooks. A live query held by a running one is reused every time; a
        stopped one is registered anew by every pair, once it is not
        stopped only by the first; a `count` with `sort` throws at the first. */
    method Reconnect() returns (r: Option<ExecResult>)
      requires model.Valid()
      modifies this, model
      ensures model.Valid()
      ensures old(socketHooks) == 0 ==> r == None && unchanged(this, model)
      ensures old(socketHooks) > 0 ==> docs == [] && count == 0
      ensures query == old(query) && shape == old(shape) && stopped == old(stopped)
      ensures pending == old(pending) && listeners == old(listeners) && socketHooks == old(socketHooks)
      ensures old(socketHooks) > 0 && old(shape.count && shape.sort) ==>
        && r == Some(CountWithSort) && unchanged(model)
        && index == old(index) && populated == old(populated)
        && skipSocketEvents == old(skipSocketEvents) && queryStringified == old(queryStringified)
      ensures old(socketHooks) > 0 && !old(shape.count && shape.sort) ==> queryStringified == Some(query)
      ensures old(socketHooks) > 0 && !old(shape.count && shape.sort) && old(HeldByRunning()) ==>
        && r == Some(Returned(old(model.lqsByQuery[query]))) && unchanged(model)
        && index == old(index) && populated == old(populated) && skipSocketEvents == old(skipSocketEvents)
      ensures old(socketHooks) > 0 && !old(shape.count && shape.sort) && !old(HeldByRunning()) ==>
        var m := if old(stopped) then old(socketHooks) else 1;
        && r == Some(Returned(this))
        && model.lastIndex == old(model.lastIndex) + m
        && index == Some(model.lastIndex)
        && model.lqs == Registered(old(model.lqs), old(model.lastIndex), m, this)
        && model.lqsByQuery == old(model.lqsByQuery)[query := this]
        && !populated && skipSocketEvents
    {
      if socketHooks == 0 {
        return None;
      }
      ghost var held := HeldByRunning();
      docs := [];
      count := 0;
      var e := Exec(true);
      r := Some(e);
      if e == CountWithSort {
        // the throw ends the run of `reconnect` handlers
        return;
      }
      ReExecRest(socketHooks - 1);
      if !held && stopped {
        RegisteredConcat(old(model.lqs), old(model.lastIndex), 1, socketHooks - 1, this);
      }
    }

    /** The `reconnect` handlers after the first one, once this live query's
        query maps to itself or to a running live query: each empties the
        result and runs `exec` again, which registers this live query once
        more only while it is stopped. */
    method ReExecRest(n: nat)
      requires model.Valid()
      requires !(shape.count && shape.sort) && queryStringified == Some(query)
      requires docs == [] && count == 0
      requires query in model.lqsByQuery
      requires model.lqsByQuery[query] == this || !model.lqsByQuery[query].stopped
      modifies this, model
      ensures model.Valid()
      ensures docs == [] && count == 0 && queryStringified == Some(query)
      ensures query == old(query) && shape == old(shape) && stopped == old(stopped)
      ensures pending == old(pending) && listeners == old(listeners) && socketHooks == old(socketHooks)
      ensures model.lqsByQuery == old(model.lqsByQuery)
      ensures !old(model.lqsByQuery[query].stopped) ==>
        unchanged(model) && index == old(index) && populated == old(populated) && skipSocketEvents == old(skipSocketEvents)
      ensures old(model.lqsByQuery[query].stopped) ==>
        && model.lastIndex == old(model.lastIndex) + n
        && model.lqs == Registered(old(model.lqs), old(model.lastIndex), n, this)
        && (n > 0 ==> index == Some(model.lastIndex) && !populated && skipSocketEvents)
        && (n == 0 ==> index == old(index) && populated == old(populated) && skipSocketEvents == old(skipSocketEvents))
    {
      var k := 0;
      while k < n
        invariant 0 <= k <= n
        invariant model.Valid()
        invariant docs == [] && count == 0 && queryStringified == Some(query)
        invariant query == old(query) && shape == old(shape) && stopped == old(stopped)
        invariant pending == old(pending) && listeners == old(listeners) && socketHooks == old(socketHooks)
        invariant model.lqsByQuery == old(model.lqsByQuery)
        invariant !old(model.lqsByQuery[query].stopped) ==>
          unchanged(model) && index == old(index) && populated == old(populated) && skipSocketEvents == old(skipSocketEvents)
        invariant old(model.lqsByQuery[query].stopped) ==>
          && model.lastIndex == old(model.lastIndex) + k
          && model.lqs == Registered(old(model.lqs), old(model.lastIndex), k, this)
          && (k > 0 ==> index == Some(model.lastIndex) && !populated && skipSocketEvents)
          && (k == 0 ==> index == old(index) && populated == old(populated) && skipSocketEvents == old(skipSocketEvents))
      {
        docs := [];
        count := 0;
        var _ := Exec(true);
        k := k + 1;
      }
    }
  }
}
