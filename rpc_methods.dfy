/** The server side of live queries (mr-rpc-methods.js): the cache of
    running live queries, kept in step with the model's change events by
    the `schema.onAll` handler; the per-socket event subscriptions; and the
    deduplication and seeding of `channel.liveQuery`. The store's existence
    check (`findOne(LQ.query).where('_id').equals(doc._id)`) is an input,
    and `stringifyQuery` is taken to be injective, so a query is known by
    its key. */
module RpcMethods {
  import opened Shared

  /** The event names `schema.onAll` reports. */
  datatype Event = CreateE | UpdateE | RemoveE | OtherE(name: string)

  /** `stringifyQuery(query)`. */
  type Key = string

  type SocketId = nat

  /** A client's `pub` method. */
  type PubMethod = nat

  /** An entry of `LQ.listeners`. */
  datatype Listener = Listener(pub: PubMethod, socket: SocketId)

  /** One listener call `LQ.listeners[i](doc, evName, LQString)`. */
  datatype Notification = Notification(listener: Listener, doc: Doc, ev: Event, key: Key)

  /** An entry of `liveQueries`: the cached result, its listeners, and its query. */
  datatype Entry = Entry(docs: seq<Doc>, listeners: seq<Listener>, query: Key)

  /** An id returned by `schema.on`. */
  type EvId = nat

  /** `currQueried.indexOf(doc)`: the first position of the document, or -1. */
  function IndexOf(docs: seq<Doc>, doc: Doc): (r: int)
    ensures -1 <= r < |docs|
    ensures r >= 0 ==> docs[r] == doc && forall k :: 0 <= k < r ==> docs[k] != doc
    ensures r == -1 <==> doc !in docs
    decreases |docs|
  {
    if |docs| == 0 then -1
    else if docs[0] == doc then 0
    else
      var r := IndexOf(docs[1..], doc);
      assert forall k :: 0 <= k < |docs| - 1 ==> docs[1..][k] == docs[k + 1];
      if r == -1 then -1 else r + 1
  }

  /** What the `onAll` handler does to one live query's cache: the new
      cached documents, and whether the listeners are called.
      `matches` is the outcome of the existence check. */
  function React(docs: seq<Doc>, doc: Doc, ev: Event, matches: bool): (seq<Doc>, bool)
  {
    var i := IndexOf(docs, doc);
    if ev == RemoveE && i != -1 then (RemoveAt(docs, i), true)
    else if matches then
      if ev == CreateE then (docs + [doc], true)
      else if ev == UpdateE then (if i == -1 then docs + [doc] else docs, true)
      else (docs, false)
    else if ev == UpdateE && i != -1 then (RemoveAt(docs, i), true)
    else (docs, false)
  }

  predicate NoDup(docs: seq<Doc>)
  {
    forall j, k :: 0 <= j < k < |docs| ==> docs[j] != docs[k]
  }

  /** For a cache without duplicates, after the handler the document is
      cached exactly when: a `create` that matches or was already cached; an
      `update` that matches; any other non-remove event of a cached
      document. A `remove` then never leaves it cached. */
  lemma ReactMembership(docs: seq<Doc>, doc: Doc, ev: Event, matches: bool)
    requires NoDup(docs)
    ensures doc in React(docs, doc, ev, matches).0 <==>
      match ev
      case RemoveE => false
      case CreateE => matches || doc in docs
      case UpdateE => matches
      case OtherE(_) => doc in docs
  {
    var i := IndexOf(docs, doc);
    if i != -1 && (ev == RemoveE || (!matches && ev == UpdateE)) {
      var r := RemoveAt(docs, i);
      forall k | 0 <= k < |r| ensures r[k] != doc {
        assert r[k] == (if k < i then docs[k] else docs[k + 1]);
      }
    }
  }

  /** For any cache, duplicates included, the handler changes how often
      the document is cached by one at most: a `remove` of a cached document
      drops one copy; a matching `create` adds one; a matching `update`
      adds it only when absent; a non-matching `update` of a cached document
      drops one copy; nothing else changes it. */
  lemma ReactMultiplicity(docs: seq<Doc>, doc: Doc, ev: Event, matches: bool)
    ensures var before := multiset(docs)[doc];
      multiset(React(docs, doc, ev, matches).0)[doc] ==
        match ev
        case RemoveE => if before > 0 then before - 1 else 0
        case CreateE => if matches then before + 1 else before
        case UpdateE =>
          if matches then (if before > 0 then before else 1)
          else if before > 0 then before - 1 else 0
        case OtherE(_) => before
  {
    var i := IndexOf(docs, doc);
    if i != -1 {
      assert docs[i] == doc;
    }
  }

  /** The listeners are called exactly for: a `remove` of a cached document;
      a `create` that matches; an `update` that matches or was cached. */
  lemma ReactNotifies(docs: seq<Doc>, doc: Doc, ev: Event, matches: bool)
    ensures React(docs, doc, ev, matches).1 <==>
      (ev == RemoveE && doc in docs) || (ev == CreateE && matches) || (ev == UpdateE && (matches || doc in docs))
  {
  }

  /** The handler only ever adds or removes the event's own document, and
      only pushes or splices: no sorting, no limit. */
  lemma ReactOnlyTouchesDoc(docs: seq<Doc>, doc: Doc, ev: Event, matches: bool)
    ensures var r := React(docs, doc, ev, matches).0;
      forall d :: d != doc ==> multiset(r)[d] == multiset(docs)[d]
    ensures var r := React(docs, doc, ev, matches).0;
      r == docs || r == docs + [doc] || (doc in docs && r == RemoveAt(docs, IndexOf(docs, doc)))
  {
    var i := IndexOf(docs, doc);
    var r := React(docs, doc, ev, matches).0;
    if i != -1 && (ev == RemoveE || (!matches && ev == UpdateE)) {
      assert r == RemoveAt(docs, i);
      assert multiset(r) == multiset(docs) - multiset{doc};
    } else if matches && (ev == CreateE || (ev == UpdateE && i == -1)) {
      assert r == docs + [doc];
      assert multiset(r) == multiset(docs) + multiset{doc};
    } else {
      assert r == docs;
    }
  }

  /** The cache never holds a document twice, except after a `create` event
      of a document that was already cached and still matches. */
  lemma ReactKeepsNoDup(docs: seq<Doc>, doc: Doc, ev: Event, matches: bool)
    requires NoDup(docs)
    requires !(ev == CreateE && matches && doc in docs)
    ensures NoDup(React(docs, doc, ev, matches).0)
  {
    var i := IndexOf(docs, doc);
    var r := React(docs, doc, ev, matches).0;
    if r == docs + [doc] {
      assert doc !in docs;
      forall j, k | 0 <= j < k < |r| ensures r[j] != r[k] {
        if k == |docs| {
          assert r[j] == docs[j];
        }
      }
    } else if r != docs {
      forall j, k | 0 <= j < k < |r| ensures r[j] != r[k] {
        var j' := if j < i then j else j + 1;
        var k' := if k < i then k else k + 1;
        assert r[j] == docs[j'] && r[k] == docs[k'];
      }
    }
  }

  /** The witness of the exception: a `create` of a cached document that
      still matches is appended a second time. */
  lemma CreateOfCachedDuplicates(doc: Doc)
    ensures React([doc], doc, CreateE, true).0 == [doc, doc]
    ensures !NoDup(React([doc], doc, CreateE, true).0)
  {
    assert React([doc], doc, CreateE, true).0[0] == React([doc], doc, CreateE, true).0[1];
  }

  /** `callListeners()`: the listeners from the last registered to the first. */
  function Notifications(ls: seq<Listener>, doc: Doc, ev: Event, key: Key): (r: seq<Notification>)
    ensures |r| == |ls|
    ensures forall j :: 0 <= j < |ls| ==> r[j] == Notification(ls[|ls| - 1 - j], doc, ev, key)
    decreases |ls|
  {
    if |ls| == 0 then [] else [Notification(ls[|ls| - 1], doc, ev, key)] + Notifications(ls[..|ls| - 1], doc, ev, key)
  }

  /** The `while(i--)` loop of `callListeners`. */
  method CallListeners(ls: seq<Listener>, doc: Doc, ev: Event, key: Key) returns (calls: seq<Notification>)
    ensures |calls| == |ls|
    ensures forall j :: 0 <= j < |ls| ==> calls[j] == Notification(ls[|ls| - 1 - j], doc, ev, key)
    ensures calls == Notifications(ls, doc, ev, key)
  {
    var i := |ls|;
    calls := [];
    while i > 0
      invariant 0 <= i <= |ls|
      invariant |calls| == |ls| - i
      invariant forall j :: 0 <= j < |calls| ==> calls[j] == Notification(ls[|ls| - 1 - j], doc, ev, key)
    {
      i := i - 1;
      calls := calls + [Notification(ls[i], doc, ev, key)];
    }
  }

  /** The handler's body for one live query. */
  method HandleOne(e: Entry, key: Key, doc: Doc, ev: Event, matches: bool) returns (e': Entry, calls: seq<Notification>)
    ensures e' == Reacted(e, doc, ev, matches)
    ensures calls == NotesFor(e, key, doc, ev, matches)
  {
    var r := React(e.docs, doc, ev, matches);
    calls := [];
    if r.1 {
      calls := CallListeners(e.listeners, doc, ev, key);
    }
    e' := e.(docs := r.0);
  }

  /** One live query's entry after the handler. */
  function Reacted(e: Entry, doc: Doc, ev: Event, matches: bool): Entry
  {
    e.(docs := React(e.docs, doc, ev, matches).0)
  }

  /** The listener calls one live query makes for the event. */
  function NotesFor(e: Entry, key: Key, doc: Doc, ev: Event, matches: bool): seq<Notification>
  {
    if React(e.docs, doc, ev, matches).1 then Notifications(e.listeners, doc, ev, key) else []
  }

  /** All listener calls of a `schema.onAll` event, live query by live query
      in the order of `Object.keys(liveQueries)`. */
  function AllNotes(lqs: map<Key, Entry>, ks: seq<Key>, doc: Doc, ev: Event, matches: Key -> bool): seq<Notification>
    requires forall k :: k in ks ==> k in lqs
    decreases |ks|
  {
    if |ks| == 0 then []
    else
      var last := ks[|ks| - 1];
      AllNotes(lqs, ks[..|ks| - 1], doc, ev, matches) + NotesFor(lqs[last], last, doc, ev, matches(last))
  }

  predicate DistinctKeys(ks: seq<Key>)
  {
    forall j, k :: 0 <= j < k < |ks| ==> ks[j] != ks[k]
  }

  /** How many of the listeners belong to a socket. */
  function ListenersOf(ls: seq<Listener>, s: SocketId): nat
    decreases |ls|
  {
    if |ls| == 0 then 0
    else ListenersOf(ls[..|ls| - 1], s) + (if ls[|ls| - 1].socket == s then 1 else 0)
  }

  lemma ListenersOfSnoc(ls: seq<Listener>, l: Listener, s: SocketId)
    ensures ListenersOf(ls + [l], s) == ListenersOf(ls, s) + (if l.socket == s then 1 else 0)
  {
    assert (ls + [l])[..|ls|] == ls;
  }

  // ---------------------------------------------------------------------
  // Socket subscriptions
  // ---------------------------------------------------------------------

  /** What `unsubscribe` returns, or that it threw. */
  datatype UnsubResult = Off(removed: bool) | UnsubThrew

  /** What `subscribe` returns, or that it threw for a missing event name. */
  datatype SubResult = MissingEventName | Subscribed(evId: EvId)

  /** The subscriptions of a socket after `subscribe(evName)` got `evId`:
      the table is created on first use, and the name now maps to the new id
      whatever it held before. */
  function SubscribedIds(ids: Option<map<string, EvId>>, evName: string, evId: EvId): (r: map<string, EvId>)
    ensures evName in r && r[evName] == evId
    ensures forall n :: n != evName ==> (n in r <==> ids.Some? && n in ids.value)
    ensures forall n :: n != evName && n in r ==> r[n] == ids.value[n]
  {
    (if ids.Some? then ids.value else map[])[evName := evId]
  }

  /** The ids `subscribeAll` collects, by event name; a later equal name wins. */
  function Zip(names: seq<string>, ids: seq<EvId>): map<string, EvId>
    requires |names| == |ids|
    decreases |names|
  {
    if |names| == 0 then map[]
    else Zip(names[..|names| - 1], ids[..|ids| - 1])[names[|names| - 1] := ids[|ids| - 1]]
  }

  lemma ZipSnoc(names: seq<string>, ids: seq<EvId>, i: nat)
    requires |names| == |ids| && i < |names|
    ensures Zip(names[..i + 1], ids[..i + 1]) == Zip(names[..i], ids[..i])[names[i] := ids[i]]
  {
    assert names[..i + 1][..i] == names[..i] && ids[..i + 1][..i] == ids[..i];
  }

  /** One client socket, as far as live queries use it. */
  class Connection {
    const id: SocketId
    /** `socket.mrEventIds`: undefined until the first subscription. */
    var mrEventIds: Option<map<string, EvId>>
    /** Whether the `disconnect` hook that unsubscribes everything is registered. */
    var disconnectHook: bool
    /** `socket.registeredLQs`, by key. */
    var registeredLQs: seq<Key>

    constructor (sid: SocketId)
      ensures id == sid && mrEventIds == None && !disconnectHook && registeredLQs == []
    {
      id := sid;
      mrEventIds := None;
      disconnectHook := false;
      registeredLQs := [];
    }

    /** `unsubscribe(id, event)` called on this socket: it removes the name
        only when `schema.off` (whose answer is `offOk`) removed the
        listener; deleting from a table that was never created throws. */
    method Unsubscribe(evId: EvId, event: string, offOk: bool) returns (r: UnsubResult)
      modifies this`mrEventIds
      ensures offOk && old(mrEventIds).None? ==> r == UnsubThrew && mrEventIds == old(mrEventIds)
      ensures offOk && old(mrEventIds).Some? ==> r == Off(true) && mrEventIds == Some(old(mrEventIds).value - {event})
      ensures !offOk ==> r == Off(false) && mrEventIds == old(mrEventIds)
    {
      if offOk {
        if mrEventIds.None? {
          return UnsubThrew;
        }
        mrEventIds := Some(mrEventIds.value - {event});
      }
      return Off(offOk);
    }

    /** `subscribe(evName)` with the socket bound: an empty name throws; the
        table and the disconnect hook are set up on first use; an existing
        subscription of the name is unsubscribed first; and the name then
        maps to the new id, so a socket holds at most one id per name.
        `offered` is the stored id handed to `schema.off`, if any: exactly
        a truthy id already stored under the name.
        The `when.defer()` of line 113 is taken to succeed here. */
    method Subscribe(evName: string, evId: EvId, offOk: bool) returns (r: SubResult, offered: Option<EvId>)
      modifies this`mrEventIds, this`disconnectHook
      ensures evName == "" ==> r == MissingEventName && offered == None && unchanged(this)
      ensures evName != "" ==>
        offered == (if old(mrEventIds).Some? && evName in old(mrEventIds).value && old(mrEventIds).value[evName] != 0
                    then Some(old(mrEventIds).value[evName]) else None)
      ensures evName != "" ==>
        && r == Subscribed(evId)
        && mrEventIds == Some(SubscribedIds(old(mrEventIds), evName, evId))
        && disconnectHook == (old(disconnectHook) || old(mrEventIds).None?)
    {
      offered := None;
      if evName == "" {
        return MissingEventName, None;
      }
      if mrEventIds.None? {
        mrEventIds := Some(map[]);
        disconnectHook := true;
      }
      var existing := mrEventIds.value;
      // `existing[evName]` is tested for truthiness: a stored id 0 is not unsubscribed
      if evName in existing && existing[evName] != 0 {
        offered := Some(existing[evName]);
        var _ := Unsubscribe(existing[evName], evName, offOk);
        assert mrEventIds.value[evName := evId] == existing[evName := evId];
      }
      mrEventIds := Some(mrEventIds.value[evName := evId]);
      r := Subscribed(evId);
    }

    /** `subscribeAll()` over the model's event names, with the socket bound
        for every `subscribe`: the i-th name gets `ids[i]`, and `offOk[i]` is
        what `schema.off` answers if that name was already subscribed. */
    method SubscribeAll(names: seq<string>, ids: seq<EvId>, offOk: seq<bool>) returns (evIds: map<string, EvId>)
      requires |ids| == |names| && |offOk| == |names|
      requires forall k :: 0 <= k < |names| ==> names[k] != ""
      modifies this`mrEventIds, this`disconnectHook
      ensures evIds == Zip(names, ids)
      ensures |names| > 0 ==> mrEventIds == Some(old(if mrEventIds.Some? then mrEventIds.value else map[]) + evIds)
      ensures |names| == 0 ==> mrEventIds == old(mrEventIds)
      ensures disconnectHook == (old(disconnectHook) || (old(mrEventIds).None? && |names| > 0))
    {
      var base := if mrEventIds.Some? then mrEventIds.value else map[];
      evIds := map[];
      var i := 0;
      while i < |names|
        invariant 0 <= i <= |names|
        invariant evIds == Zip(names[..i], ids[..i])
        invariant i > 0 ==> mrEventIds == Some(base + evIds)
        invariant i == 0 ==> mrEventIds == old(mrEventIds) && evIds == map[]
        invariant disconnectHook == (old(disconnectHook) || (old(mrEventIds).None? && i > 0))
      {
        ghost var before := if mrEventIds.Some? then mrEventIds.value else map[];
        assert before == base + evIds;
        var r, _ := Subscribe(names[i], ids[i], offOk[i]);
        assert mrEventIds == Some(before[names[i] := ids[i]]);
        ZipSnoc(names, ids, i);
        assert base + evIds[names[i] := ids[i]] == (base + evIds)[names[i] := ids[i]];
        evIds := evIds[names[i] := ids[i]];
        i := i + 1;
      }
      assert names[..i] == names && ids[..i] == ids;
    }
  }

  // --- The subscriptions as written --------------------------------------

  /** Why a call threw. */
  datatype Thrown = NoEventName | UndefinedSocket | UndefinedWhen

  /** A subscription call's outcome: the socket's table when it returned,
      or why it threw and the table it left. */
  datatype Outcome =
    | Returned(ids: Option<map<string, EvId>>)
    | Threw(reason: Thrown, ids: Option<map<string, EvId>>)

  /** `unsubscribe` as written, where `bound` says whether `this.socket` is
      the socket: the RPC layer binds it for `channel.unsub`, but a plain
      call `unsubscribe(...)` inside this file leaves it undefined, and
      `delete this.socket.mrEventIds[event]` then throws. */
  function UnsubscribeAsWritten(bound: bool, ids: Option<map<string, EvId>>, event: string, offOk: bool): Outcome
  {
    if !offOk then Returned(ids)
    else if !bound || ids.None? then Threw(UndefinedSocket, ids)
    else Returned(Some(ids.value - {event}))
  }

  /** `subscribe` as written: `var socket = this.socket` is undefined on a
      plain call; the table is created on first use; an existing truthy id
      is removed by a plain call of `unsubscribe`; and `when.defer()` throws
      unless some `when` is in scope (`whenDefined`), which the file itself
      never requires. */
  function SubscribeAsWritten(bound: bool, whenDefined: bool, ids: Option<map<string, EvId>>,
                              evName: string, evId: EvId, offOk: bool): Outcome
  {
    if evName == "" then Threw(NoEventName, ids)
    else if !bound then Threw(UndefinedSocket, ids)
    else
      var m := if ids.Some? then ids.value else map[];
      var unsub := if evName in m && m[evName] != 0 then UnsubscribeAsWritten(false, Some(m), evName, offOk)
                   else Returned(Some(m));
      match unsub
      case Threw(e, t) => Threw(e, t)
      case Returned(_) =>
        if !whenDefined then Threw(UndefinedWhen, Some(m))
        else Returned(Some(m[evName := evId]))
  }

  /** `subscribeAll` as written, where `innerBound` says whether each
      `subscribe(name, query)` it makes sees the socket; as written they are
      plain calls, so it is false. */
  function SubscribeAllAsWritten(innerBound: bool, whenDefined: bool, ids: Option<map<string, EvId>>,
                                 names: seq<string>, evIds: seq<EvId>, offOk: seq<bool>): Outcome
    requires |evIds| == |names| && |offOk| == |names|
    decreases |names|
  {
    if |names| == 0 then Returned(ids)
    else match SubscribeAsWritten(innerBound, whenDefined, ids, names[0], evIds[0], offOk[0])
      case Threw(e, t) => Threw(e, t)
      case Returned(ids') => SubscribeAllAsWritten(innerBound, whenDefined, ids', names[1..], evIds[1..], offOk[1..])
  }

  /** As written, every `subscribe` of a name throws: at the plain
      `unsubscribe` call when a truthy id is stored and `schema.off`
      succeeds, and otherwise at `when.defer()`. It leaves the table created
      but records no id, so the stored-id branch is never reached from a
      fresh socket. */
  lemma SubscribeThrowsWithoutWhen(ids: Option<map<string, EvId>>, evName: string, evId: EvId, offOk: bool)
    requires evName != ""
    ensures var m := if ids.Some? then ids.value else map[];
      SubscribeAsWritten(true, false, ids, evName, evId, offOk) ==
        if evName in m && m[evName] != 0 && offOk then Threw(UndefinedSocket, Some(m))
        else Threw(UndefinedWhen, Some(m))
    ensures SubscribeAsWritten(true, false, None, evName, evId, offOk) == Threw(UndefinedWhen, Some(map[]))
  {
  }

  /** With a `when` in scope, re-subscribing a name whose stored id is
      truthy and whose `schema.off` succeeds throws at the plain
      `unsubscribe` call, so the new subscription is never made; every other
      subscription agrees with the bound version. */
  lemma ResubscribeThrows(m: map<string, EvId>, evName: string, evId: EvId)
    requires evName != "" && evName in m && m[evName] != 0
    ensures SubscribeAsWritten(true, true, Some(m), evName, evId, true) == Threw(UndefinedSocket, Some(m))
    ensures SubscribeAsWritten(true, true, Some(m), evName, evId, false) == Returned(Some(SubscribedIds(Some(m), evName, evId)))
    ensures forall ids: Option<map<string, EvId>>, o: bool :: !(ids.Some? && evName in ids.value && ids.value[evName] != 0) ==>
      SubscribeAsWritten(true, true, ids, evName, evId, o) == Returned(Some(SubscribedIds(ids, evName, evId)))
  {
  }

  /** `channel.liveQuery` as written starts with the plain call
      `subscribeAll(query)`, so its first `subscribe` has no socket and
      throws: every live query request fails before its key is looked up. */
  lemma LiveQuerySubscribeThrows(whenDefined: bool, ids: Option<map<string, EvId>>, names: seq<string>, evIds: seq<EvId>, offOk: seq<bool>)
    requires |evIds| == |names| && |offOk| == |names| && |names| > 0
    ensures SubscribeAllAsWritten(false, whenDefined, ids, names, evIds, offOk).Threw?
    ensures names[0] != "" ==> SubscribeAllAsWritten(false, whenDefined, ids, names, evIds, offOk) == Threw(UndefinedSocket, ids)
  {
  }

  // ---------------------------------------------------------------------
  // The live-query cache
  // ---------------------------------------------------------------------

  /** The `liveQueries` object of one model, with its key order. */
  class Registry {
    var liveQueries: map<Key, Entry>
    /** `Object.keys(liveQueries)`: insertion order. */
    var keys: seq<Key>

    predicate Valid()
      reads this
    {
      DistinctKeys(keys) && (forall k :: k in keys ==> k in liveQueries) && (forall k :: k in liveQueries ==> k in keys)
    }

    /** A socket's bookkeeping agrees with the cache: each live query it
        registered holds exactly one of its listeners, the others none. */
    predicate Tracks(c: Connection)
      reads this, c
    {
      && (forall k :: k in c.registeredLQs ==> k in liveQueries)
      && (forall k :: k in liveQueries ==>
            ListenersOf(liveQueries[k].listeners, c.id) == if k in c.registeredLQs then 1 else 0)
    }

    constructor ()
      ensures Valid() && liveQueries == map[] && keys == []
    {
      liveQueries := map[];
      keys := [];
    }

    /** The `schema.onAll` handler: every live query, in key order, updates
        its cache and calls its listeners as `React` says. */
    method OnAll(doc: Doc, ev: Event, matches: Key -> bool) returns (notes: seq<Notification>)
      requires Valid()
      modifies this`liveQueries
      ensures Valid()
      ensures liveQueries.Keys == old(liveQueries).Keys
      ensures forall k :: k in liveQueries ==> liveQueries[k] == Reacted(old(liveQueries)[k], doc, ev, matches(k))
      ensures notes == AllNotes(old(liveQueries), keys, doc, ev, matches)
    {
      ReactAllKeys(liveQueries, keys, doc, ev, matches);
      liveQueries, notes := HandleAll(liveQueries, keys, doc, ev, matches);
    }

    /** `channel.liveQuery` on `conn`: subscribe the socket to every event
        name; then, for a known key, add the socket's listener unless it is
        registered already and answer the cached documents without running
        the query; for a new key, create the entry, add the listener, and
        seed the cache position by position from the query's result
        `execDocs`. */
    method LiveQuery(conn: Connection, key: Key, pub: PubMethod,
                     names: seq<string>, ids: seq<EvId>, offOk: seq<bool>, execDocs: seq<Doc>)
      returns (r: seq<Doc>)
      requires Valid() && Tracks(conn)
      requires |ids| == |names| && |offOk| == |names|
      requires forall k :: 0 <= k < |names| ==> names[k] != ""
      modifies this, conn
      ensures Valid() && Tracks(conn)
      ensures |names| > 0 ==> conn.mrEventIds == Some(old(if conn.mrEventIds.Some? then conn.mrEventIds.value else map[]) + Zip(names, ids))
      ensures |names| == 0 ==> conn.mrEventIds == old(conn.mrEventIds)
      ensures conn.disconnectHook == (old(conn.disconnectHook) || (old(conn.mrEventIds).None? && |names| > 0))
      ensures key in old(liveQueries) ==> r == old(liveQueries[key].docs) && Joined(old(liveQueries), old(keys), old(conn.registeredLQs), conn, key, pub)
      ensures key !in old(liveQueries) ==> r == execDocs && Opened(old(liveQueries), old(keys), old(conn.registeredLQs), conn, key, pub, execDocs)
    {
      var _ := conn.SubscribeAll(names, ids, offOk);
      if key in liveQueries {
        r := Join(conn, key, pub);
      } else {
        r := Open(conn, key, pub, execDocs);
      }
    }

    /** The state after a known key was requested by `conn`. */
    ghost predicate Joined(lqs: map<Key, Entry>, ks: seq<Key>, regs: seq<Key>, conn: Connection, key: Key, pub: PubMethod)
      reads this, conn
      requires key in lqs
    {
      && keys == ks
      && (key in regs ==> liveQueries == lqs && conn.registeredLQs == regs)
      && (key !in regs ==>
            && liveQueries == lqs[key := lqs[key].(listeners := lqs[key].listeners + [Listener(pub, conn.id)])]
            && conn.registeredLQs == regs + [key])
    }

    /** The state after a new key was requested by `conn`. */
    ghost predicate Opened(lqs: map<Key, Entry>, ks: seq<Key>, regs: seq<Key>, conn: Connection, key: Key, pub: PubMethod, execDocs: seq<Doc>)
      reads this, conn
    {
      && keys == ks + [key]
      && liveQueries == lqs[key := Entry(execDocs, [Listener(pub, conn.id)], key)]
      && conn.registeredLQs == regs + [key]
    }

    /** The path of a known key: no query runs, and a socket already
        listening (`MR_ERR_1`) is not added again. */
    method Join(conn: Connection, key: Key, pub: PubMethod) returns (r: seq<Doc>)
      requires Valid() && Tracks(conn) && key in liveQueries
      modifies this`liveQueries, conn`registeredLQs
      ensures Valid() && Tracks(conn)
      ensures r == old(liveQueries[key].docs)
      ensures Joined(old(liveQueries), keys, old(conn.registeredLQs), conn, key, pub)
    {
      var e := liveQueries[key];
      if key !in conn.registeredLQs {
        liveQueries := liveQueries[key := e.(listeners := e.listeners + [Listener(pub, conn.id)])];
        conn.registeredLQs := conn.registeredLQs + [key];
        ListenersOfSnoc(e.listeners, Listener(pub, conn.id), conn.id);
      }
      return e.docs;
    }

    /** The path of a new key: the query ran and gave `execDocs`; the entry is
        created, the socket listens, and the cache is seeded from the result. */
    method Open(conn: Connection, key: Key, pub: PubMethod, execDocs: seq<Doc>) returns (r: seq<Doc>)
      requires Valid() && Tracks(conn) && key !in liveQueries
      modifies this`liveQueries, this`keys, conn`registeredLQs
      ensures Valid() && Tracks(conn)
      ensures r == execDocs
      ensures Opened(old(liveQueries), old(keys), old(conn.registeredLQs), conn, key, pub, execDocs)
    {
      var created := Entry([], [], key);
      keys := keys + [key];
      var seeded := OverlayInPlace(created.docs, execDocs);
      liveQueries := liveQueries[key := created.(docs := seeded, listeners := [Listener(pub, conn.id)])];
      conn.registeredLQs := conn.registeredLQs + [key];
      ListenersOfSnoc([], Listener(pub, conn.id), conn.id);
      return execDocs;
    }
  }

  /** The caches after `onAll` has handled the keys `ks` in order. */
  function ReactAll(lqs: map<Key, Entry>, ks: seq<Key>, doc: Doc, ev: Event, matches: Key -> bool): map<Key, Entry>
    requires forall k :: k in ks ==> k in lqs
    decreases |ks|
  {
    if |ks| == 0 then lqs
    else
      var last := ks[|ks| - 1];
      ReactAll(lqs, ks[..|ks| - 1], doc, ev, matches)[last := Reacted(lqs[last], doc, ev, matches(last))]
  }

  /** The `Object.keys(liveQueries).forEach` loop of the handler. */
  method HandleAll(lqs: map<Key, Entry>, ks: seq<Key>, doc: Doc, ev: Event, matches: Key -> bool)
    returns (lqs': map<Key, Entry>, notes: seq<Notification>)
    requires DistinctKeys(ks) && forall k :: k in ks ==> k in lqs
    ensures lqs' == ReactAll(lqs, ks, doc, ev, matches)
    ensures notes == AllNotes(lqs, ks, doc, ev, matches)
  {
    lqs' := lqs;
    notes := [];
    var i := 0;
    while i < |ks|
      invariant 0 <= i <= |ks|
      invariant lqs' == ReactAll(lqs, ks[..i], doc, ev, matches)
      invariant notes == AllNotes(lqs, ks[..i], doc, ev, matches)
    {
      var key := ks[i];
      ReactAllStep(lqs, ks, i, doc, ev, matches);
      var e', calls := HandleOne(lqs'[key], key, doc, ev, matches(key));
      lqs' := lqs'[key := e'];
      notes := notes + calls;
      i := i + 1;
    }
    assert ks[..i] == ks;
  }

  /** One more key handled by the `onAll` loop. */
  lemma ReactAllStep(lqs: map<Key, Entry>, ks: seq<Key>, i: nat, doc: Doc, ev: Event, matches: Key -> bool)
    requires i < |ks| && DistinctKeys(ks) && forall k :: k in ks ==> k in lqs
    ensures ks[i] in ReactAll(lqs, ks[..i], doc, ev, matches)
    ensures ReactAll(lqs, ks[..i], doc, ev, matches)[ks[i]] == lqs[ks[i]]
    ensures ReactAll(lqs, ks[..i + 1], doc, ev, matches)
         == ReactAll(lqs, ks[..i], doc, ev, matches)[ks[i] := Reacted(lqs[ks[i]], doc, ev, matches(ks[i]))]
    ensures AllNotes(lqs, ks[..i + 1], doc, ev, matches)
         == AllNotes(lqs, ks[..i], doc, ev, matches) + NotesFor(lqs[ks[i]], ks[i], doc, ev, matches(ks[i]))
  {
    ReactAllKeys(lqs, ks[..i], doc, ev, matches);
    assert ks[i] !in ks[..i];
    assert ks[..i + 1][..i] == ks[..i];
  }

  lemma {:induction false} ReactAllKeys(lqs: map<Key, Entry>, ks: seq<Key>, doc: Doc, ev: Event, matches: Key -> bool)
    requires forall k :: k in ks ==> k in lqs
    ensures ReactAll(lqs, ks, doc, ev, matches).Keys == lqs.Keys
    ensures forall k :: k in lqs ==>
      ReactAll(lqs, ks, doc, ev, matches)[k] == if k in ks then Reacted(lqs[k], doc, ev, matches(k)) else lqs[k]
    decreases |ks|
  {
    if |ks| > 0 {
      var p := ks[..|ks| - 1];
      assert forall k :: k in ks <==> k in p || k == ks[|ks| - 1];
      ReactAllKeys(lqs, p, doc, ev, matches);
    }
  }
}
