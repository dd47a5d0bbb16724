/**
 * The Android peer runtime: the `WsJRpc` singleton, modelled as a class whose
 * fields are the singleton's mutable state. It classifies each decoded
 * inbound message, correlates its own outbound calls by integer id, answers
 * inbound requests from its method table, fans notifications out to local
 * subscribers, and stamps the protocol version on everything it sends.
 *
 * The socket is replaced by `outbox` (what `curWs.send` receives, in order);
 * the callbacks and subscribers, which are opaque lambdas, are replaced by
 * handles, and their invocations are recorded in `settled` and `delivered`.
 */
module AndroidPeer {
  import opened Wrappers
  import opened Json

  /** Error codes of section 5.1 of the JSON-RPC 2.0 specification. */
  const ErrorCodeMethodNotFound: int := -32601
  const ErrorCodeInternalError: int := -32603
  const ProtocolVersion: string := "2.0"

  /**
   * An inbound message as `handleMsg` reads it with `has`/`opt` accessors:
   * `id` is present when the key is (and read as an int); `result` is absent
   * only when the key is (an explicit JSON null is `Some(Null)`); `methodName` is
   * the empty string when absent; `params` and `error` are present only when
   * the field holds a JSON object.
   */
  datatype Inbound = Inbound(
    id: Option<int>,
    result: Option<Value>,
    methodName: string,
    params: Option<JsonObject>,
    error: Option<JsonObject>)

  /**
   * The outcome of reflectively calling an exposed method: its return value
   * (`None` for a Kotlin null or a Unit method); an exception the method
   * itself raised, which `Method.invoke` wraps in an
   * `InvocationTargetException` whose own message is null, so that the
   * cause's message never reaches the catch; or a failure of the reflective
   * call itself (a wrong argument count, say), whose message may be null.
   */
  datatype Invocation =
    | Returned(value: Option<Value>)
    | Raised(cause: Option<string>)
    | Refused(message: Option<string>)

  /** An exposed method: its effect on the device is opaque, its outcome is not. */
  type Handler = Option<JsonObject> -> Invocation

  /** Identities of the callback and subscriber lambdas handed to the runtime. */
  datatype Callback = Callback(handle: nat)
  datatype Subscriber = Subscriber(handle: nat)

  /** What an outbound call's callback is invoked with: `Result.success` or `Result.failure`. */
  datatype CallResult = Success(result: Value) | Failure(error: JsonObject)

  /** An error member of an outgoing reply. */
  datatype ErrorBody = ErrorBody(code: int, message: string)

  /**
   * An outgoing JSON object, restricted to the keys the peer ever writes;
   * `None` is an absent key.
   */
  datatype Envelope = Envelope(
    jsonrpc: Option<string>,
    id: Option<int>,
    methodName: Option<string>,
    params: Option<Value>,
    result: Option<Value>,
    error: Option<ErrorBody>)

  const Blank := Envelope(None, None, None, None, None, None)

  predicate Stamped(e: Envelope)
  {
    e.jsonrpc == Some(ProtocolVersion)
  }

  /** `sendToDevTools` puts the version key into the object before sending it. */
  function Stamp(e: Envelope): (r: Envelope)
    ensures Stamped(r)
    ensures r.(jsonrpc := e.jsonrpc) == e
  {
    e.(jsonrpc := Some(ProtocolVersion))
  }

  /** What reaches the socket when an object is sent: nothing while no socket is open. */
  function Emitted(open: bool, e: Envelope): seq<Envelope>
  {
    if open then [Stamp(e)] else []
  }

  function RequestObject(methodName: string, params: JsonObject, id: int): Envelope
  {
    Blank.(methodName := Some(methodName), params := Some(Obj(params)), id := Some(id))
  }

  function NoticeObject(eventName: string, params: seq<Value>): Envelope
  {
    Blank.(methodName := Some(eventName), params := Some(Arr(params)))
  }

  /** The reply to inbound request `id` naming `name`, given the method table. */
  function InvokeReply(methods: map<string, Handler>, id: int, name: string, params: Option<JsonObject>): (r: Envelope)
    ensures r.id == Some(id) && r.methodName.None? && r.params.None? && r.jsonrpc.None?
    ensures r.result.Some? != r.error.Some?
    ensures r.result.Some? <==> name in methods && methods[name](params).Returned?
    ensures name in methods && methods[name](params) == Returned(None) ==> r.result == Some(Null)
    ensures name in methods && methods[name](params).Returned? && methods[name](params).value.Some? ==>
      r.result == methods[name](params).value
    ensures name !in methods ==>
      r.error == Some(ErrorBody(ErrorCodeMethodNotFound, "Method not found: " + name))
    ensures name in methods && methods[name](params).Raised? ==>
      r.error == Some(ErrorBody(ErrorCodeInternalError, "Internal error"))
    ensures name in methods && methods[name](params) == Refused(None) ==>
      r.error == Some(ErrorBody(ErrorCodeInternalError, "Internal error"))
    ensures name in methods && methods[name](params).Refused? && methods[name](params).message.Some? ==>
      r.error == Some(ErrorBody(ErrorCodeInternalError, methods[name](params).message.value))
  {
    if name !in methods then
      Blank.(id := Some(id), error := Some(ErrorBody(ErrorCodeMethodNotFound, "Method not found: " + name)))
    else
      match methods[name](params)
      case Returned(v) => Blank.(id := Some(id), result := Some(if v.Some? then v.value else Null))
      case Raised(_) => Blank.(id := Some(id), error := Some(ErrorBody(ErrorCodeInternalError, "Internal error")))
      case Refused(m) =>
        Blank.(id := Some(id), error := Some(ErrorBody(ErrorCodeInternalError, if m.Some? then m.value else "Internal error")))
  }

  /** The callback invocation a result/error message causes, given the pending callbacks:
    * success when `result` is present (checked first), failure otherwise. */
  function ReplySettlement(callbacks: map<int, Callback>, msg: Inbound): (r: seq<(Callback, CallResult)>)
    requires msg.id.Some?
    requires msg.result.Some? || msg.error.Some?
    ensures |r| == (if msg.id.value in callbacks then 1 else 0)
    ensures |r| == 1 ==> r[0].0 == callbacks[msg.id.value]
    ensures |r| == 1 && msg.result.Some? ==> r[0].1 == Success(msg.result.value)
    ensures |r| == 1 && msg.result.None? ==> r[0].1 == Failure(msg.error.value)
  {
    if msg.id.value !in callbacks then []
    else if msg.result.Some? then [(callbacks[msg.id.value], Success(msg.result.value))]
    else [(callbacks[msg.id.value], Failure(msg.error.value))]
  }

  /**
   * The ids whose callbacks fire when result/error messages with ids `replies`
   * arrive in order while the ids in `pending` have callbacks: each id fires
   * at most once, and only if it was pending and some reply carries it,
   * because every reply removes its id whether or not it found a callback.
   */
  function SettledIds(pending: set<int>, replies: seq<int>): (r: seq<int>)
    ensures forall i, j :: 0 <= i < j < |r| ==> r[i] != r[j]
    ensures forall k :: k in r <==> k in pending && k in replies
  {
    if replies == [] then []
    else if replies[0] in pending then [replies[0]] + SettledIds(pending - {replies[0]}, replies[1..])
    else SettledIds(pending, replies[1..])
  }

  /** A message that `HandleMsg` treats as the reply to one of the peer's calls. */
  predicate IsReplyMessage(msg: Inbound)
  {
    msg.id.Some? && (msg.result.Some? || msg.error.Some?)
  }

  /**
   * The callback invocations that replies `msgs` cause when they arrive in
   * order: each settles by `ReplySettlement` against the callbacks still
   * stored and then forgets its id. By the contract of `HandleMsg`, this is
   * what successive calls append to `settled`.
   */
  function ReplayReplies(callbacks: map<int, Callback>, msgs: seq<Inbound>): seq<(Callback, CallResult)>
    requires forall i :: 0 <= i < |msgs| ==> IsReplyMessage(msgs[i])
  {
    if msgs == [] then []
    else
      assert IsReplyMessage(msgs[0]);
      ReplySettlement(callbacks, msgs[0]) + ReplayReplies(callbacks - {msgs[0].id.value}, msgs[1..])
  }

  function ReplyIdsOf(msgs: seq<Inbound>): seq<int>
    requires forall i :: 0 <= i < |msgs| ==> IsReplyMessage(msgs[i])
  {
    if msgs == [] then []
    else
      assert IsReplyMessage(msgs[0]);
      [msgs[0].id.value] + ReplyIdsOf(msgs[1..])
  }

  /** The peer fires, in order, exactly the callbacks of the ids `SettledIds` names: each at most once. */
  lemma {:induction false} ReplayFiresSettledIds(callbacks: map<int, Callback>, msgs: seq<Inbound>)
    requires forall i :: 0 <= i < |msgs| ==> IsReplyMessage(msgs[i])
    ensures var r := ReplayReplies(callbacks, msgs);
      var ids := SettledIds(callbacks.Keys, ReplyIdsOf(msgs));
      && |r| == |ids|
      && forall i :: 0 <= i < |r| ==> ids[i] in callbacks && r[i].0 == callbacks[ids[i]]
  {
    if msgs != [] {
      assert IsReplyMessage(msgs[0]);
      var k := msgs[0].id.value;
      var rest := msgs[1..];
      var left := callbacks - {k};
      ReplayFiresSettledIds(left, rest);
      var r := ReplayReplies(callbacks, msgs);
      var ids := SettledIds(callbacks.Keys, ReplyIdsOf(msgs));
      var r' := ReplayReplies(left, rest);
      var ids' := SettledIds(left.Keys, ReplyIdsOf(rest));
      assert ReplyIdsOf(msgs) == [k] + ReplyIdsOf(rest);
      assert left.Keys == callbacks.Keys - {k};
      if k in callbacks {
        var first := ReplySettlement(callbacks, msgs[0]);
        assert |first| == 1 && first[0].0 == callbacks[k];
        assert r == first + r';
        assert ids == [k] + ids';
        forall i | 0 <= i < |r|
          ensures ids[i] in callbacks && r[i].0 == callbacks[ids[i]]
        {
          if i > 0 {
            assert r[i] == r'[i - 1] && ids[i] == ids'[i - 1];
            assert ids'[i - 1] in left;
          }
        }
      } else {
        assert left == callbacks;
        assert ReplySettlement(callbacks, msgs[0]) == [];
        assert r == r';
      }
    }
  }

  /** The method table after registering `entries` in order, first registration of a name winning. */
  function Registered(m: map<string, Handler>, entries: seq<(string, Handler)>): map<string, Handler>
    decreases |entries|
  {
    if entries == [] then m
    else
      var prior := Registered(m, entries[..|entries| - 1]);
      var last := entries[|entries| - 1];
      if last.0 in prior then prior else prior[last.0 := last.1]
  }

  function Names(entries: seq<(string, Handler)>): set<string>
  {
    set i | 0 <= i < |entries| :: entries[i].0
  }

  lemma {:induction false} RegisteredKeys(m: map<string, Handler>, entries: seq<(string, Handler)>)
    ensures Registered(m, entries).Keys == m.Keys + Names(entries)
    decreases |entries|
  {
    if entries != [] {
      var init := entries[..|entries| - 1];
      RegisteredKeys(m, init);
      assert Names(entries) == Names(init) + {entries[|entries| - 1].0} by {
        forall n | n in Names(entries) ensures n in Names(init) + {entries[|entries| - 1].0} {
          var i :| 0 <= i < |entries| && entries[i].0 == n;
          if i < |entries| - 1 { assert init[i] == entries[i]; }
        }
        forall n | n in Names(init) ensures n in Names(entries) {
          var i :| 0 <= i < |init| && init[i].0 == n;
          assert entries[i] == init[i];
        }
      }
    }
  }

  /** A name already in the table keeps its handler whatever is registered later. */
  lemma {:induction false} RegisterKeepsExisting(m: map<string, Handler>, entries: seq<(string, Handler)>, k: string)
    requires k in m
    ensures k in Registered(m, entries) && Registered(m, entries)[k] == m[k]
    decreases |entries|
  {
    if entries != [] {
      RegisterKeepsExisting(m, entries[..|entries| - 1], k);
    }
  }

  /** A new name gets the handler of its first registration; later ones are ignored. */
  lemma {:induction false} RegisterFirstWins(m: map<string, Handler>, entries: seq<(string, Handler)>, i: nat)
    requires i < |entries| && entries[i].0 !in m
    requires forall j :: 0 <= j < i ==> entries[j].0 != entries[i].0
    ensures entries[i].0 in Registered(m, entries) && Registered(m, entries)[entries[i].0] == entries[i].1
    decreases |entries|
  {
    var init := entries[..|entries| - 1];
    if i == |entries| - 1 {
      RegisteredKeys(m, init);
      assert entries[i].0 !in Names(init) by {
        forall j | 0 <= j < |init| ensures init[j].0 != entries[i].0 {
          assert init[j] == entries[j];
        }
      }
    } else {
      forall j | 0 <= j < i ensures init[j].0 != init[i].0 {
        assert init[j] == entries[j];
      }
      RegisterFirstWins(m, init, i);
    }
  }

  function RemoveFirst(s: seq<Subscriber>, x: Subscriber): seq<Subscriber>
  {
    if s == [] then []
    else if s[0] == x then s[1..]
    else [s[0]] + RemoveFirst(s[1..], x)
  }

  function IndexOf(s: seq<Subscriber>, x: Subscriber): (i: nat)
    requires x in s
    ensures i < |s| && s[i] == x && x !in s[..i]
  {
    if s[0] == x then 0
    else
      var j := IndexOf(s[1..], x);
      assert s[..j + 1] == [s[0]] + s[1..][..j];
      j + 1
  }

  /** Unsubscribing removes exactly the first occurrence and keeps the order of the rest. */
  lemma {:induction false} RemoveFirstAt(s: seq<Subscriber>, x: Subscriber)
    requires x in s
    ensures RemoveFirst(s, x) == s[..IndexOf(s, x)] + s[IndexOf(s, x) + 1..]
  {
    if s[0] != x {
      var t := s[1..];
      var k := IndexOf(t, x);
      assert IndexOf(s, x) == k + 1;
      RemoveFirstAt(t, x);
      assert t[k + 1..] == s[k + 2..];
      assert [s[0]] + t[..k] == s[..k + 1];
      AppendAssoc([s[0]], t[..k], t[k + 1..]);
    }
  }

  /** Unsubscribing a subscriber that is not in the list changes nothing. */
  lemma {:induction false} RemoveAbsent(s: seq<Subscriber>, x: Subscriber)
    requires x !in s
    ensures RemoveFirst(s, x) == s
  {
    if s != [] {
      RemoveAbsent(s[1..], x);
      assert [s[0]] + s[1..] == s;
    }
  }

  lemma {:induction false} RemoveFirstMultiset(s: seq<Subscriber>, x: Subscriber)
    ensures multiset(RemoveFirst(s, x)) == multiset(s) - multiset{x}
  {
    if s != [] {
      assert s == [s[0]] + s[1..];
      if s[0] != x {
        RemoveFirstMultiset(s[1..], x);
      }
    }
  }

  /** The subscriber invocations of one notification, in list order. */
  function Deliveries(subs: seq<Subscriber>, eventName: string, params: Option<JsonObject>)
    : (r: seq<(Subscriber, string, Option<JsonObject>)>)
    ensures |r| == |subs|
    ensures forall i :: 0 <= i < |subs| ==> r[i] == (subs[i], eventName, params)
  {
    if subs == [] then [] else [(subs[0], eventName, params)] + Deliveries(subs[1..], eventName, params)
  }

  lemma DeliveriesStep(d0: seq<(Subscriber, string, Option<JsonObject>)>, subs: seq<Subscriber>, i: nat,
                       eventName: string, params: Option<JsonObject>)
    requires i < |subs|
    ensures d0 + Deliveries(subs[..i + 1], eventName, params)
         == (d0 + Deliveries(subs[..i], eventName, params)) + [(subs[i], eventName, params)]
  {
    var l := Deliveries(subs[..i + 1], eventName, params);
    var r := Deliveries(subs[..i], eventName, params) + [(subs[i], eventName, params)];
    assert |l| == |r|;
    forall j | 0 <= j < |l| ensures l[j] == r[j] {
      assert subs[..i + 1][j] == subs[j];
    }
    AppendAssoc(d0, Deliveries(subs[..i], eventName, params), [(subs[i], eventName, params)]);
  }

  function RegisterRequest(name: string, id: int): Envelope
  {
    Stamp(RequestObject("registerMethod", map["name" := Str(name)], id))
  }

  /** The registerMethod requests `onOpen` sends for the table's names in `order`, ids from `firstId`. */
  function RegisterRequests(order: seq<string>, firstId: int): seq<Envelope>
    decreases |order|
  {
    if order == [] then []
    else RegisterRequests(order[..|order| - 1], firstId) + [RegisterRequest(order[|order| - 1], firstId + |order| - 1)]
  }

  /** One request per name, in order, with consecutive ids. */
  lemma {:induction false} RegisterRequestsAt(order: seq<string>, firstId: int)
    ensures |RegisterRequests(order, firstId)| == |order|
    ensures forall i :: 0 <= i < |order| ==> RegisterRequests(order, firstId)[i] == RegisterRequest(order[i], firstId + i)
    decreases |order|
  {
    if order != [] {
      var init := order[..|order| - 1];
      RegisterRequestsAt(init, firstId);
      forall i | 0 <= i < |init| ensures order[i] == init[i] { }
    }
  }

  lemma RegisterRequestsSnoc(order: seq<string>, name: string, firstId: int)
    ensures RegisterRequests(order + [name], firstId)
      == RegisterRequests(order, firstId) + [RegisterRequest(name, firstId + |order|)]
  {
    assert (order + [name])[..|order|] == order;
  }

  /** The no-op callbacks `onOpen` stores under the ids it allocates. */
  function NoopRange(lo: int, hi: int, noop: Callback): map<int, Callback>
    decreases hi - lo
  {
    if hi < lo then map[] else NoopRange(lo, hi - 1, noop)[hi := noop]
  }

  /** The ids `lo..hi`, each holding the no-op callback. */
  lemma {:induction false} NoopRangeContents(lo: int, hi: int, noop: Callback, id: int)
    ensures id in NoopRange(lo, hi, noop) <==> lo <= id <= hi
    ensures id in NoopRange(lo, hi, noop) ==> NoopRange(lo, hi, noop)[id] == noop
    decreases hi - lo
  {
    if lo <= hi {
      NoopRangeContents(lo, hi - 1, noop, id);
    }
  }

  lemma NoopRangeSnoc(m: map<int, Callback>, lo: int, hi: int, noop: Callback)
    requires lo <= hi + 1
    ensures (m + NoopRange(lo, hi, noop))[hi + 1 := noop] == m + NoopRange(lo, hi + 1, noop)
  {
    assert NoopRange(lo, hi + 1, noop) == NoopRange(lo, hi, noop)[hi + 1 := noop];
  }

  function IntroduceRequest(id: int): Envelope
  {
    Stamp(RequestObject("introduce", map["name" := Str("android")], id))
  }

  /** Some iteration order of a finite set of names: each exactly once. */
  method IterationOrder(keys: set<string>) returns (order: seq<string>)
    ensures forall i, j :: 0 <= i < j < |order| ==> order[i] != order[j]
    ensures forall n :: n in order <==> n in keys
  {
    var remaining := keys;
    order := [];
    while remaining != {}
      invariant forall n :: n in keys <==> n in remaining || n in order
      invariant forall n :: n in order ==> n !in remaining
      invariant forall i, j :: 0 <= i < j < |order| ==> order[i] != order[j]
      decreases remaining
    {
      var name :| name in remaining;
      order := order + [name];
      remaining := remaining - {name};
    }
  }

  class Peer {
    /** Whether `curWs` holds an open socket; sends are dropped otherwise. */
    var open: bool
    var invokeId: int
    var callbackMap: map<int, Callback>
    var methodMap: map<string, Handler>
    var subscriberMap: map<string, seq<Subscriber>>
    /** The objects handed to the socket, in order. */
    var outbox: seq<Envelope>
    /** Callback invocations, in order. */
    var settled: seq<(Callback, CallResult)>
    /** Subscriber invocations, in order. */
    var delivered: seq<(Subscriber, string, Option<JsonObject>)>

    ghost predicate Valid()
      reads this
    {
      && invokeId >= 0
      && (forall id :: id in callbackMap ==> 1 <= id <= invokeId)
      && (forall i :: 0 <= i < |outbox| ==> Stamped(outbox[i]))
    }

    constructor ()
      ensures Valid() && !open && invokeId == 0
      ensures callbackMap == map[] && methodMap == map[] && subscriberMap == map[]
      ensures outbox == [] && settled == [] && delivered == []
    {
      open := false;
      invokeId := 0;
      callbackMap := map[];
      methodMap := map[];
      subscriberMap := map[];
      outbox := [];
      settled := [];
      delivered := [];
    }

    method SendToDevTools(o: Envelope)
      requires Valid()
      modifies this`outbox
      ensures Valid()
      ensures outbox == old(outbox) + Emitted(open, o)
    {
      var stamped := o.(jsonrpc := Some(ProtocolVersion));
      if open {
        outbox := outbox + [stamped];
      }
    }

    /** An outbound call: a fresh id above every earlier one, the callback stored under it, then the request sent. */
    method InvokeDevTools(methodName: string, params: JsonObject, callback: Callback) returns (id: int)
      requires Valid()
      modifies this`invokeId, this`callbackMap, this`outbox
      ensures Valid()
      ensures id == old(invokeId) + 1 && invokeId == id
      ensures id !in old(callbackMap) && callbackMap == old(callbackMap)[id := callback]
      ensures outbox == old(outbox) + Emitted(open, RequestObject(methodName, params, id))
    {
      invokeId := invokeId + 1;
      id := invokeId;
      callbackMap := callbackMap[id := callback];
      SendToDevTools(RequestObject(methodName, params, id));
    }

    method NoticeDevTools(eventName: string, params: seq<Value>)
      requires Valid()
      modifies this`outbox
      ensures Valid()
      ensures outbox == old(outbox) + Emitted(open, NoticeObject(eventName, params))
    {
      var arr: seq<Value> := [];
      for i := 0 to |params|
        invariant arr == params[..i]
      {
        arr := arr + [params[i]];
      }
      assert params[..|params|] == params;
      SendToDevTools(Blank.(methodName := Some(eventName), params := Some(Arr(arr))));
    }

    /**
     * The socket opened: introduce as "android", then one registerMethod per
     * table entry, in the table's (unspecified) iteration order `order`. The
     * two empty lambdas of `onOpen` capture nothing, so each is one object:
     * `introduced` for the introduction, `registered` for every registration.
     */
    method OnOpen(introduced: Callback, registered: Callback) returns (ghost order: seq<string>)
      requires Valid()
      modifies this`open, this`invokeId, this`callbackMap, this`outbox
      ensures Valid() && open
      ensures forall i, j :: 0 <= i < j < |order| ==> order[i] != order[j]
      ensures forall n :: n in order <==> n in methodMap
      ensures invokeId == old(invokeId) + 1 + |order|
      ensures outbox == old(outbox) + [IntroduceRequest(old(invokeId) + 1)]
                                    + RegisterRequests(order, old(invokeId) + 2)
      ensures callbackMap == old(callbackMap)[old(invokeId) + 1 := introduced]
                             + NoopRange(old(invokeId) + 2, invokeId, registered)
    {
      open := true;
      var first := InvokeDevTools("introduce", map["name" := Str("android")], introduced);
      order := AnnounceMethods(registered);
    }

    /** The `methodMap.forEach` of `onOpen`: one registerMethod request per table entry,
      * in the map's iteration order. */
    method AnnounceMethods(noop: Callback) returns (ghost order: seq<string>)
      requires Valid() && open
      modifies this`invokeId, this`callbackMap, this`outbox
      ensures Valid()
      ensures forall i, j :: 0 <= i < j < |order| ==> order[i] != order[j]
      ensures forall n :: n in order <==> n in methodMap
      ensures invokeId == old(invokeId) + |order|
      ensures outbox == old(outbox) + RegisterRequests(order, old(invokeId) + 1)
      ensures callbackMap == old(callbackMap) + NoopRange(old(invokeId) + 1, invokeId, noop)
    {
      var names := IterationOrder(methodMap.Keys);
      SendRegistrations(names, noop);
      order := names;
    }

    /** Sends one registerMethod request per name of `names`, in order. */
    method SendRegistrations(names: seq<string>, noop: Callback)
      requires Valid() && open
      modifies this`invokeId, this`callbackMap, this`outbox
      ensures Valid()
      ensures invokeId == old(invokeId) + |names|
      ensures outbox == old(outbox) + RegisterRequests(names, old(invokeId) + 1)
      ensures callbackMap == old(callbackMap) + NoopRange(old(invokeId) + 1, invokeId, noop)
    {
      ghost var id0, out0, cm0 := invokeId, outbox, callbackMap;
      for i := 0 to |names|
        invariant Valid() && open
        invariant invokeId == id0 + i
        invariant outbox == out0 + RegisterRequests(names[..i], id0 + 1)
        invariant callbackMap == cm0 + NoopRange(id0 + 1, invokeId, noop)
      {
        RegisterNext(names[..i], names[i], noop, id0, out0, cm0);
        assert names[..i + 1] == names[..i] + [names[i]];
      }
      assert names[..|names|] == names;
    }

    /** One step of `SendRegistrations`: the request for `name` after those for `done`. */
    method RegisterNext(done: seq<string>, name: string, noop: Callback,
                        ghost id0: int, ghost out0: seq<Envelope>, ghost cm0: map<int, Callback>)
      requires Valid() && open
      requires invokeId == id0 + |done|
      requires outbox == out0 + RegisterRequests(done, id0 + 1)
      requires callbackMap == cm0 + NoopRange(id0 + 1, invokeId, noop)
      modifies this`invokeId, this`callbackMap, this`outbox
      ensures Valid()
      ensures invokeId == id0 + |done| + 1
      ensures outbox == out0 + RegisterRequests(done + [name], id0 + 1)
      ensures callbackMap == cm0 + NoopRange(id0 + 1, invokeId, noop)
    {
      NoopRangeSnoc(cm0, id0 + 1, invokeId, noop);
      RegisterRequestsSnoc(done, name, id0 + 1);
      AppendAssoc(out0, RegisterRequests(done, id0 + 1), [RegisterRequest(name, invokeId + 1)]);
      var id := InvokeDevTools("registerMethod", map["name" := Str(name)], noop);
    }

    /** Answers inbound request `id` from the method table: exactly one reply carrying that id. */
    method InvokeClient(id: int, methodName: string, params: Option<JsonObject>)
      requires Valid()
      modifies this`outbox
      ensures Valid()
      ensures outbox == old(outbox) + Emitted(open, InvokeReply(methodMap, id, methodName, params))
    {
      var invokeResult: Option<Value> := None;
      var invoked := false;
      var invokeErrorCode := ErrorCodeMethodNotFound;
      var invokeErrorMessage := "Method not found: " + methodName;
      if methodName in methodMap {
        match methodMap[methodName](params)
        case Returned(v) =>
          invokeResult := v;
          invoked := true;
        case Raised(_) =>
          // the wrapper's message, which is null
          invokeErrorCode := ErrorCodeInternalError;
          invokeErrorMessage := "Internal error";
        case Refused(m) =>
          invokeErrorCode := ErrorCodeInternalError;
          invokeErrorMessage := if m.Some? then m.value else "Internal error";
      }
      var reply := Blank.(id := Some(id));
      if invoked {
        reply := reply.(result := Some(if invokeResult.None? then Null else invokeResult.value));
      } else {
        reply := reply.(error := Some(ErrorBody(invokeErrorCode, invokeErrorMessage)));
      }
      assert reply == InvokeReply(methodMap, id, methodName, params);
      SendToDevTools(reply);
    }

    /** Calls every subscriber of `eventName`, in list order; without subscribers nothing happens. */
    method Publish(eventName: string, params: Option<JsonObject>)
      modifies this`delivered
      ensures delivered == old(delivered) +
        (if eventName in subscriberMap then Deliveries(subscriberMap[eventName], eventName, params) else [])
    {
      if eventName in subscriberMap {
        var subs := subscriberMap[eventName];
        ghost var d0 := delivered;
        for i := 0 to |subs|
          invariant delivered == d0 + Deliveries(subs[..i], eventName, params)
        {
          DeliveriesStep(d0, subs, i, eventName, params);
          delivered := delivered + [(subs[i], eventName, params)];
        }
        assert subs[..|subs|] == subs;
      }
    }

    /**
     * One inbound message. A result or error settles the callback stored
     * under its id (if any) and forgets the id; otherwise a non-empty method
     * with an id is a request and without one a notification; anything else
     * is ignored.
     */
    method HandleMsg(msg: Inbound)
      requires Valid()
      requires msg.result.Some? || msg.error.Some? ==> msg.id.Some?
      modifies this`callbackMap, this`outbox, this`settled, this`delivered
      ensures Valid()
      ensures msg.result.Some? || msg.error.Some? ==>
        && callbackMap == old(callbackMap) - {msg.id.value}
        && settled == old(settled) + ReplySettlement(old(callbackMap), msg)
        && outbox == old(outbox) && delivered == old(delivered)
      ensures msg.result.None? && msg.error.None? && msg.methodName != "" && msg.id.Some? ==>
        && outbox == old(outbox) + Emitted(open, InvokeReply(methodMap, msg.id.value, msg.methodName, msg.params))
        && callbackMap == old(callbackMap) && settled == old(settled) && delivered == old(delivered)
      ensures msg.result.None? && msg.error.None? && msg.methodName != "" && msg.id.None? ==>
        && delivered == old(delivered) + (if msg.methodName in subscriberMap
                                          then Deliveries(subscriberMap[msg.methodName], msg.methodName, msg.params)
                                          else [])
        && callbackMap == old(callbackMap) && settled == old(settled) && outbox == old(outbox)
      ensures msg.result.None? && msg.error.None? && msg.methodName == "" ==>
        callbackMap == old(callbackMap) && settled == old(settled) && outbox == old(outbox) && delivered == old(delivered)
    {
      if msg.result.Some? || msg.error.Some? {
        var id := msg.id.value;
        if id in callbackMap {
          var callback := callbackMap[id];
          if msg.result.Some? {
            settled := settled + [(callback, Success(msg.result.value))];
          } else {
            settled := settled + [(callback, Failure(msg.error.value))];
          }
        }
        callbackMap := callbackMap - {id};
      } else if msg.methodName != "" {
        if msg.id.Some? {
          InvokeClient(msg.id.value, msg.methodName, msg.params);
        } else {
          Publish(msg.methodName, msg.params);
        }
      }
    }

    /** Registers (name, handler) pairs in order; a name already present keeps its first handler. */
    method RegisterModule(entries: seq<(string, Handler)>)
      modifies this`methodMap
      ensures methodMap == Registered(old(methodMap), entries)
    {
      for i := 0 to |entries|
        invariant methodMap == Registered(old(methodMap), entries[..i])
      {
        assert entries[..i + 1][..i] == entries[..i];
        var name := entries[i].0;
        if name in methodMap {
          // logged: the existing method is kept
        } else {
          methodMap := methodMap[name := entries[i].1];
        }
      }
      assert entries[..|entries|] == entries;
    }

    method SubscribeDevToolsNotification(eventName: string, subscriber: Subscriber)
      modifies this`subscriberMap
      ensures subscriberMap == old(subscriberMap)[eventName :=
        (if eventName in old(subscriberMap) then old(subscriberMap)[eventName] else []) + [subscriber]]
    {
      if eventName !in subscriberMap {
        subscriberMap := subscriberMap[eventName := []];
      }
      subscriberMap := subscriberMap[eventName := subscriberMap[eventName] + [subscriber]];
    }

    method UnsubscribeDevToolsNotification(eventName: string, subscriber: Subscriber)
      modifies this`subscriberMap
      ensures eventName in old(subscriberMap) ==>
        subscriberMap == old(subscriberMap)[eventName := RemoveFirst(old(subscriberMap)[eventName], subscriber)]
      ensures eventName !in old(subscriberMap) ==> subscriberMap == old(subscriberMap)
    {
      if eventName in subscriberMap {
        var subs := subscriberMap[eventName];
        var kept: seq<Subscriber> := [];
        var i := 0;
        while i < |subs| && subs[i] != subscriber
          invariant 0 <= i <= |subs|
          invariant kept == subs[..i] && subscriber !in kept
        {
          kept := kept + [subs[i]];
          i := i + 1;
        }
        if i < |subs| {
          kept := kept + subs[i + 1..];
          RemoveFirstAt(subs, subscriber);
          assert IndexOf(subs, subscriber) == i by {
            Unique(subs, subscriber, i, IndexOf(subs, subscriber));
          }
        } else {
          assert subs[..i] == subs;
          RemoveAbsent(subs, subscriber);
        }
        subscriberMap := subscriberMap[eventName := kept];
      }
    }
  }

  lemma AppendAssoc<T>(a: seq<T>, b: seq<T>, c: seq<T>)
    ensures (a + b) + c == a + (b + c)
  {
  }

  /** Two positions of `x` neither of which has an earlier `x` are the same position. */
  lemma Unique(s: seq<Subscriber>, x: Subscriber, i: nat, j: nat)
    requires i < |s| && j < |s| && s[i] == x && s[j] == x
    requires x !in s[..i] && x !in s[..j]
    ensures i == j
  {
  }
}
