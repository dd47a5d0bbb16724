/**
 * The outbound-call correlator of the JavaScript side (`jsonRpcInvoke` and
 * `jsonRpcNotice`): a module-wide id counter, and for every call a message
 * listener on its connection racing a ten-second timer.
 *
 * Real time and the promise machinery are replaced by explicit events: a
 * decoded message arriving on a connection, or the clock reaching a given
 * millisecond. A call's state is settled by the first event that concerns
 * it, and its listener is detached when it settles.
 */
module JsCorrelator {
  import opened Wrappers
  import opened Json
  import opened JsWire

  /** The delay of `timeoutReject`, in milliseconds. */
  const TimeoutMs: int := 10000

  const TimeoutMessage: string := "timeout"
  const UnexpectedPrefix: string := "unexpected response "

  /** Why a call's promise was rejected. */
  datatype Rejection =
    | RemoteError(error: ErrorValue)   // an error payload with the call's id, rethrown as a `JsonRpcError`
    | Unexpected(message: string)      // any other well-formed message on the connection
    | Unparsable                       // text `parse` refuses; the library's exception is the reason
    | Timeout                          // `timeoutReject` fired first

  datatype CallState = Pending | Resolved(result: Value) | Rejected(reason: Rejection)

  datatype Call = Call(conn: Conn, methodName: string, params: Option<Value>, deadline: int, state: CallState)

  datatype Event =
    | Message(on: Conn, data: Decoded)
    | Tick(now: int)

  /**
   * How a parsed message prints inside a template string: a payload is a
   * plain object, a batch an array of them joined by commas.
   */
  function ObjectsText(n: nat): string
  {
    if n == 0 then "" else if n == 1 then "[object Object]" else ObjectsText(n - 1) + ",[object Object]"
  }

  function UnexpectedMessage(d: Decoded): string
  {
    match d
    case Batch(ps) => UnexpectedPrefix + ObjectsText(|ps|)
    case _ => UnexpectedPrefix + ObjectsText(1)
  }

  /** What the listener of call `id` does with a message on its connection: it always settles the call. */
  function Heard(id: nat, d: Decoded): (r: CallState)
    ensures !r.Pending?
    ensures r.Resolved? <==> d.Single? && d.payload.Response? && d.payload.id == Num(id)
    ensures r.Resolved? ==> r.result == d.payload.result
    ensures r.Rejected? && r.reason.RemoteError? <==> d.Single? && d.payload.ErrorReply? && d.payload.id == Num(id)
    ensures r.Rejected? && r.reason.RemoteError? ==> r.reason.error == d.payload.error
    ensures r == Rejected(Unparsable) <==> d.Unreadable?
    ensures r.Rejected? && !r.reason.RemoteError? && !d.Unreadable? ==> r.reason == Unexpected(UnexpectedMessage(d))
  {
    match d
    case Unreadable => Rejected(Unparsable)
    case Batch(_) => Rejected(Unexpected(UnexpectedMessage(d)))
    case Single(p) =>
      if p.Response? && p.id == Num(id) then Resolved(p.result)
      else if p.ErrorReply? && p.id == Num(id) then Rejected(RemoteError(p.error))
      else Rejected(Unexpected(UnexpectedMessage(d)))
  }

  /** The state of call `id` after event `e`: a settled call never changes again. */
  function Step(c: Call, id: nat, e: Event): CallState
  {
    if !c.state.Pending? then c.state
    else
      match e
      case Message(on, d) => if on == c.conn then Heard(id, d) else Pending
      case Tick(now) => if c.deadline <= now then Rejected(Timeout) else Pending
  }

  /** The state of call `id` after the events `es`, in order. */
  function Run(c: Call, id: nat, es: seq<Event>): CallState
  {
    if es == [] then c.state
    else Step(c.(state := Run(c, id, es[..|es| - 1])), id, es[|es| - 1])
  }

  /** Once settled, a call keeps its outcome whatever arrives later. */
  lemma {:induction false} SettledStays(c: Call, id: nat, es: seq<Event>, k: nat)
    requires k <= |es|
    requires !Run(c, id, es[..k]).Pending?
    ensures Run(c, id, es) == Run(c, id, es[..k])
  {
    if k < |es| {
      var init := es[..|es| - 1];
      assert es[..k] == init[..k];
      SettledStays(c, id, init, k);
      assert es[..|es|] == es;
    } else {
      assert es[..k] == es;
    }
  }

  /** The first event that settles a pending call decides its outcome. */
  lemma FirstSettlementDecides(c: Call, id: nat, es: seq<Event>, k: nat)
    requires c.state == Pending && k < |es|
    requires Run(c, id, es[..k]) == Pending
    requires !Step(c, id, es[k]).Pending?
    ensures Run(c, id, es) == Step(c, id, es[k])
  {
    var pre := es[..k + 1];
    assert pre[..|pre| - 1] == es[..k];
    assert c.(state := Pending) == c;
    SettledStays(c, id, es, k + 1);
  }

  /** Events elsewhere, and ticks before the deadline, leave a pending call pending. */
  lemma {:induction false} QuietKeepsPending(c: Call, id: nat, es: seq<Event>)
    requires c.state == Pending
    requires forall j :: 0 <= j < |es| ==> !(es[j].Message? && es[j].on == c.conn)
    requires forall j :: 0 <= j < |es| ==> es[j].Tick? ==> es[j].now < c.deadline
    ensures Run(c, id, es) == Pending
  {
    if es != [] {
      var init := es[..|es| - 1];
      QuietKeepsPending(c, id, init);
    }
  }

  /** A call that hears nothing on its connection is rejected by the first tick at or past its deadline. */
  lemma SilentCallTimesOut(c: Call, id: nat, es: seq<Event>, k: nat)
    requires c.state == Pending && k < |es|
    requires forall j :: 0 <= j < k ==> !(es[j].Message? && es[j].on == c.conn)
    requires forall j :: 0 <= j < k ==> es[j].Tick? ==> es[j].now < c.deadline
    requires es[k].Tick? && c.deadline <= es[k].now
    ensures Run(c, id, es) == Rejected(Timeout)
  {
    QuietKeepsPending(c, id, es[..k]);
    FirstSettlementDecides(c, id, es, k);
  }

  /**
   * Two calls pending on one connection are not told apart: the reply to one
   * resolves it and rejects the other as an unexpected response.
   */
  lemma CrossTalk(a: Call, i: nat, b: Call, j: nat, v: Value)
    requires a.state == Pending && b.state == Pending && a.conn == b.conn && i != j
    ensures Step(a, i, Message(a.conn, Single(Response(Num(i), v)))) == Resolved(v)
    ensures Step(b, j, Message(a.conn, Single(Response(Num(i), v)))) == Rejected(Unexpected(UnexpectedPrefix + "[object Object]"))
  {
  }

  /** The detach events of the calls below `n` that event `e` settles, in id order. */
  function Released(calls: map<nat, Call>, e: Event, n: nat): seq<NetEvent>
  {
    if n == 0 then []
    else
      var id := n - 1;
      Released(calls, e, id) +
        (if id in calls && calls[id].state.Pending? && !Step(calls[id], id, e).Pending?
         then [Unlisten(calls[id].conn, id)] else [])
  }

  /** `calls` after the calls below `n` have heard event `e`. */
  function Advanced(calls: map<nat, Call>, e: Event, n: nat): map<nat, Call>
  {
    map j | j in calls :: if j < n then calls[j].(state := Step(calls[j], j, e)) else calls[j]
  }

  lemma AdvancedStep(calls: map<nat, Call>, e: Event, n: nat)
    ensures n !in calls ==> Advanced(calls, e, n + 1) == Advanced(calls, e, n)
    ensures n in calls ==> Advanced(calls, e, n + 1) == Advanced(calls, e, n)[n := calls[n].(state := Step(calls[n], n, e))]
    ensures n in calls ==> Advanced(calls, e, n)[n] == calls[n]
  {
  }

  /** Once every id is below `n`, each call has taken exactly one step. */
  lemma AdvancedAll(calls: map<nat, Call>, e: Event, n: nat)
    requires forall j :: j in calls ==> j < n
    ensures Advanced(calls, e, n).Keys == calls.Keys
    ensures forall j :: j in calls ==> Advanced(calls, e, n)[j].state == Step(calls[j], j, e)
  {
  }

  /** The listeners the calls of `calls` still need: one per pending call. */
  function PendingListeners(calls: map<nat, Call>): set<(Conn, nat)>
  {
    set id | id in calls && calls[id].state.Pending? :: (calls[id].conn, id)
  }

  lemma PendingListenersAdd(calls: map<nat, Call>, id: nat, c: Call)
    requires id !in calls && c.state == Pending
    ensures PendingListeners(calls[id := c]) == PendingListeners(calls) + {(c.conn, id)}
  {
    var after := calls[id := c];
    forall x | x in PendingListeners(after) ensures x in PendingListeners(calls) + {(c.conn, id)} {
      var j :| j in after && after[j].state.Pending? && x == (after[j].conn, j);
      if j != id {
        assert j in calls && calls[j] == after[j];
      }
    }
    forall x | x in PendingListeners(calls) ensures x in PendingListeners(after) {
      var j :| j in calls && calls[j].state.Pending? && x == (calls[j].conn, j);
      assert after[j] == calls[j];
    }
    assert after[id] == c;
  }

  lemma PendingListenersSettle(calls: map<nat, Call>, id: nat, s: CallState)
    requires id in calls && calls[id].state == Pending && !s.Pending?
    ensures PendingListeners(calls[id := calls[id].(state := s)]) == PendingListeners(calls) - {(calls[id].conn, id)}
  {
    var after := calls[id := calls[id].(state := s)];
    forall x | x in PendingListeners(after) ensures x in PendingListeners(calls) - {(calls[id].conn, id)} {
      var j :| j in after && after[j].state.Pending? && x == (after[j].conn, j);
      assert j != id && calls[j] == after[j];
    }
    forall x | x in PendingListeners(calls) - {(calls[id].conn, id)} ensures x in PendingListeners(after) {
      var j :| j in calls && calls[j].state.Pending? && x == (calls[j].conn, j);
      assert j != id && after[j] == calls[j];
    }
  }

  /** `jsonRpcNotice`: one notification, no id, nothing awaited. */
  method Notice(net: Network, ws: Conn, methodName: string, params: Option<Value>)
    requires net.Valid()
    modifies net
    ensures net.Valid()
    ensures net.log == old(net.log) + [Sent(ws, Notification(methodName, params))]
    ensures net.listeners == old(net.listeners)
  {
    net.Send(ws, Notification(methodName, params));
  }

  class Correlator {
    /** The module-wide `rpcId` counter: the id of the next call. */
    var rpcId: nat
    var calls: map<nat, Call>

    ghost predicate Valid(net: Network)
      reads this, net
    {
      && net.Valid()
      && (forall id :: id in calls ==> id < rpcId)
      && net.listeners == PendingListeners(calls)
    }

    constructor (net: Network)
      requires net.Valid() && net.listeners == {}
      ensures Valid(net) && rpcId == 0 && calls == map[]
    {
      rpcId := 0;
      calls := map[];
    }

    /**
     * `jsonRpcInvoke`: takes the next id, attaches the call's listener, then
     * sends the request; the timer runs from `now`.
     */
    method Invoke(net: Network, ws: Conn, methodName: string, params: Option<Value>, now: int) returns (id: nat)
      requires Valid(net)
      modifies this, net
      ensures Valid(net)
      ensures id == old(rpcId) && rpcId == id + 1 && id !in old(calls)
      ensures calls == old(calls)[id := Call(ws, methodName, params, now + TimeoutMs, Pending)]
      ensures net.log == old(net.log) + [Listen(ws, id), Sent(ws, Request(Num(id), methodName, params))]
    {
      id := rpcId;
      rpcId := rpcId + 1;
      net.AddListener(ws, id);
      calls := calls[id := Call(ws, methodName, params, now + TimeoutMs, Pending)];
      PendingListenersAdd(old(calls), id, Call(ws, methodName, params, now + TimeoutMs, Pending));
      net.Send(ws, Request(Num(id), methodName, params));
    }

    /**
     * Delivers one event to every call, in id order (the order in which
     * the listeners were attached); each call it settles has its listener
     * detached.
     */
    method OnEvent(net: Network, e: Event)
      requires Valid(net)
      modifies this`calls, net
      ensures Valid(net)
      ensures calls == Advanced(old(calls), e, rpcId)
      ensures calls.Keys == old(calls).Keys
      ensures forall j :: j in old(calls) ==> calls[j].state == Step(old(calls)[j], j, e)
      ensures net.log == old(net.log) + Released(old(calls), e, rpcId)
    {
      ghost var c0 := calls;
      ghost var l0 := net.log;
      for id := 0 to rpcId
        invariant Valid(net)
        invariant calls == Advanced(c0, e, id)
        invariant net.log == l0 + Released(c0, e, id)
      {
        AdvanceOne(net, e, id, c0, l0);
      }
      AdvancedAll(c0, e, rpcId);
    }

    /** One step of `OnEvent`: call `id` hears the event. */
    method AdvanceOne(net: Network, e: Event, id: nat, ghost c0: map<nat, Call>, ghost l0: seq<NetEvent>)
      requires Valid(net)
      requires calls == Advanced(c0, e, id)
      requires net.log == l0 + Released(c0, e, id)
      modifies this`calls, net
      ensures Valid(net)
      ensures calls == Advanced(c0, e, id + 1)
      ensures net.log == l0 + Released(c0, e, id + 1)
    {
      AdvancedStep(c0, e, id);
      if id in calls && calls[id].state.Pending? {
        var c := calls[id];
        var s := Step(c, id, e);
        if !s.Pending? {
          PendingListenersSettle(calls, id, s);
          calls := calls[id := c.(state := s)];
          net.RemoveListener(c.conn, id);
        } else {
          assert calls[id := c.(state := s)] == calls;
        }
      } else if id in calls {
        assert calls[id := c0[id].(state := Step(c0[id], id, e))] == calls;
      }
    }
  }
}
