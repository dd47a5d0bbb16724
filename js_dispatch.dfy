/**
 * The per-connection dispatcher of the JavaScript side (`useJsonRpcForWs`):
 * every message on the connection is parsed into a list of payloads (a lone
 * payload is a batch of one), and the list is walked in order. A request for
 * a registered method is answered with that method's value, at once or when
 * its promise settles; a request for an unknown method is answered with an
 * error; a notification runs its subscription and is never answered; replies
 * arriving here are ignored. A parse failure or a handler that throws
 * synchronously is only logged, and the rest of the batch is skipped.
 *
 * Handlers are opaque: the model knows only how each call completes. A
 * promise is a pending reply, keyed by a token, that a later settlement
 * event answers.
 */
module JsDispatch {
  import opened Wrappers
  import opened Json
  import opened JsWire

  /** How a method handler's synchronous call ends. */
  datatype Completion =
    | Returned(value: Value)     // a value that is not a Promise
    | Deferred                   // a Promise, settled later
    | Threw(message: string)     // a synchronous exception

  type MethodHandler = (Conn, Payload) -> Completion

  datatype SubscriptionOutcome = Done | Failed(message: string)

  type SubscriptionHandler = (Conn, Payload) -> SubscriptionOutcome

  /** How a deferred handler's promise settles: fulfilled, or rejected with an `Error` or with any other value. */
  datatype Settlement =
    | Fulfilled(value: Value)
    | RejectedWithError(message: string)
    | RejectedWithValue(value: Value)

  /** A handler invocation, in the order the dispatcher makes them. */
  datatype Ran =
    | RanMethod(name: string, request: Payload)
    | RanSubscription(name: string, notification: Payload)

  /**
   * The effect of walking a list: the replies sent at once, the request ids
   * whose reply awaits a promise, the handlers run, and whether a synchronous
   * throw stopped the walk.
   */
  datatype Outcome = Outcome(replies: seq<Payload>, deferred: seq<Value>, ran: seq<Ran>, aborted: bool)

  const Start := Outcome([], [], [], false)

  /** The error message for an unknown method, from which the method's name can be read back. */
  function NotFoundMessage(m: string): (r: string)
    ensures |r| == |m| + 18
    ensures r[..8] == "method: " && r[8..|r| - 10] == m && r[|r| - 10..] == " not found"
  {
    "method: " + m + " not found"
  }

  predicate IsReply(p: Payload)
  {
    p.Response? || p.ErrorReply?
  }

  /** The payloads of one message: none if it does not parse, the batch itself, or a batch of one. */
  function RpcList(d: Decoded): seq<Payload>
  {
    match d
    case Unreadable => []
    case Single(p) => [p]
    case Batch(ps) => ps
  }

  /** One payload of the walk, after the walk so far produced `o`. */
  function Handle(methods: map<string, MethodHandler>, subscriptions: map<string, SubscriptionHandler>,
                  ws: Conn, o: Outcome, p: Payload): Outcome
  {
    if o.aborted then o
    else
      match p
      case Request(id, m, _) =>
        if m in methods then
          var ran := o.ran + [RanMethod(m, p)];
          match methods[m](ws, p)
          case Returned(v) => o.(replies := o.replies + [Response(id, v)], ran := ran)
          case Deferred => o.(deferred := o.deferred + [id], ran := ran)
          case Threw(_) => o.(ran := ran, aborted := true)
        else
          o.(replies := o.replies + [ErrorReply(id, Structured(None, NotFoundMessage(m), None))])
      case Notification(m, _) =>
        if m in subscriptions then
          var ran := o.ran + [RanSubscription(m, p)];
          match subscriptions[m](ws, p)
          case Done => o.(ran := ran)
          case Failed(_) => o.(ran := ran, aborted := true)
        else o
      case _ => o
  }

  /** The walk of `ps`, in order, stopping at the first synchronous throw. */
  function Dispatch(methods: map<string, MethodHandler>, subscriptions: map<string, SubscriptionHandler>,
                    ws: Conn, ps: seq<Payload>): Outcome
  {
    if ps == [] then Start
    else Handle(methods, subscriptions, ws, Dispatch(methods, subscriptions, ws, ps[..|ps| - 1]), ps[|ps| - 1])
  }

  /** The ids of the requests in `ps`, in order. */
  function RequestIds(ps: seq<Payload>): seq<Value>
  {
    if ps == [] then []
    else
      var last := ps[|ps| - 1];
      RequestIds(ps[..|ps| - 1]) + (if last.Request? then [last.id] else [])
  }

  /** The ids the replies `rs` answer, in order. */
  function ReplyIds(rs: seq<Payload>): seq<Value>
  {
    if rs == [] then []
    else
      var last := rs[|rs| - 1];
      ReplyIds(rs[..|rs| - 1]) + (if IsReply(last) then [last.id] else [])
  }

  lemma ReplyIdsSnoc(rs: seq<Payload>, r: Payload)
    requires IsReply(r)
    ensures ReplyIds(rs + [r]) == ReplyIds(rs) + [r.id]
  {
    assert (rs + [r])[..|rs|] == rs;
  }

  lemma {:induction false} ReplyIdsLength(rs: seq<Payload>)
    requires AllReplies(rs)
    ensures |ReplyIds(rs)| == |rs|
  {
    if rs != [] {
      ReplyIdsLength(rs[..|rs| - 1]);
    }
  }

  /** Once the walk has stopped, the rest of the batch changes nothing. */
  lemma {:induction false} AbortIsFinal(methods: map<string, MethodHandler>, subscriptions: map<string, SubscriptionHandler>,
                                        ws: Conn, ps: seq<Payload>, k: nat)
    requires k <= |ps|
    requires Dispatch(methods, subscriptions, ws, ps[..k]).aborted
    ensures Dispatch(methods, subscriptions, ws, ps) == Dispatch(methods, subscriptions, ws, ps[..k])
  {
    if k < |ps| {
      var init := ps[..|ps| - 1];
      assert ps[..k] == init[..k];
      AbortIsFinal(methods, subscriptions, ws, init, k);
    } else {
      assert ps[..k] == ps;
    }
  }

  predicate AllReplies(rs: seq<Payload>)
  {
    forall k :: 0 <= k < |rs| ==> IsReply(rs[k])
  }

  /** The ids answered so far, at once or later. */
  function Answered(o: Outcome): multiset<Value>
  {
    multiset(ReplyIds(o.replies)) + multiset(o.deferred)
  }

  /** One payload answers its own id if it is a request that did not throw, and nothing otherwise. */
  lemma HandleAnswers(methods: map<string, MethodHandler>, subscriptions: map<string, SubscriptionHandler>,
                      ws: Conn, o: Outcome, p: Payload)
    requires AllReplies(o.replies)
    ensures var o2 := Handle(methods, subscriptions, ws, o, p);
      && AllReplies(o2.replies)
      && (o2.aborted ==> Answered(o2) == Answered(o))
      && (!o2.aborted ==> !o.aborted && Answered(o2) == Answered(o) + (if p.Request? then multiset{p.id} else multiset{}))
  {
    var o2 := Handle(methods, subscriptions, ws, o, p);
    if o.aborted || !p.Request? {
      assert o2.replies == o.replies && o2.deferred == o.deferred;
    } else if p.methodName !in methods {
      var r := ErrorReply(p.id, Structured(None, NotFoundMessage(p.methodName), None));
      assert o2 == o.(replies := o.replies + [r]);
      AnsweredReply(o, r);
    } else {
      var c := methods[p.methodName](ws, p);
      var ran := o.ran + [RanMethod(p.methodName, p)];
      if c.Returned? {
        var r := Response(p.id, c.value);
        assert o2 == o.(replies := o.replies + [r], ran := ran);
        AnsweredReply(o.(ran := ran), r);
      } else if c.Deferred? {
        assert o2 == o.(deferred := o.deferred + [p.id], ran := ran);
      } else {
        assert o2 == o.(ran := ran, aborted := true);
      }
    }
  }

  lemma AnsweredReply(o: Outcome, r: Payload)
    requires AllReplies(o.replies) && IsReply(r)
    ensures AllReplies(o.replies + [r])
    ensures Answered(o.(replies := o.replies + [r])) == Answered(o) + multiset{r.id}
  {
    ReplyIdsSnoc(o.replies, r);
  }

  /**
   * Only requests are answered, each at most once and under its own id: the
   * ids of the replies sent and of the replies awaited are drawn from the
   * request ids of the batch, and, when no handler threw, are exactly them.
   */
  lemma {:induction false} AnswersMatchRequests(methods: map<string, MethodHandler>, subscriptions: map<string, SubscriptionHandler>,
                                                ws: Conn, ps: seq<Payload>)
    ensures var o := Dispatch(methods, subscriptions, ws, ps);
      && AllReplies(o.replies)
      && Answered(o) <= multiset(RequestIds(ps))
      && (!o.aborted ==> Answered(o) == multiset(RequestIds(ps)))
  {
    if ps != [] {
      var init := ps[..|ps| - 1];
      var p := ps[|ps| - 1];
      AnswersMatchRequests(methods, subscriptions, ws, init);
      HandleAnswers(methods, subscriptions, ws, Dispatch(methods, subscriptions, ws, init), p);
    }
  }

  /** Walking on never takes back a reply sent or awaited. */
  lemma {:induction false} DispatchExtends(methods: map<string, MethodHandler>, subscriptions: map<string, SubscriptionHandler>,
                                           ws: Conn, ps: seq<Payload>, j: nat)
    requires j <= |ps|
    ensures Dispatch(methods, subscriptions, ws, ps[..j]).replies <= Dispatch(methods, subscriptions, ws, ps).replies
    ensures Dispatch(methods, subscriptions, ws, ps[..j]).deferred <= Dispatch(methods, subscriptions, ws, ps).deferred
    ensures Dispatch(methods, subscriptions, ws, ps[..j]).ran <= Dispatch(methods, subscriptions, ws, ps).ran
  {
    if j == |ps| {
      assert ps[..j] == ps;
    } else {
      var init := ps[..|ps| - 1];
      assert ps[..j] == init[..j];
      DispatchExtends(methods, subscriptions, ws, init, j);
      HandleExtends(methods, subscriptions, ws, Dispatch(methods, subscriptions, ws, init), ps[|ps| - 1]);
    }
  }

  lemma HandleExtends(methods: map<string, MethodHandler>, subscriptions: map<string, SubscriptionHandler>,
                      ws: Conn, o: Outcome, p: Payload)
    ensures o.replies <= Handle(methods, subscriptions, ws, o, p).replies
    ensures o.deferred <= Handle(methods, subscriptions, ws, o, p).deferred
    ensures o.ran <= Handle(methods, subscriptions, ws, o, p).ran
  {
  }

  /**
   * What a request the walk reaches is answered with: a value returned at
   * once is sent as the response under the request's id, an unknown method
   * gets the not-found error under that id, and a promise's reply is awaited
   * under that id.
   */
  lemma RequestAnswered(methods: map<string, MethodHandler>, subscriptions: map<string, SubscriptionHandler>,
                        ws: Conn, ps: seq<Payload>, k: nat)
    requires k < |ps| && ps[k].Request?
    requires !Dispatch(methods, subscriptions, ws, ps[..k]).aborted
    ensures var o := Dispatch(methods, subscriptions, ws, ps);
      var id := ps[k].id;
      var m := ps[k].methodName;
      && (m !in methods ==> ErrorReply(id, Structured(None, NotFoundMessage(m), None)) in o.replies)
      && (m in methods && methods[m](ws, ps[k]).Returned? ==> Response(id, methods[m](ws, ps[k]).value) in o.replies)
      && (m in methods && methods[m](ws, ps[k]).Deferred? ==> id in o.deferred)
  {
    var pre := ps[..k + 1];
    assert pre[..|pre| - 1] == ps[..k];
    DispatchExtends(methods, subscriptions, ws, ps, k + 1);
    var o0 := Dispatch(methods, subscriptions, ws, ps[..k]);
    var o1 := Dispatch(methods, subscriptions, ws, pre);
    var o := Dispatch(methods, subscriptions, ws, ps);
    assert o1 == Handle(methods, subscriptions, ws, o0, ps[k]);
    var m := ps[k].methodName;
    if m !in methods {
      var r := ErrorReply(ps[k].id, Structured(None, NotFoundMessage(m), None));
      assert r == o1.replies[|o1.replies| - 1];
      assert o.replies[|o1.replies| - 1] == r;
    } else if methods[m](ws, ps[k]).Returned? {
      var r := Response(ps[k].id, methods[m](ws, ps[k]).value);
      assert r == o1.replies[|o1.replies| - 1];
      assert o.replies[|o1.replies| - 1] == r;
    } else if methods[m](ws, ps[k]).Deferred? {
      assert ps[k].id == o1.deferred[|o1.deferred| - 1];
      assert o.deferred[|o1.deferred| - 1] == ps[k].id;
    }
  }

  /**
   * A request whose method throws synchronously is never answered, and it
   * stops the walk: the handler ran, and nothing later in the batch has any
   * effect.
   */
  lemma ThrowStopsWalk(methods: map<string, MethodHandler>, subscriptions: map<string, SubscriptionHandler>,
                       ws: Conn, ps: seq<Payload>, k: nat)
    requires k < |ps| && ps[k].Request? && ps[k].methodName in methods
    requires methods[ps[k].methodName](ws, ps[k]).Threw?
    requires !Dispatch(methods, subscriptions, ws, ps[..k]).aborted
    ensures var before := Dispatch(methods, subscriptions, ws, ps[..k]);
      && Dispatch(methods, subscriptions, ws, ps[..k + 1])
         == before.(ran := before.ran + [RanMethod(ps[k].methodName, ps[k])], aborted := true)
      && Dispatch(methods, subscriptions, ws, ps) == Dispatch(methods, subscriptions, ws, ps[..k + 1])
      && Answered(Dispatch(methods, subscriptions, ws, ps)) == Answered(before)
  {
    var pre := ps[..k + 1];
    assert pre[..|pre| - 1] == ps[..k];
    AbortIsFinal(methods, subscriptions, ws, ps, k + 1);
  }

  /**
   * A notification the walk reaches runs its subscription and is never
   * answered; a subscription that throws stops the walk, and a notification
   * nobody subscribed to changes nothing.
   */
  lemma NotificationRuns(methods: map<string, MethodHandler>, subscriptions: map<string, SubscriptionHandler>,
                         ws: Conn, ps: seq<Payload>, k: nat)
    requires k < |ps| && ps[k].Notification?
    requires !Dispatch(methods, subscriptions, ws, ps[..k]).aborted
    ensures var before := Dispatch(methods, subscriptions, ws, ps[..k]);
      var after := Dispatch(methods, subscriptions, ws, ps[..k + 1]);
      var m := ps[k].methodName;
      && (m !in subscriptions ==> after == before)
      && (m in subscriptions && subscriptions[m](ws, ps[k]).Done? ==>
            after == before.(ran := before.ran + [RanSubscription(m, ps[k])]))
      && (m in subscriptions && subscriptions[m](ws, ps[k]).Failed? ==>
            && after == before.(ran := before.ran + [RanSubscription(m, ps[k])], aborted := true)
            && Dispatch(methods, subscriptions, ws, ps) == after)
  {
    var pre := ps[..k + 1];
    assert pre[..|pre| - 1] == ps[..k];
    var m := ps[k].methodName;
    if m in subscriptions && subscriptions[m](ws, ps[k]).Failed? {
      AbortIsFinal(methods, subscriptions, ws, ps, k + 1);
    }
  }

  /** A list without requests is never answered, whatever its notifications do. */
  lemma NoRequestsNoReplies(methods: map<string, MethodHandler>, subscriptions: map<string, SubscriptionHandler>,
                            ws: Conn, ps: seq<Payload>)
    requires forall k :: 0 <= k < |ps| ==> !ps[k].Request?
    ensures Dispatch(methods, subscriptions, ws, ps).replies == []
    ensures Dispatch(methods, subscriptions, ws, ps).deferred == []
  {
    NoRequestIds(ps);
    AnswersMatchRequests(methods, subscriptions, ws, ps);
    var o := Dispatch(methods, subscriptions, ws, ps);
    ReplyIdsLength(o.replies);
    assert |Answered(o)| == 0;
  }

  lemma {:induction false} NoRequestIds(ps: seq<Payload>)
    requires forall k :: 0 <= k < |ps| ==> !ps[k].Request?
    ensures RequestIds(ps) == []
  {
    if ps != [] {
      NoRequestIds(ps[..|ps| - 1]);
    }
  }

  /** The reply a settled promise sends: exactly one, keyed by the request's id. */
  function SettleReply(id: Value, s: Settlement): (r: Payload)
    ensures IsReply(r) && r.id == id
    ensures r.Response? <==> s.Fulfilled?
    ensures s.Fulfilled? ==> r == Response(id, s.value)
    ensures s.RejectedWithError? ==> r == ErrorReply(id, Structured(None, s.message, None))
    ensures s.RejectedWithValue? ==> r == ErrorReply(id, Raw(s.value))
  {
    match s
    case Fulfilled(v) => Response(id, v)
    case RejectedWithError(m) => ErrorReply(id, Structured(None, m, None))
    case RejectedWithValue(v) => ErrorReply(id, Raw(v))
  }

  /** The send events of the replies `rs` on `ws`, in order. */
  function Sends(ws: Conn, rs: seq<Payload>): seq<NetEvent>
  {
    if rs == [] then [] else Sends(ws, rs[..|rs| - 1]) + [Sent(ws, rs[|rs| - 1])]
  }

  /** The awaited replies `ids`, under consecutive tokens from `t0`. */
  function Tokens(t0: nat, ids: seq<Value>): map<nat, Value>
  {
    if ids == [] then map[] else Tokens(t0, ids[..|ids| - 1])[t0 + |ids| - 1 := ids[|ids| - 1]]
  }

  lemma {:induction false} TokensKeys(t0: nat, ids: seq<Value>)
    ensures forall t :: t in Tokens(t0, ids) ==> t0 <= t < t0 + |ids|
  {
    if ids != [] {
      TokensKeys(t0, ids[..|ids| - 1]);
    }
  }

  class Dispatcher {
    const ws: Conn
    var methods: map<string, MethodHandler>
    var subscriptions: map<string, SubscriptionHandler>
    /** Requests whose handler returned a promise: token to request id. */
    var awaiting: map<nat, Value>
    var nextToken: nat
    var ran: seq<Ran>

    ghost predicate Valid()
      reads this
    {
      forall t :: t in awaiting ==> t < nextToken
    }

    constructor (ws: Conn, methods: map<string, MethodHandler>, subscriptions: map<string, SubscriptionHandler>)
      ensures Valid()
      ensures this.ws == ws && this.methods == methods && this.subscriptions == subscriptions
      ensures awaiting == map[] && nextToken == 0 && ran == []
    {
      this.ws := ws;
      this.methods := methods;
      this.subscriptions := subscriptions;
      awaiting := map[];
      nextToken := 0;
      ran := [];
    }

    /** The state after the walk so far, `o`, started from the snapshot `l0`, `r0`, `a0`, `t0`. */
    ghost predicate Reflects(net: Network, o: Outcome, l0: seq<NetEvent>, s0: set<(Conn, nat)>,
                             r0: seq<Ran>, a0: map<nat, Value>, t0: nat)
      reads this, net
    {
      && net.Valid()
      && net.log == l0 + Sends(ws, o.replies)
      && net.listeners == s0
      && ran == r0 + o.ran
      && nextToken == t0 + |o.deferred|
      && awaiting == a0 + Tokens(t0, o.deferred)
    }

    /** One message on the connection. */
    method OnMessage(net: Network, d: Decoded)
      requires Valid() && net.Valid()
      modifies this`awaiting, this`nextToken, this`ran, net
      ensures Valid() && net.Valid()
      ensures Reflects(net, Dispatch(methods, subscriptions, ws, RpcList(d)),
                       old(net.log), old(net.listeners), old(ran), old(awaiting), old(nextToken))
    {
      var ps := RpcList(d);
      ghost var l0, s0, r0, a0, t0 := net.log, net.listeners, ran, awaiting, nextToken;
      assert ps[..0] == [];
      var i := 0;
      var aborted := false;
      while i < |ps| && !aborted
        invariant 0 <= i <= |ps|
        invariant aborted == Dispatch(methods, subscriptions, ws, ps[..i]).aborted
        invariant Reflects(net, Dispatch(methods, subscriptions, ws, ps[..i]), l0, s0, r0, a0, t0)
      {
        assert ps[..i + 1][..i] == ps[..i];
        aborted := HandleNext(net, ps[i], Dispatch(methods, subscriptions, ws, ps[..i]), l0, s0, r0, a0, t0);
        i := i + 1;
      }
      if aborted {
        AbortIsFinal(methods, subscriptions, ws, ps, i);
      } else {
        assert ps[..i] == ps;
      }
      TokensKeys(t0, Dispatch(methods, subscriptions, ws, ps).deferred);
    }

    /** The body of the `forEach`: one payload. */
    method HandleNext(net: Network, p: Payload, ghost o: Outcome, ghost l0: seq<NetEvent>, ghost s0: set<(Conn, nat)>,
                      ghost r0: seq<Ran>, ghost a0: map<nat, Value>, ghost t0: nat) returns (aborted: bool)
      requires !o.aborted && Reflects(net, o, l0, s0, r0, a0, t0)
      modifies this`awaiting, this`nextToken, this`ran, net
      ensures Reflects(net, Handle(methods, subscriptions, ws, o, p), l0, s0, r0, a0, t0)
      ensures aborted == Handle(methods, subscriptions, ws, o, p).aborted
    {
      aborted := false;
      ghost var o2 := Handle(methods, subscriptions, ws, o, p);
      match p
      case Request(id, m, _) =>
        if m in methods {
          var c := methods[m](ws, p);
          RecordRun(RanMethod(m, p), o.ran, r0);
          if c.Returned? {
            assert o2 == o.(replies := o.replies + [Response(id, c.value)], ran := o.ran + [RanMethod(m, p)]);
            SendReply(net, o.replies, Response(id, c.value), l0);
          } else if c.Deferred? {
            assert o2 == o.(deferred := o.deferred + [id], ran := o.ran + [RanMethod(m, p)]);
            Await(id, o.deferred, a0, t0);
          } else {
            assert o2 == o.(ran := o.ran + [RanMethod(m, p)], aborted := true);
            aborted := true;
          }
        } else {
          assert o2 == o.(replies := o.replies + [ErrorReply(id, Structured(None, NotFoundMessage(m), None))]);
          SendReply(net, o.replies, ErrorReply(id, Structured(None, NotFoundMessage(m), None)), l0);
        }
      case Notification(m, _) =>
        if m in subscriptions {
          var r := subscriptions[m](ws, p);
          RecordRun(RanSubscription(m, p), o.ran, r0);
          if r.Failed? {
            assert o2 == o.(ran := o.ran + [RanSubscription(m, p)], aborted := true);
            aborted := true;
          } else {
            assert o2 == o.(ran := o.ran + [RanSubscription(m, p)]);
          }
        } else {
          assert o2 == o;
        }
      case _ =>
        assert o2 == o;
    }

    method RecordRun(x: Ran, ghost done: seq<Ran>, ghost r0: seq<Ran>)
      requires ran == r0 + done
      modifies this`ran
      ensures ran == r0 + (done + [x])
    {
      ran := ran + [x];
      assert ran == r0 + (done + [x]);
    }

    method Await(id: Value, ghost ds: seq<Value>, ghost a0: map<nat, Value>, ghost t0: nat)
      requires nextToken == t0 + |ds| && awaiting == a0 + Tokens(t0, ds)
      modifies this`awaiting, this`nextToken
      ensures nextToken == t0 + |ds + [id]| && awaiting == a0 + Tokens(t0, ds + [id])
    {
      assert (ds + [id])[..|ds|] == ds;
      awaiting := awaiting[nextToken := id];
      nextToken := nextToken + 1;
    }

    method SendReply(net: Network, ghost sent: seq<Payload>, r: Payload, ghost l0: seq<NetEvent>)
      requires net.Valid() && net.log == l0 + Sends(ws, sent)
      modifies net
      ensures net.Valid() && net.log == l0 + Sends(ws, sent + [r]) && net.listeners == old(net.listeners)
    {
      assert (sent + [r])[..|sent|] == sent;
      net.Send(ws, r);
    }

    /** A deferred handler's promise settles: its request, if still awaited, gets its one reply. */
    method OnSettle(net: Network, token: nat, s: Settlement)
      requires Valid() && net.Valid()
      modifies this`awaiting, net
      ensures Valid() && net.Valid() && net.listeners == old(net.listeners)
      ensures token in old(awaiting) ==>
        net.log == old(net.log) + [Sent(ws, SettleReply(old(awaiting)[token], s))] && awaiting == old(awaiting) - {token}
      ensures token !in old(awaiting) ==> net.log == old(net.log) && awaiting == old(awaiting)
    {
      if token in awaiting {
        net.Send(ws, SettleReply(awaiting[token], s));
        awaiting := awaiting - {token};
      }
    }
  }
}
