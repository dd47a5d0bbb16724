/**
 * The hub of `main.ts`: a directory of the connected clients (`clientsMap`)
 * and the two handler tables its dispatcher serves. The method table starts
 * with the hub's own procedures; `registerMethod` adds a forwarding stub
 * `<client>.<name>` that relays the call to the registering connection, and
 * `subscribe` adds a forwarding subscription `<client>.<name>` that relays a
 * notification to it. `broadcast` notifies the subscribed clients; `list`
 * shows the directory.
 *
 * The tables are JavaScript objects, whose key order (insertion order, for
 * the keys in use here) is visible through `Object.keys`; each table is
 * therefore a map together with the sequence of its keys. A procedure's
 * return value or synchronous throw is a `Completion` of the dispatcher.
 */
module JsHub {
  import opened Wrappers
  import opened Json
  import opened JsWire
  import opened JsCorrelator
  import opened JsDispatch

  /** The hub's own procedures, in the order the `methods` literal declares them. */
  const NativeKeys: seq<string> := ["introduce", "list", "registerMethod", "subscribe", "broadcast"]

  const NameRequired: string := "name is required"
  const NotIntroduced: string := "can't find related client info, introduce your self first"
  const ServerName: string := "server"

  datatype ClientInfo = ClientInfo(name: string, desc: Option<Value>, subscription: seq<string>)

  /** A method table entry: one of the hub's procedures, or a stub forwarding to `owner` as `name`. */
  datatype MethodEntry = Native | Stub(owner: Conn, name: string)

  /** A subscription table entry: forwards the notification to `owner` as `name`. */
  datatype Forward = Forward(owner: Conn, name: string)

  /** One element of `list`'s result; the fields a client without a record lacks are `None`. */
  datatype Entry = Entry(name: Option<string>, desc: Option<Value>, subscription: Option<seq<string>>, methods: seq<string>)

  /** The walk of `broadcast`: the clients notified, and whether a client without a record stopped it. */
  datatype WalkResult = WalkResult(targets: seq<Conn>, failed: bool)

  predicate Distinct<T(==)>(s: seq<T>)
  {
    forall i, j :: 0 <= i < j < |s| ==> s[i] != s[j]
  }

  predicate HasPrefix(p: string, k: string)
  {
    |p| <= |k| && k[..|p|] == p
  }

  /** `[client, name].join('.')`: the client name, a dot, the bare name. */
  function Qualified(client: string, name: string): (r: string)
    ensures '.' in r
    ensures HasPrefix(client + ".", r)
  {
    assert (client + "." + name)[|client|] == '.';
    assert (client + "." + name)[..|client| + 1] == client + ".";
    client + "." + name
  }

  /** `keys.filter(it => it.startsWith(p))`. */
  function WithPrefix(keys: seq<string>, p: string): seq<string>
  {
    if keys == [] then []
    else
      var last := keys[|keys| - 1];
      WithPrefix(keys[..|keys| - 1], p) + (if HasPrefix(p, last) then [last] else [])
  }

  /** `keys.filter(it => !it.includes("."))`. */
  function Undotted(keys: seq<string>): seq<string>
  {
    if keys == [] then []
    else
      var last := keys[|keys| - 1];
      Undotted(keys[..|keys| - 1]) + (if '.' !in last then [last] else [])
  }

  /** The filter keeps exactly the keys with the prefix. */
  lemma {:induction false} WithPrefixMembers(keys: seq<string>, p: string)
    ensures forall k :: k in WithPrefix(keys, p) <==> k in keys && HasPrefix(p, k)
  {
    if keys != [] {
      var init := keys[..|keys| - 1];
      WithPrefixMembers(init, p);
      assert keys == init + [keys[|keys| - 1]];
    }
  }

  /** The filter keeps exactly the keys without a dot. */
  lemma {:induction false} UndottedMembers(keys: seq<string>)
    ensures forall k :: k in Undotted(keys) <==> k in keys && '.' !in k
  {
    if keys != [] {
      var init := keys[..|keys| - 1];
      UndottedMembers(init);
      assert keys == init + [keys[|keys| - 1]];
    }
  }

  lemma {:induction false} UndottedAppend(a: seq<string>, b: seq<string>)
    ensures Undotted(a + b) == Undotted(a) + Undotted(b)
  {
    if b == [] {
      assert a + b == a;
    } else {
      var init := b[..|b| - 1];
      assert (a + b)[..|a + b| - 1] == a + init;
      assert (a + b)[|a + b| - 1] == b[|b| - 1];
      UndottedAppend(a, init);
    }
  }

  lemma {:induction false} UndottedNone(keys: seq<string>)
    requires forall i :: 0 <= i < |keys| ==> '.' in keys[i]
    ensures Undotted(keys) == []
  {
    if keys != [] {
      var init := keys[..|keys| - 1];
      UndottedNone(init);
      assert keys == init + [keys[|keys| - 1]];
    }
  }

  lemma {:induction false} UndottedAll(keys: seq<string>)
    requires forall i :: 0 <= i < |keys| ==> '.' !in keys[i]
    ensures Undotted(keys) == keys
  {
    if keys != [] {
      var init := keys[..|keys| - 1];
      UndottedAll(init);
      assert keys == init + [keys[|keys| - 1]];
    }
  }

  lemma UndottedNatives()
    ensures forall i :: 0 <= i < |NativeKeys| ==> '.' !in NativeKeys[i]
    ensures Undotted(NativeKeys) == NativeKeys
  {
    assert '.' !in "introduce";
    assert '.' !in "list";
    assert '.' !in "registerMethod";
    assert '.' !in "subscribe";
    assert '.' !in "broadcast";
    UndottedAll(NativeKeys);
  }

  /** The entry `list` shows for live connection `c`. */
  function ClientEntry(clients: map<Conn, ClientInfo>, methodKeys: seq<string>, c: Conn): (e: Entry)
    ensures c in clients ==> e.name == Some(clients[c].name) && e.desc == clients[c].desc && e.subscription == Some(clients[c].subscription)
    ensures c !in clients ==> e.name.None? && e.desc.None? && e.subscription.None?
    ensures var p := (if c in clients then clients[c].name else "") + ".";
      forall k :: k in e.methods <==> k in methodKeys && HasPrefix(p, k)
  {
    if c in clients then
      var info := clients[c];
      WithPrefixMembers(methodKeys, info.name + ".");
      Entry(Some(info.name), info.desc, Some(info.subscription), WithPrefix(methodKeys, info.name + "."))
    else
      WithPrefixMembers(methodKeys, ".");
      Entry(None, None, None, WithPrefix(methodKeys, "."))
  }

  /**
   * `list`: the server's own entry, then one entry per live connection in
   * order. The server's methods are the keys without a dot, its
   * subscriptions every key of the subscription table.
   */
  function List(clients: map<Conn, ClientInfo>, methodKeys: seq<string>, subscriptionKeys: seq<string>,
                live: seq<Conn>): (r: seq<Entry>)
    ensures |r| == |live| + 1
    ensures r[0].name == Some(ServerName) && r[0].desc == Some(Str(ServerName))
    ensures r[0].subscription == Some(subscriptionKeys)
    ensures forall k :: k in r[0].methods <==> k in methodKeys && '.' !in k
    ensures forall i :: 0 <= i < |live| ==> r[i + 1] == ClientEntry(clients, methodKeys, live[i])
  {
    UndottedMembers(methodKeys);
    [Entry(Some(ServerName), Some(Str(ServerName)), Some(subscriptionKeys), Undotted(methodKeys))]
      + seq(|live|, i requires 0 <= i < |live| => ClientEntry(clients, methodKeys, live[i]))
  }

  /** The walk of `broadcast` over the live connections, skipping the caller. */
  function BroadcastWalk(clients: map<Conn, ClientInfo>, caller: Conn, live: seq<Conn>, name: string): WalkResult
  {
    if live == [] then WalkResult([], false)
    else
      var w := BroadcastWalk(clients, caller, live[..|live| - 1], name);
      var c := live[|live| - 1];
      if w.failed || c == caller then w
      else if c !in clients then w.(failed := true)
      else if name in clients[c].subscription then w.(targets := w.targets + [c])
      else w
  }

  /** The notifications of `broadcast`, in order. */
  function Notices(targets: seq<Conn>, name: string, params: Option<Value>): seq<NetEvent>
  {
    if targets == [] then []
    else Notices(targets[..|targets| - 1], name, params) + [Sent(targets[|targets| - 1], Notification(name, params))]
  }

  /** Every client notified is live, not the caller, and subscribed to `name`; when the walk completes, every such client is. */
  lemma {:induction false} BroadcastTargets(clients: map<Conn, ClientInfo>, caller: Conn, live: seq<Conn>, name: string)
    ensures var w := BroadcastWalk(clients, caller, live, name);
      && (forall c :: c in w.targets ==> c in live && c != caller && c in clients && name in clients[c].subscription)
      && (!w.failed ==> forall c :: c in live && c != caller && c in clients && name in clients[c].subscription ==> c in w.targets)
  {
    if live != [] {
      var init := live[..|live| - 1];
      BroadcastTargets(clients, caller, init, name);
      assert forall c :: c in live ==> c in init || c == live[|live| - 1];
    }
  }

  /** The walk fails exactly when some live connection other than the caller has no record. */
  lemma {:induction false} BroadcastFails(clients: map<Conn, ClientInfo>, caller: Conn, live: seq<Conn>, name: string)
    ensures BroadcastWalk(clients, caller, live, name).failed <==>
      exists k :: 0 <= k < |live| && live[k] != caller && live[k] !in clients
  {
    if live != [] {
      var init := live[..|live| - 1];
      BroadcastFails(clients, caller, init, name);
      if BroadcastWalk(clients, caller, init, name).failed {
        var k :| 0 <= k < |init| && init[k] != caller && init[k] !in clients;
        assert live[k] == init[k];
      } else {
        assert forall k :: 0 <= k < |init| ==> live[k] == init[k];
      }
    }
  }

  /** Once the walk has failed, the rest of the connections are not visited. */
  lemma {:induction false} BroadcastFailedIsFinal(clients: map<Conn, ClientInfo>, caller: Conn, live: seq<Conn>, name: string, k: nat)
    requires k <= |live|
    requires BroadcastWalk(clients, caller, live[..k], name).failed
    ensures BroadcastWalk(clients, caller, live, name) == BroadcastWalk(clients, caller, live[..k], name)
  {
    if k < |live| {
      var init := live[..|live| - 1];
      assert live[..k] == init[..k];
      BroadcastFailedIsFinal(clients, caller, init, name, k);
    } else {
      assert live[..k] == live;
    }
  }

  /**
   * What a forwarding stub's promise does once the forwarded call settles: a
   * result is passed on, and a rejection, always an `Error`, passes on its
   * message only. `None` while the call is pending, and where the message is
   * the JSON-RPC library's (a parse failure, or an error member that is not
   * a structured error).
   */
  function StubSettlement(state: CallState): (r: Option<Settlement>)
    ensures state.Pending? ==> r.None?
    ensures state.Resolved? ==> r == Some(Fulfilled(state.result))
    ensures r.Some? ==> !r.value.RejectedWithValue?
    ensures state == Rejected(Timeout) ==> r == Some(RejectedWithError(TimeoutMessage))
    ensures state.Rejected? && state.reason.Unexpected? ==> r == Some(RejectedWithError(state.reason.message))
    ensures state.Rejected? && state.reason.RemoteError? && state.reason.error.Structured? ==>
      r == Some(RejectedWithError(state.reason.error.message))
  {
    match state
    case Pending => None
    case Resolved(v) => Some(Fulfilled(v))
    case Rejected(RemoteError(Structured(_, m, _))) => Some(RejectedWithError(m))
    case Rejected(RemoteError(Raw(_))) => None
    case Rejected(Unexpected(m)) => Some(RejectedWithError(m))
    case Rejected(Unparsable) => None
    case Rejected(Timeout) => Some(RejectedWithError(TimeoutMessage))
  }

  /**
   * A structured error relayed through a stub reaches the original caller
   * with its message only: its code and data are dropped.
   */
  lemma RelayedErrorKeepsOnlyMessage(id: Value, code: Option<int>, m: string, data: Option<Value>)
    ensures var s := StubSettlement(Rejected(RemoteError(Structured(code, m, data))));
      s.Some? && SettleReply(id, s.value) == ErrorReply(id, Structured(None, m, None))
  {
  }

  /**
   * The relay round trip of a stub: the call `c` it made (id `id`) hears a
   * response with its id on the owner's connection before anything else
   * concerns it, and the request `reqId` that reached the stub is answered
   * with that very result.
   */
  lemma StubRelaysResult(c: Call, id: nat, es: seq<Event>, k: nat, reqId: Value, v: Value)
    requires c.state == Pending && k < |es|
    requires forall j :: 0 <= j < k ==> !(es[j].Message? && es[j].on == c.conn)
    requires forall j :: 0 <= j < k ==> es[j].Tick? ==> es[j].now < c.deadline
    requires es[k] == Message(c.conn, Single(Response(Num(id), v)))
    ensures StubSettlement(Run(c, id, es)) == Some(Fulfilled(v))
    ensures SettleReply(reqId, StubSettlement(Run(c, id, es)).value) == Response(reqId, v)
  {
    QuietKeepsPending(c, id, es[..k]);
    FirstSettlementDecides(c, id, es, k);
  }

  /** An error reply to the forwarded call reaches the stub's own caller with its message only. */
  lemma StubRelaysError(c: Call, id: nat, es: seq<Event>, k: nat, reqId: Value,
                        code: Option<int>, m: string, data: Option<Value>)
    requires c.state == Pending && k < |es|
    requires forall j :: 0 <= j < k ==> !(es[j].Message? && es[j].on == c.conn)
    requires forall j :: 0 <= j < k ==> es[j].Tick? ==> es[j].now < c.deadline
    requires es[k] == Message(c.conn, Single(ErrorReply(Num(id), Structured(code, m, data))))
    ensures StubSettlement(Run(c, id, es)) == Some(RejectedWithError(m))
    ensures SettleReply(reqId, StubSettlement(Run(c, id, es)).value) == ErrorReply(reqId, Structured(None, m, None))
  {
    QuietKeepsPending(c, id, es[..k]);
    FirstSettlementDecides(c, id, es, k);
  }

  /** A stub whose forwarded call hears nothing answers its own request with the timeout error. */
  lemma StubRelaysTimeout(c: Call, id: nat, es: seq<Event>, k: nat, reqId: Value)
    requires c.state == Pending && k < |es|
    requires forall j :: 0 <= j < k ==> !(es[j].Message? && es[j].on == c.conn)
    requires forall j :: 0 <= j < k ==> es[j].Tick? ==> es[j].now < c.deadline
    requires es[k].Tick? && c.deadline <= es[k].now
    ensures StubSettlement(Run(c, id, es)) == Some(RejectedWithError(TimeoutMessage))
    ensures SettleReply(reqId, StubSettlement(Run(c, id, es)).value) == ErrorReply(reqId, Structured(None, TimeoutMessage, None))
  {
    SilentCallTimesOut(c, id, es, k);
  }

  class Hub {
    var clientsMap: map<Conn, ClientInfo>
    var methodKeys: seq<string>
    var methods: map<string, MethodEntry>
    var subscriptionKeys: seq<string>
    var subscriptions: map<string, Forward>

    /**
     * Each table's key sequence lists its keys once each; the method table
     * starts with the hub's procedures and every later key has a dot; every
     * subscription key has a dot; no client's list repeats an event.
     */
    ghost predicate Valid()
      reads this
    {
      MethodsValid() && SubscriptionsValid() && ClientsValid()
    }

    ghost predicate MethodsValid()
      reads this`methods, this`methodKeys
    {
      && |methodKeys| >= |NativeKeys| && methodKeys[..|NativeKeys|] == NativeKeys
      && Distinct(methodKeys)
      && (forall k :: k in methods <==> k in methodKeys)
      && (forall k :: k in NativeKeys ==> methods[k] == Native)
      && (forall i :: |NativeKeys| <= i < |methodKeys| ==> '.' in methodKeys[i] && methods[methodKeys[i]].Stub?)
    }

    ghost predicate SubscriptionsValid()
      reads this`subscriptions, this`subscriptionKeys
    {
      && Distinct(subscriptionKeys)
      && (forall k :: k in subscriptions <==> k in subscriptionKeys)
      && (forall i :: 0 <= i < |subscriptionKeys| ==> '.' in subscriptionKeys[i])
    }

    ghost predicate ClientsValid()
      reads this`clientsMap
    {
      forall c :: c in clientsMap ==> Distinct(clientsMap[c].subscription)
    }

    constructor ()
      ensures Valid()
      ensures clientsMap == map[] && methodKeys == NativeKeys && subscriptionKeys == [] && subscriptions == map[]
    {
      clientsMap := map[];
      methodKeys := NativeKeys;
      methods := map["introduce" := Native, "list" := Native, "registerMethod" := Native,
                     "subscribe" := Native, "broadcast" := Native];
      subscriptionKeys := [];
      subscriptions := map[];
    }

    /** `introduce`: a missing or empty name throws; otherwise the caller's record is replaced by a fresh one. */
    method Introduce(caller: Conn, name: Option<string>, desc: Option<Value>) returns (c: Completion)
      requires Valid()
      modifies this`clientsMap
      ensures Valid()
      ensures name.None? || name == Some("") ==> c == Threw(NameRequired) && clientsMap == old(clientsMap)
      ensures name.Some? && name != Some("") ==>
        c == Returned(Bool(true)) && clientsMap == old(clientsMap)[caller := ClientInfo(name.value, desc, [])]
    {
      if name.None? || name.value == "" {
        return Threw(NameRequired);
      }
      clientsMap := clientsMap[caller := ClientInfo(name.value, desc, [])];
      c := Returned(Bool(true));
    }

    /** `registerMethod`: installs, or overwrites, the stub `<client>.<name>` forwarding to the caller. */
    method RegisterMethod(caller: Conn, name: string) returns (c: Completion)
      requires Valid()
      modifies this`methods, this`methodKeys
      ensures Valid()
      ensures caller !in clientsMap ==> c == Threw(NotIntroduced) && methods == old(methods) && methodKeys == old(methodKeys)
      ensures caller in clientsMap ==>
        var key := Qualified(clientsMap[caller].name, name);
        && c == Returned(Bool(true))
        && methods == old(methods)[key := Stub(caller, name)]
        && methodKeys == old(methodKeys) + (if key in old(methods) then [] else [key])
    {
      if caller !in clientsMap {
        return Threw(NotIntroduced);
      }
      var key := Qualified(clientsMap[caller].name, name);
      UndottedNatives();
      if key !in methods {
        methodKeys := methodKeys + [key];
      }
      methods := methods[key := Stub(caller, name)];
      c := Returned(Bool(true));
      assert methodKeys[..|NativeKeys|] == NativeKeys;
    }

    /**
     * `subscribe`: adds the event to the caller's list unless it is there
     * already, and installs, or overwrites, the forwarding subscription
     * `<client>.<name>`.
     */
    method Subscribe(caller: Conn, name: string) returns (c: Completion)
      requires Valid()
      modifies this`clientsMap, this`subscriptions, this`subscriptionKeys
      ensures Valid()
      ensures caller !in old(clientsMap) ==>
        && c == Threw(NotIntroduced) && clientsMap == old(clientsMap)
        && subscriptions == old(subscriptions) && subscriptionKeys == old(subscriptionKeys)
      ensures caller in old(clientsMap) ==>
        var info := old(clientsMap)[caller];
        var key := Qualified(info.name, name);
        && c == Returned(Bool(true))
        && clientsMap == old(clientsMap)[caller := info.(subscription :=
             if name in info.subscription then info.subscription else info.subscription + [name])]
        && subscriptions == old(subscriptions)[key := Forward(caller, name)]
        && subscriptionKeys == old(subscriptionKeys) + (if key in old(subscriptions) then [] else [key])
    {
      if caller !in clientsMap {
        return Threw(NotIntroduced);
      }
      var info := clientsMap[caller];
      if name !in info.subscription {
        clientsMap := clientsMap[caller := info.(subscription := info.subscription + [name])];
      }
      var key := Qualified(info.name, name);
      if key !in subscriptions {
        subscriptionKeys := subscriptionKeys + [key];
      }
      subscriptions := subscriptions[key := Forward(caller, name)];
      c := Returned(Bool(true));
    }

    /**
     * `broadcast`: notifies, in order, each live connection other than the
     * caller whose list holds `name`; a connection without a record stops
     * the walk with a throw, and what was sent stays sent.
     */
    method Broadcast(net: Network, caller: Conn, live: seq<Conn>, name: string, params: Option<Value>) returns (c: Completion)
      requires net.Valid()
      modifies net
      ensures net.Valid() && net.listeners == old(net.listeners)
      ensures var w := BroadcastWalk(clientsMap, caller, live, name);
        && net.log == old(net.log) + Notices(w.targets, name, params)
        && c == (if w.failed then Threw(NotIntroduced) else Returned(Bool(true)))
    {
      ghost var l0 := net.log;
      var i := 0;
      var failed := false;
      while i < |live| && !failed
        invariant 0 <= i <= |live|
        invariant net.Valid() && net.listeners == old(net.listeners)
        invariant failed == BroadcastWalk(clientsMap, caller, live[..i], name).failed
        invariant net.log == l0 + Notices(BroadcastWalk(clientsMap, caller, live[..i], name).targets, name, params)
      {
        assert live[..i + 1][..i] == live[..i];
        var it := live[i];
        if it != caller {
          if it !in clientsMap {
            failed := true;
          } else if name in clientsMap[it].subscription {
            NoticeNext(net, BroadcastWalk(clientsMap, caller, live[..i], name).targets, it, name, params, l0);
          }
        }
        i := i + 1;
      }
      if failed {
        BroadcastFailedIsFinal(clientsMap, caller, live, name, i);
      } else {
        assert live[..i] == live;
      }
      c := if failed then Threw(NotIntroduced) else Returned(Bool(true));
    }

    method NoticeNext(net: Network, ghost done: seq<Conn>, it: Conn, name: string, params: Option<Value>, ghost l0: seq<NetEvent>)
      requires net.Valid() && net.log == l0 + Notices(done, name, params)
      modifies net
      ensures net.Valid() && net.listeners == old(net.listeners)
      ensures net.log == l0 + Notices(done + [it], name, params)
    {
      assert (done + [it])[..|done|] == done;
      Notice(net, it, name, params);
    }

    /** The forwarding subscription `key`: relays the notification to its owner under the bare name. */
    method NotifyStub(net: Network, key: string, params: Option<Value>) returns (o: SubscriptionOutcome)
      requires key in subscriptions && net.Valid()
      modifies net
      ensures net.Valid() && net.listeners == old(net.listeners)
      ensures o == Done
      ensures net.log == old(net.log) + [Sent(subscriptions[key].owner, Notification(subscriptions[key].name, params))]
    {
      Notice(net, subscriptions[key].owner, subscriptions[key].name, params);
      o := Done;
    }

    /**
     * The stub `key`: relays the request to its owner under the bare name
     * with the same params, and completes when that call does.
     */
    method InvokeStub(corr: Correlator, net: Network, key: string, params: Option<Value>, now: int)
      returns (c: Completion, id: nat)
      requires key in methods && methods[key].Stub? && corr.Valid(net)
      modifies corr, net
      ensures corr.Valid(net)
      ensures c == Deferred && id == old(corr.rpcId)
      ensures corr.calls == old(corr.calls)[id := Call(methods[key].owner, methods[key].name, params, now + TimeoutMs, Pending)]
      ensures net.log == old(net.log) + [Listen(methods[key].owner, id),
                                         Sent(methods[key].owner, Request(Num(id), methods[key].name, params))]
    {
      id := corr.Invoke(net, methods[key].owner, methods[key].name, params, now);
      c := Deferred;
    }

    /** The hub's procedures are the keys without a dot: the server entry of `list` names exactly them. */
    lemma ServerMethodsAreNatives(live: seq<Conn>)
      requires Valid()
      ensures List(clientsMap, methodKeys, subscriptionKeys, live)[0].methods == NativeKeys
    {
      NativesFirst(methodKeys);
      assert List(clientsMap, methodKeys, subscriptionKeys, live)[0].methods == Undotted(methodKeys);
    }
  }

  /** A key sequence that starts with the hub's procedures and has a dot in every later key. */
  lemma NativesFirst(keys: seq<string>)
    requires |keys| >= |NativeKeys| && keys[..|NativeKeys|] == NativeKeys
    requires forall i :: |NativeKeys| <= i < |keys| ==> '.' in keys[i]
    ensures Undotted(keys) == NativeKeys
  {
    var rest := keys[|NativeKeys|..];
    assert keys == NativeKeys + rest;
    assert forall i :: 0 <= i < |rest| ==> rest[i] == keys[|NativeKeys| + i];
    UndottedAppend(NativeKeys, rest);
    UndottedNone(rest);
    UndottedNatives();
  }
}
