/** The registry of streaming clients and the fan-out to them (internal/sse/hub.go). Go
    channels are numbered; a client's receive loop and the hub's calls interleave freely. */
module Hub {
  import opened Wrappers
  import opened Strings
  import opened Routing

  type Payload = string

  /** The buffer of each client's Go channel. */
  const CAPACITY := 16

  /** One client's Go channel. `received`, `offered` and `dropped` record what its client
      took, what was broadcast to it and how much of that found the buffer full; it was
      registered when the hub had made `since` broadcasts and closed after `until`. */
  datatype Chan = Chan(
    key: string,
    queue: seq<Payload>,
    closed: bool,
    received: seq<Payload>,
    offered: seq<Payload>,
    dropped: nat,
    since: nat,
    until: nat)

  /** `broadcasts` is the history of broadcasts, each with its client key. */
  datatype State = State(
    clients: map<string, set<nat>>,
    chans: map<nat, Chan>,
    gauge: int,
    broadcasts: seq<(string, Payload)>)

  const EMPTY := State(map[], map[], 0, [])

  function ClientsOf(s: State, key: string): set<nat> {
    if key in s.clients then s.clients[key] else {}
  }

  /** `register` with a channel just made. */
  function Registered(s: State, key: string, ch: nat): State {
    s.(clients := s.clients[key := ClientsOf(s, key) + {ch}],
       chans := s.chans[ch := Chan(key, [], false, [], [], 0, |s.broadcasts|, 0)],
       gauge := s.gauge + 1)
  }

  function Unregistered(s: State, key: string, ch: nat): State
    requires ch in s.chans
  {
    var left := ClientsOf(s, key) - {ch};
    s.(clients := if left == {} then s.clients - {key} else s.clients[key := left],
       chans := s.chans[ch := s.chans[ch].(closed := true, until := |s.broadcasts|)],
       gauge := s.gauge - 1)
  }

  /** A send that does not wait: into the buffer, or dropped. */
  function Offer(c: Chan, payload: Payload): Chan {
    var c' := c.(offered := c.offered + [payload]);
    if |c.queue| < CAPACITY then c'.(queue := c.queue + [payload]) else c'.(dropped := c.dropped + 1)
  }

  function Broadcasted(s: State, key: string, payload: Payload): State {
    s.(chans := map ch <- s.chans :: if ch in ClientsOf(s, key) then Offer(s.chans[ch], payload) else s.chans[ch],
       broadcasts := s.broadcasts + [(key, payload)])
  }

  function Taken(s: State, ch: nat): State
    requires ch in s.chans && s.chans[ch].queue != []
  {
    var c := s.chans[ch];
    s.(chans := s.chans[ch := c.(queue := c.queue[1..], received := c.received + [c.queue[0]])])
  }

  /** What was broadcast to a key, in order. */
  function PayloadsTo(broadcasts: seq<(string, Payload)>, key: string): seq<Payload>
    decreases |broadcasts|
  {
    if broadcasts == [] then []
    else
      var rest := PayloadsTo(broadcasts[..|broadcasts| - 1], key);
      var (k, p) := broadcasts[|broadcasts| - 1];
      if k == key then rest + [p] else rest
  }

  /** `xs` is `ys` with some elements left out. */
  predicate InOrderWithin(xs: seq<Payload>, ys: seq<Payload>)
    decreases |ys|
  {
    if xs == [] then true
    else if ys == [] then false
    else
      || InOrderWithin(xs, ys[..|ys| - 1])
      || (xs[|xs| - 1] == ys[|ys| - 1] && InOrderWithin(xs[..|xs| - 1], ys[..|ys| - 1]))
  }

  // ----- the hub as an object -----

  class Hub {
    const prefixes: Prefixes
    var clients: map<string, set<nat>>
    var chans: map<nat, Chan>
    var gauge: int
    var broadcasts: seq<(string, Payload)>

    constructor (targetPrefixes: Prefixes)
      ensures Value() == EMPTY
      ensures prefixes == if targetPrefixes == map[] then map["default" := "notify:"] else targetPrefixes
    {
      prefixes := if |targetPrefixes| == 0 then map["default" := "notify:"] else targetPrefixes;
      clients, chans, gauge, broadcasts := map[], map[], 0, [];
    }

    function Value(): State
      reads this
    {
      State(clients, chans, gauge, broadcasts)
    }

    method Register(key: string, ch: nat)
      requires ch !in chans
      modifies this
      ensures Value() == Registered(old(Value()), key, ch)
    {
      if key !in clients {
        clients := clients[key := {}];
      }
      clients := clients[key := clients[key] + {ch}];
      chans := chans[ch := Chan(key, [], false, [], [], 0, |broadcasts|, 0)];
      gauge := gauge + 1;
    }

    /** Closing a closed channel would panic; `ServeHTTP` unregisters each channel once. */
    method Unregister(key: string, ch: nat)
      requires ch in chans && !chans[ch].closed && key in clients
      modifies this
      ensures Value() == Unregistered(old(Value()), key, ch)
    {
      if key in clients {
        clients := clients[key := clients[key] - {ch}];
        if clients[key] == {} {
          clients := clients - {key};
        }
      }
      chans := chans[ch := chans[ch].(closed := true, until := |broadcasts|)];
      gauge := gauge - 1;
      assert clients == Unregistered(old(Value()), key, ch).clients;
    }

    /** Sending on a closed channel would panic: the precondition is what `Inv` guarantees. */
    method Broadcast(key: string, payload: Payload)
      requires forall ch <- ClientsOf(Value(), key) :: ch in chans && !chans[ch].closed
      modifies this
      ensures Value() == Broadcasted(old(Value()), key, payload)
      ensures clients == old(clients) && chans.Keys == old(chans).Keys
      ensures forall ch <- chans ::
          if key in clients && ch in clients[key] && |old(chans)[ch].queue| < 16 then
            chans[ch].queue == old(chans)[ch].queue + [payload] && chans[ch].dropped == old(chans)[ch].dropped
          else if key in clients && ch in clients[key] then
            chans[ch].queue == old(chans)[ch].queue && chans[ch].dropped == old(chans)[ch].dropped + 1
          else
            chans[ch] == old(chans)[ch]
    {
      ghost var s := Value();
      var targets := if key in clients then clients[key] else {};
      var rest := targets;
      while rest != {}
        invariant rest <= targets && targets == ClientsOf(s, key)
        invariant clients == s.clients && gauge == s.gauge && broadcasts == s.broadcasts
        invariant chans.Keys == s.chans.Keys
        invariant forall ch <- chans ::
          chans[ch] == if ch in targets - rest then Offer(s.chans[ch], payload) else s.chans[ch]
        decreases |rest|
      {
        var ch :| ch in rest;
        rest := rest - {ch};
        if |chans[ch].queue| < CAPACITY {
          chans := chans[ch := chans[ch].(queue := chans[ch].queue + [payload],
                                          offered := chans[ch].offered + [payload])];
        } else {
          chans := chans[ch := chans[ch].(dropped := chans[ch].dropped + 1,
                                          offered := chans[ch].offered + [payload])];
        }
      }
      broadcasts := broadcasts + [(key, payload)];
    }

    /** One turn of a client's loop in `ServeHTTP`. */
    method Take(ch: nat) returns (payload: Payload)
      requires ch in chans && chans[ch].queue != []
      modifies this
      ensures Value() == Taken(old(Value()), ch)
      ensures payload == old(chans[ch].queue[0])
    {
      var c := chans[ch];
      payload := c.queue[0];
      chans := chans[ch := c.(queue := c.queue[1..], received := c.received + [payload])];
    }

    /** One message from Redis, as the receive loop of `Start` handles it. */
    method Receive(channel: string, payload: Payload)
      requires NoneClosed(Value())
      modifies this
      ensures NoneClosed(Value())
      ensures Unroutable(prefixes, channel) ==> Value() == old(Value())
      ensures !Unroutable(prefixes, channel) ==>
        exists r :: IsRoute(prefixes, channel, r)
          && Value() == Broadcasted(old(Value()), ClientKey(r.target, r.subject), payload)
    {
      var route := ResolveChannel(prefixes, channel);
      if route.None? {
        return;
      }
      RoutedIsRoutable(prefixes, channel, route.value);
      Broadcast(ClientKey(route.value.target, route.value.subject), payload);
    }

    /** One publish on a Redis channel: one message for each subscribed pattern it matches,
        each broadcast to the key of a route of the channel. */
    method Published(channel: string, payload: Payload)
      requires NoneClosed(Value())
      modifies this
      ensures NoneClosed(Value())
      ensures Unroutable(prefixes, channel) ==> Value() == old(Value())
      ensures !Unroutable(prefixes, channel) ==>
        FansOut(old(Value()), Value(), prefixes, channel, payload, |Matching(prefixes, channel)|)
      ensures DistinctPrefixes(prefixes) ==> forall r :: IsRoute(prefixes, channel, r) ==>
        Value() == Repeated(old(Value()), ClientKey(r.target, r.subject), payload, |Matching(prefixes, channel)|)
    {
      ghost var s := Value();
      var rest := Matching(prefixes, channel);
      ghost var done := 0;
      while rest != {}
        invariant NoneClosed(Value())
        invariant done + |rest| == |Matching(prefixes, channel)|
        invariant Unroutable(prefixes, channel) ==> Value() == s
        invariant !Unroutable(prefixes, channel) ==> FansOut(s, Value(), prefixes, channel, payload, done)
        decreases |rest|
      {
        var pattern :| pattern in rest;
        rest := rest - {pattern};
        Receive(channel, payload);
        done := done + 1;
      }
      if DistinctPrefixes(prefixes) {
        forall r | IsRoute(prefixes, channel, r)
          ensures Value() == Repeated(s, ClientKey(r.target, r.subject), payload, |Matching(prefixes, channel)|)
        {
          RoutedIsRoutable(prefixes, channel, r);
          FansOutToOneKey(s, Value(), prefixes, channel, r, payload, done);
        }
      }
    }
  }

  /** So many broadcasts in a row, each to the key of some route of the channel. */
  ghost predicate FansOut(s: State, s': State, prefixes: Prefixes, channel: string, payload: Payload, times: nat)
    decreases times
  {
    if times == 0 then s' == s
    else
      exists r, mid ::
        && IsRoute(prefixes, channel, r) && FansOut(s, mid, prefixes, channel, payload, times - 1)
        && s' == Broadcasted(mid, ClientKey(r.target, r.subject), payload)
  }

  /** With distinct prefixes they all go to the one route's key. */
  lemma {:induction false} FansOutToOneKey(s: State, s': State, prefixes: Prefixes, channel: string, r: Route,
                                           payload: Payload, times: nat)
    requires DistinctPrefixes(prefixes) && IsRoute(prefixes, channel, r)
    requires FansOut(s, s', prefixes, channel, payload, times)
    ensures s' == Repeated(s, ClientKey(r.target, r.subject), payload, times)
    decreases times
  {
    hide Broadcasted, ClientKey, IsRoute;
    if times > 0 {
      var r', mid :| IsRoute(prefixes, channel, r') && FansOut(s, mid, prefixes, channel, payload, times - 1)
        && s' == Broadcasted(mid, ClientKey(r'.target, r'.subject), payload);
      RouteIsUnique(prefixes, channel, r, r');
      FansOutToOneKey(s, mid, prefixes, channel, r, payload, times - 1);
    }
  }

  lemma RoutedIsRoutable(prefixes: Prefixes, channel: string, r: Route)
    requires IsRoute(prefixes, channel, r)
    ensures !Unroutable(prefixes, channel)
  {
    assert HasPrefix(channel, prefixes[r.target]);
  }

  ghost predicate NoneClosed(s: State) {
    forall key <- s.clients, ch <- s.clients[key] :: ch in s.chans && !s.chans[ch].closed
  }

  /** The same broadcast so many times in a row. */
  function Repeated(s: State, key: string, payload: Payload, times: nat): State {
    if times == 0 then s else Broadcasted(Repeated(s, key, payload, times - 1), key, payload)
  }

  // ----- every run -----

  datatype Step =
    | Connect(key: string, ch: nat)
    | Disconnect(ch: nat)
    | Broadcast(key: string, payload: Payload)
    | Take(ch: nat)

  /** `make(chan)` yields a channel never seen before; only a connected client disconnects,
      under the key it connected with, and only it takes from its channel. */
  predicate Enabled(s: State, step: Step) {
    match step
    case Connect(_, ch) => ch !in s.chans
    case Disconnect(ch) => ch in s.chans && !s.chans[ch].closed
    case Broadcast(_, _) => true
    case Take(ch) => ch in s.chans && !s.chans[ch].closed && s.chans[ch].queue != []
  }

  function Next(s: State, step: Step): State
    requires Enabled(s, step)
  {
    match step
    case Connect(key, ch) => Registered(s, key, ch)
    case Disconnect(ch) => Unregistered(s, s.chans[ch].key, ch)
    case Broadcast(key, payload) => Broadcasted(s, key, payload)
    case Take(ch) => Taken(s, ch)
  }

  function Exec(steps: seq<Step>): Option<State>
    decreases |steps|
  {
    if steps == [] then Some(EMPTY)
    else
      match Exec(steps[..|steps| - 1])
      case None => None
      case Some(s) =>
        var step := steps[|steps| - 1];
        if Enabled(s, step) then Some(Next(s, step)) else None
  }

  ghost function Open(s: State): set<nat> {
    set ch <- s.chans | !s.chans[ch].closed
  }

  predicate OpenUnder(s: State, ch: nat, key: string) {
    ch in s.chans && !s.chans[ch].closed && s.chans[ch].key == key
  }

  /** The registry holds exactly the open channels, each under its key, and no empty set;
      the gauge counts them. */
  ghost predicate RegistryInv(s: State) {
    && (forall key, ch :: ch in ClientsOf(s, key) <==> OpenUnder(s, ch, key))
    && (forall key <- s.clients :: s.clients[key] != {})
    && s.gauge == |Open(s)|
  }

  /** What a channel was offered is what was broadcast to its key while it was registered;
      its client has received, in order, some of it, the buffer holds the rest that was not
      dropped, and nothing is lost or made up. */
  predicate ChanInv(c: Chan, s: State) {
    var end := if c.closed then c.until else |s.broadcasts|;
    && c.since <= end <= |s.broadcasts|
    && c.offered == PayloadsTo(s.broadcasts[c.since..end], c.key)
    && |c.queue| <= CAPACITY
    && InOrderWithin(c.received + c.queue, c.offered)
    && |c.received| + |c.queue| + c.dropped == |c.offered|
  }

  ghost predicate Inv(s: State) {
    RegistryInv(s) && ChansInv(s)
  }

  lemma {:induction false} InOrderExtended(xs: seq<Payload>, ys: seq<Payload>, p: Payload)
    requires InOrderWithin(xs, ys)
    ensures InOrderWithin(xs, ys + [p]) && InOrderWithin(xs + [p], ys + [p])
  {
    assert (ys + [p])[..|ys|] == ys && (xs + [p])[..|xs|] == xs;
  }

  lemma OfferKeepsChanInv(c: Chan, s: State, s': State, payload: Payload)
    requires ChanInv(c, s) && !c.closed
    requires s'.broadcasts == s.broadcasts + [(c.key, payload)]
    ensures ChanInv(Offer(c, payload), s')
  {
    OneMoreOffered(s.broadcasts, c.since, c.key, payload);
    hide InOrderWithin, PayloadsTo;
    InOrderExtended(c.received + c.queue, c.offered, payload);
    assert c.received + (c.queue + [payload]) == c.received + c.queue + [payload];
  }

  lemma OneMoreOffered(broadcasts: seq<(string, Payload)>, since: nat, key: string, payload: Payload)
    requires since <= |broadcasts|
    ensures
      var after := broadcasts + [(key, payload)];
      PayloadsTo(after[since..|after|], key) == PayloadsTo(broadcasts[since..|broadcasts|], key) + [payload]
  {
    var after := broadcasts + [(key, payload)];
    var span := after[since..|after|];
    assert span == broadcasts[since..|broadcasts|] + [(key, payload)];
    assert span[..|span| - 1] == broadcasts[since..|broadcasts|];
  }

  lemma OtherKeepsChanInv(c: Chan, s: State, s': State, key: string, payload: Payload)
    requires ChanInv(c, s) && (c.closed || c.key != key)
    requires s'.broadcasts == s.broadcasts + [(key, payload)]
    ensures ChanInv(c, s')
  {
    hide InOrderWithin;
    if c.closed {
      assert s'.broadcasts[c.since..c.until] == s.broadcasts[c.since..c.until];
    } else {
      var span := s'.broadcasts[c.since..];
      assert span[..|span| - 1] == s.broadcasts[c.since..];
      assert s.broadcasts[c.since..|s.broadcasts|] == s.broadcasts[c.since..];
      assert s'.broadcasts[c.since..|s'.broadcasts|] == span;
    }
  }

  lemma OpenAfterConnect(s: State, key: string, ch: nat)
    requires ch !in s.chans
    ensures Open(Registered(s, key, ch)) == Open(s) + {ch}
    ensures ch !in Open(s)
    ensures forall c, k ::
      OpenUnder(Registered(s, key, ch), c, k) <==> OpenUnder(s, c, k) || (c == ch && k == key)
  {
  }

  lemma ConnectKeepsRegistry(s: State, key: string, ch: nat)
    requires RegistryInv(s) && ch !in s.chans
    ensures RegistryInv(Registered(s, key, ch))
  {
    var s' := Registered(s, key, ch);
    OpenAfterConnect(s, key, ch);
    RegisteredClients(s, key, ch);
    assert s'.gauge == |Open(s) + {ch}|;
    forall k, c ensures c in ClientsOf(s', k) <==> OpenUnder(s', c, k) {
      hide ClientsOf, OpenUnder, Open;
      assert c in ClientsOf(s, k) <==> OpenUnder(s, c, k);
    }
    assert ch in s'.clients[key];
  }

  lemma RegisteredClients(s: State, key: string, ch: nat)
    ensures forall k ::
        ClientsOf(Registered(s, key, ch), k) == if k == key then ClientsOf(s, k) + {ch} else ClientsOf(s, k)
  {
  }

  lemma UnregisteredClients(s: State, key: string, ch: nat)
    requires ch in s.chans
    ensures forall k ::
        ClientsOf(Unregistered(s, key, ch), k) == if k == key then ClientsOf(s, k) - {ch} else ClientsOf(s, k)
  {
  }

  lemma DisconnectKeepsRegistry(s: State, ch: nat)
    requires RegistryInv(s) && ch in Open(s)
    ensures RegistryInv(Unregistered(s, s.chans[ch].key, ch))
  {
    var key := s.chans[ch].key;
    var s' := Unregistered(s, key, ch);
    assert Open(s') == Open(s) - {ch};
    UnregisteredClients(s, key, ch);
  }

  lemma SameRegistry(s: State, s': State)
    requires RegistryInv(s)
    requires s'.clients == s.clients && s'.gauge == s.gauge && s'.chans.Keys == s.chans.Keys
    requires forall c <- s.chans :: s'.chans[c].closed == s.chans[c].closed && s'.chans[c].key == s.chans[c].key
    ensures RegistryInv(s')
  {
    assert Open(s') == Open(s);
    assert forall k :: ClientsOf(s', k) == ClientsOf(s, k);
  }

  lemma NewChanInv(s: State, key: string, ch: nat)
    ensures ChanInv(Registered(s, key, ch).chans[ch], Registered(s, key, ch))
  {
    var c := Registered(s, key, ch).chans[ch];
    assert s.broadcasts[|s.broadcasts|..|s.broadcasts|] == [];
    assert c.received + c.queue == [];
  }

  lemma ClosedChanInv(c: Chan, s: State, s': State)
    requires ChanInv(c, s) && !c.closed && s'.broadcasts == s.broadcasts
    ensures ChanInv(c.(closed := true, until := |s.broadcasts|), s')
  {
    hide InOrderWithin, PayloadsTo;
  }

  lemma TakenChanInv(c: Chan, s: State, s': State)
    requires ChanInv(c, s) && c.queue != [] && s'.broadcasts == s.broadcasts
    ensures ChanInv(c.(queue := c.queue[1..], received := c.received + [c.queue[0]]), s')
  {
    hide InOrderWithin, PayloadsTo;
    assert c.received + [c.queue[0]] + c.queue[1..] == c.received + c.queue;
  }

  lemma SameChanInv(c: Chan, s: State, s': State)
    requires ChanInv(c, s) && s'.broadcasts == s.broadcasts
    ensures ChanInv(c, s')
  {
    hide InOrderWithin, PayloadsTo;
  }

  ghost predicate ChansInv(s: State) {
    forall ch <- s.chans :: ChanInv(s.chans[ch], s)
  }

  lemma ConnectKeepsChans(s: State, key: string, ch: nat)
    requires ChansInv(s) && ch !in s.chans
    ensures ChansInv(Registered(s, key, ch))
  {
    hide ChanInv;
    var s' := Registered(s, key, ch);
    NewChanInv(s, key, ch);
    forall c <- s.chans ensures ChanInv(s.chans[c], s') {
      SameChanInv(s.chans[c], s, s');
    }
  }

  lemma DisconnectKeepsChans(s: State, key: string, ch: nat)
    requires ChansInv(s) && ch in Open(s)
    ensures ChansInv(Unregistered(s, key, ch))
  {
    hide ChanInv;
    var s' := Unregistered(s, key, ch);
    ClosedChanInv(s.chans[ch], s, s');
    forall c <- s.chans ensures ChanInv(s.chans[c], s') {
      SameChanInv(s.chans[c], s, s');
    }
  }

  lemma BroadcastKeepsChans(s: State, key: string, payload: Payload)
    requires RegistryInv(s) && ChansInv(s)
    ensures ChansInv(Broadcasted(s, key, payload))
  {
    hide ChanInv, Offer;
    var s' := Broadcasted(s, key, payload);
    forall c <- s.chans ensures ChanInv(s'.chans[c], s') {
      if c in ClientsOf(s, key) {
        OfferKeepsChanInv(s.chans[c], s, s', payload);
      } else {
        OtherKeepsChanInv(s.chans[c], s, s', key, payload);
      }
    }
  }

  lemma TakeKeepsChans(s: State, ch: nat)
    requires ChansInv(s) && ch in s.chans && s.chans[ch].queue != []
    ensures ChansInv(Taken(s, ch))
  {
    hide ChanInv;
    var s' := Taken(s, ch);
    TakenChanInv(s.chans[ch], s, s');
    forall c <- s.chans ensures ChanInv(s.chans[c], s') {
      SameChanInv(s.chans[c], s, s');
    }
  }

  lemma StepKeepsInv(s: State, step: Step)
    requires Inv(s) && Enabled(s, step)
    ensures Inv(Next(s, step))
  {
    hide RegistryInv, ChansInv;
    match step
    case Connect(key, ch) =>
      ConnectKeepsRegistry(s, key, ch);
      ConnectKeepsChans(s, key, ch);
    case Disconnect(ch) =>
      DisconnectKeepsRegistry(s, ch);
      DisconnectKeepsChans(s, s.chans[ch].key, ch);
    case Broadcast(key, payload) =>
      SameRegistry(s, Broadcasted(s, key, payload));
      BroadcastKeepsChans(s, key, payload);
    case Take(ch) =>
      SameRegistry(s, Taken(s, ch));
      TakeKeepsChans(s, ch);
  }

  lemma {:induction false} RunKeepsInv(steps: seq<Step>)
    requires Exec(steps).Some?
    ensures Inv(Exec(steps).value)
    decreases |steps|
  {
    if steps == [] {
      assert Open(EMPTY) == {};
    } else {
      RunKeepsInv(steps[..|steps| - 1]);
      StepKeepsInv(Exec(steps[..|steps| - 1]).value, steps[|steps| - 1]);
    }
  }

  /** In every reachable state no registered channel is closed, so a broadcast never sends
      on a closed channel. */
  lemma NeverSendsOnClosed(steps: seq<Step>)
    requires Exec(steps).Some?
    ensures NoneClosed(Exec(steps).value)
  {
    RunKeepsInv(steps);
    var s := Exec(steps).value;
    forall key <- s.clients, ch <- s.clients[key] ensures ch in s.chans && !s.chans[ch].closed {
      assert ch in ClientsOf(s, key);
    }
  }

  /** A broadcast puts the payload at the end of what waits for every connected client of the
      key, unless 16 payloads wait already: then that client misses it. Nobody else notices. */
  lemma BroadcastDelivers(steps: seq<Step>, key: string, payload: Payload, ch: nat)
    requires Exec(steps).Some? && ch in Exec(steps).value.chans
    ensures
      var s := Exec(steps).value;
      var c, c' := s.chans[ch], Next(s, Broadcast(key, payload)).chans[ch];
      if c.key != key || c.closed then c' == c
      else if |c.queue| < 16 then
        c'.queue == c.queue + [payload] && c'.dropped == c.dropped && c'.received == c.received
      else
        c'.queue == c.queue && c'.dropped == c.dropped + 1 && c'.received == c.received
  {
    RunKeepsInv(steps);
    InvGivesRegistry(Exec(steps).value);
    hide Inv;
    var s := Exec(steps).value;
    assert ch in ClientsOf(s, key) <==> OpenUnder(s, ch, key);
  }

  /** At no time did so many payloads wait for the client that one would be dropped. */
  ghost predicate NeverFull(steps: seq<Step>, ch: nat) {
    forall k | 0 <= k <= |steps| :: RoomAt(steps[..k], ch)
  }

  predicate RoomAt(steps: seq<Step>, ch: nat) {
    Exec(steps).Some? && (ch in Exec(steps).value.chans ==> |Exec(steps).value.chans[ch].queue| < 16)
  }

  lemma StepDrops(s: State, step: Step, ch: nat)
    requires RegistryInv(s) && Enabled(s, step) && ch in Next(s, step).chans
    requires ch in s.chans ==> s.chans[ch].dropped == 0 && |s.chans[ch].queue| < 16
    ensures Next(s, step).chans[ch].dropped == 0
  {
  }

  lemma {:induction false} NeverFullDropsNone(steps: seq<Step>, ch: nat)
    requires NeverFull(steps, ch) && Exec(steps).Some? && ch in Exec(steps).value.chans
    ensures Exec(steps).value.chans[ch].dropped == 0
    decreases |steps|
  {
    if steps != [] {
      var init, step := steps[..|steps| - 1], steps[|steps| - 1];
      assert RoomAt(steps[..|init|], ch);
      forall k | 0 <= k <= |init| ensures RoomAt(init[..k], ch) {
        assert init[..k] == steps[..k];
        assert RoomAt(steps[..k], ch);
      }
      RunKeepsInv(init);
      InvGivesRegistry(Exec(init).value);
      if ch in Exec(init).value.chans {
        NeverFullDropsNone(init, ch);
      }
      hide Inv, RegistryInv, Next;
      StepDrops(Exec(init).value, step, ch);
    }
  }

  lemma {:induction false} AllInOrder(xs: seq<Payload>, ys: seq<Payload>)
    requires InOrderWithin(xs, ys) && |xs| == |ys|
    ensures xs == ys
    decreases |ys|
  {
    if xs != [] {
      ShorterWithin(xs, ys[..|ys| - 1]);
      AllInOrder(xs[..|xs| - 1], ys[..|ys| - 1]);
      assert xs == xs[..|xs| - 1] + [xs[|xs| - 1]] && ys == ys[..|ys| - 1] + [ys[|ys| - 1]];
    }
  }

  lemma {:induction false} ShorterWithin(xs: seq<Payload>, ys: seq<Payload>)
    ensures InOrderWithin(xs, ys) ==> |xs| <= |ys|
    decreases |ys|
  {
    if xs != [] && ys != [] {
      ShorterWithin(xs, ys[..|ys| - 1]);
      ShorterWithin(xs[..|xs| - 1], ys[..|ys| - 1]);
    }
  }

  /** A client for whom 16 payloads never waited at once has received, or still has waiting, in
      order, exactly what was broadcast to its key from its connection on, until it left. */
  lemma NeverFullMissesNothing(steps: seq<Step>, ch: nat)
    requires NeverFull(steps, ch) && Exec(steps).Some? && ch in Exec(steps).value.chans
    ensures
      var s := Exec(steps).value;
      var c := s.chans[ch];
      && c.since <= (if c.closed then c.until else |s.broadcasts|) <= |s.broadcasts|
      && c.received + c.queue == PayloadsTo(s.broadcasts[c.since..if c.closed then c.until else |s.broadcasts|], c.key)
  {
    NeverFullDropsNone(steps, ch);
    RunKeepsInv(steps);
    var s := Exec(steps).value;
    ChanInvOf(s, ch);
    hide Inv, PayloadsTo;
    AllInOrder(s.chans[ch].received + s.chans[ch].queue, s.chans[ch].offered);
  }

  lemma ChanInvOf(s: State, ch: nat)
    requires Inv(s) && ch in s.chans
    ensures ChanInv(s.chans[ch], s)
  {
    hide RegistryInv, ChanInv;
  }

  /** What was broadcast to a key: the payloads of the broadcasts with that key, in order. */
  lemma PayloadsToMeaning(broadcasts: seq<(string, Payload)>, key: string, k: string, payload: Payload)
    ensures PayloadsTo([], key) == []
    ensures PayloadsTo(broadcasts + [(k, payload)], key) ==
      PayloadsTo(broadcasts, key) + if k == key then [payload] else []
  {
    assert (broadcasts + [(k, payload)])[..|broadcasts|] == broadcasts;
  }

  // ----- from a site publish to the clients -----

  /** A publish for target `t` and recipient `r` reaches exactly the clients connected for
      that target and subject: theirs are the only channels the broadcast touches. */
  lemma PublishReachesExactly(steps: seq<Step>, prefixes: Prefixes, t: string, recipient: string,
                              route: Route, target: string, subject: string, payload: Payload, ch: nat)
    requires Exec(steps).Some?
    requires WellSeparated(prefixes) && t in prefixes && CanonicalUUID(recipient)
    requires IsRoute(prefixes, prefixes[t] + recipient, route)
    requires '\0' !in subject
    requires
      var s := Exec(steps).value;
      ch in Open(s) && s.chans[ch].key == ClientKey(target, subject)
    ensures
      var s := Exec(steps).value;
      var s' := Broadcasted(s, ClientKey(route.target, route.subject), payload);
      var c, c' := s.chans[ch], s'.chans[ch];
      if target != t || subject != recipient then c' == c
      else if |c.queue| < 16 then c'.queue == c.queue + [payload] && c'.dropped == c.dropped
      else c'.queue == c.queue && c'.dropped == c.dropped + 1
  {
    hide CanonicalUUID, Inv, ClientKey;
    RunKeepsInv(steps);
    SeparatedRoundTrips(prefixes, t, recipient);
    assert route == Route(t, recipient);
    CanonicalUUIDAlphabet(recipient);
    var s := Exec(steps).value;
    var key := ClientKey(t, recipient);
    if ClientKey(target, subject) == key {
      ClientKeyInjective(target, subject, t, recipient);
    }
    assert RegistryInv(s) by { InvGivesRegistry(s); }
    assert ch in ClientsOf(s, key) <==> s.chans[ch].key == key;
  }

  lemma InvGivesRegistry(s: State)
    requires Inv(s)
    ensures RegistryInv(s)
  {
  }
}
