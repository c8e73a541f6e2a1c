/** How queues and routing keys are handed out to connections, consumers and producers. */
module Topology {
  import opened Arithmetic
  import opened Sequences
  import opened Wrappers

  /** What a consumer or a producer is created with. */
  datatype Client = Client(id: nat, connection: nat, queue: string, routingKey: string)

  /** Among the first `n` elements of `s`, every `m`-th one, from position `c` on. */
  function StrideTo(s: seq<string>, c: nat, m: nat, n: nat): seq<string>
    requires m > 0 && n <= |s|
  {
    if n == 0 then [] else StrideTo(s, c, m, n - 1) + if (n - 1) % m == c then [s[n - 1]] else []
  }

  function Stride(s: seq<string>, c: nat, m: nat): seq<string>
    requires m > 0
  {
    StrideTo(s, c, m, |s|)
  }

  /** The name a queue goes by once configured; `declare` is the broker's answer. */
  function Configured(predeclared: bool, known: string -> bool, declare: string -> string, q: string): string {
    if !predeclared || !known(q) then declare(q) else q
  }

  function ConfiguredAll(predeclared: bool, known: string -> bool, declare: string -> string, qs: seq<string>)
      : (r: seq<string>)
    ensures |r| == |qs|
    ensures forall i :: 0 <= i < |qs| ==> r[i] == Configured(predeclared, known, declare, qs[i])
  {
    seq(|qs|, i requires 0 <= i < |qs| => Configured(predeclared, known, declare, qs[i]))
  }

  /** Only a predeclared queue that is known keeps its name without being declared. */
  lemma ConfiguredName(predeclared: bool, known: string -> bool, declare: string -> string, q: string)
    ensures predeclared && known(q) ==> Configured(predeclared, known, declare, q) == q
    ensures !predeclared || !known(q) ==> Configured(predeclared, known, declare, q) == declare(q)
  {
  }

  /** The queue of client number `k`, counted from the last reset of the cursor. */
  function QueueOf(queues: seq<string>, k: nat): string
    requires queues != []
  {
    queues[k % |queues|]
  }

  function KeyOf(routingKey: Option<string>, queue: string): string {
    if routingKey.None? then queue else routingKey.value
  }

  /** Client number `k` of its kind, when the cursor stood at `start` for the first one. */
  function ClientAt(queues: seq<string>, routingKey: Option<string>, start: nat, channels: nat, k: nat): Client
    requires queues != [] && channels > 0
  {
    Client(k, k / channels, QueueOf(queues, start + k), KeyOf(routingKey, QueueOf(queues, start + k)))
  }

  /** SequenceTopologyHandler: a cursor over a list of queues. */
  class SequenceTopologyHandler {
    const queues: seq<string>
    const routingKey: Option<string>
    var index: nat

    constructor (queues: seq<string>, routingKey: Option<string>)
      ensures this.queues == queues && this.routingKey == routingKey && index == 0
    {
      this.queues, this.routingKey, index := queues, routingKey, 0;
    }

    function QueueAt(k: nat): string
      requires queues != []
    {
      QueueOf(queues, k)
    }

    function KeyAt(k: nat): string
      requires queues != []
    {
      KeyOf(routingKey, QueueOf(queues, k))
    }

    method Next()
      modifies this
      ensures index == old(index) + 1
    {
      index := index + 1;
    }

    method Reset()
      modifies this
      ensures index == 0
    {
      index := 0;
    }

    /**
     * configureQueues over `m` connections: queue `i` goes to connection `i % m`, and is bound
     * with the key under the cursor, which the callback moves on after each queue.
     */
    method ConfigureAllQueues(m: nat, predeclared: bool, known: string -> bool, declare: string -> string,
                              bind: bool)
        returns (perConnection: seq<seq<string>>, bindings: seq<(string, string)>)
      requires m > 0 && queues != []
      modifies this
      ensures index == old(index) + |queues|
      ensures var names := ConfiguredAll(predeclared, known, declare, queues);
              && Spread(perConnection, names, m)
              && if bind then BoundFrom(bindings, names, queues, routingKey, old(index)) else bindings == []
    {
      ghost var names, start := ConfiguredAll(predeclared, known, declare, queues), index;
      perConnection := NoQueues(m, names);
      bindings := [];
      var i := 0;
      while i < |queues|
        invariant 0 <= i <= |queues| && SpreadTo(perConnection, names, m, i)
        invariant index == start + i
        invariant if bind then BoundTo(bindings, names, queues, routingKey, start, i) else bindings == []
      {
        var name := Configured(predeclared, known, declare, queues[i]);
        perConnection := Deal(perConnection, m, i, name, names);
        if bind {
          bindings := BindQueue(bindings, name, names, start, i);
        }
        Next();
        i := i + 1;
      }
    }

    /** A configured queue is bound with the key under the cursor. */
    method BindQueue(bindings: seq<(string, string)>, name: string, ghost names: seq<string>, ghost start: nat, ghost i: nat)
        returns (bound: seq<(string, string)>)
      requires queues != [] && i < |names| && name == names[i] && index == start + i
      requires BoundTo(bindings, names, queues, routingKey, start, i)
      ensures BoundTo(bound, names, queues, routingKey, start, i + 1)
    {
      bound := bindings + [(name, KeyAt(index))];
    }

    /**
     * createConsumers and createProducers: `connections` connections of `channels` channels
     * each, one client per channel, all laid out in one array.
     */
    method CreateClients(connections: nat, channels: nat) returns (clients: array<Client>)
      requires queues != []
      modifies this
      ensures fresh(clients) && index == old(index) + clients.Length
      ensures AllClients(clients[..], connections * channels, queues, routingKey, old(index), channels)
    {
      var total := connections * channels;
      clients := new Client[total];
      var clientIndex: nat := 0;
      for i := 0 to connections
        invariant clientIndex == i * channels <= total
        invariant index == old(index) + clientIndex
        invariant forall k :: 0 <= k < clientIndex ==>
                    channels > 0 && clients[k] == ClientAt(queues, routingKey, old(index), channels, k)
      {
        var row := i * channels;
        RowEnds(i, connections, channels);
        for j := 0 to channels
          invariant clientIndex == row + j <= total
          invariant index == old(index) + clientIndex
          invariant forall k :: 0 <= k < clientIndex ==>
                      channels > 0 && clients[k] == ClientAt(queues, routingKey, old(index), channels, k)
        {
          RowOf(i, j, channels);
          clients[row + j] := Client(clientIndex, i, QueueAt(index), KeyAt(index));
          Next();
          clientIndex := clientIndex + 1;
        }
      }
    }
  }

  lemma RowEnds(i: nat, connections: nat, channels: nat)
    requires i < connections
    ensures i * channels + channels == (i + 1) * channels <= connections * channels
  {
    Monotone(i + 1, connections, channels);
    Distribute(channels, i, 1);
  }

  lemma RowOf(i: nat, j: nat, channels: nat)
    requires j < channels
    ensures (i * channels + j) / channels == i
  {
    Quotient(i * channels + j, channels, i, j);
  }

  datatype Layout = Layout(
    perConnection: seq<seq<string>>,
    bindings: seq<(string, string)>,
    consumers: seq<Client>,
    producers: seq<Client>)

  /** The three phases of a run: configure, reset, consumers, reset, producers. */
  method RunPhases(handler: SequenceTopologyHandler, m: nat,
                   predeclared: bool, known: string -> bool, declare: string -> string,
                   consumerConnections: nat, consumerChannels: nat,
                   producerConnections: nat, producerChannels: nat)
      returns (layout: Layout)
    requires m > 0 && handler.queues != [] && handler.index == 0
    requires ConfiguredAll(predeclared, known, declare, handler.queues) == handler.queues
    modifies handler
    ensures InLockstep(handler.queues, handler.routingKey, m,
                       consumerConnections * consumerChannels, consumerChannels,
                       producerConnections * producerChannels, producerChannels, layout)
  {
    var perConnection, bindings := handler.ConfigureAllQueues(m, predeclared, known, declare, true);
    handler.Reset();
    var consumers := handler.CreateClients(consumerConnections, consumerChannels);
    var consumerList := consumers[..];
    handler.Reset();
    var producers := handler.CreateClients(producerConnections, producerChannels);
    layout := Layout(perConnection, bindings, consumerList, producers[..]);
  }

  ghost predicate Spread(lists: seq<seq<string>>, names: seq<string>, m: nat)
    requires m > 0
  {
    |lists| == m && forall c :: 0 <= c < m ==> lists[c] == Stride(names, c, m)
  }

  /** The lists when the first `i` names have been dealt out. */
  ghost predicate SpreadTo(lists: seq<seq<string>>, names: seq<string>, m: nat, i: nat)
    requires m > 0 && i <= |names|
  {
    |lists| == m && forall c :: 0 <= c < m ==> lists[c] == StrideTo(names, c, m, i)
  }

  method NoQueues(m: nat, ghost names: seq<string>) returns (lists: seq<seq<string>>)
    requires m > 0
    ensures SpreadTo(lists, names, m, 0)
  {
    lists := seq(m, _ => []);
  }

  /** Queue number `i` goes to the list of connection `i % m`. */
  method Deal(lists: seq<seq<string>>, m: nat, i: nat, name: string, ghost names: seq<string>)
      returns (dealt: seq<seq<string>>)
    requires m > 0 && i < |names| && name == names[i] && SpreadTo(lists, names, m, i)
    ensures SpreadTo(dealt, names, m, i + 1)
  {
    var c := i % m;
    dealt := lists[c := lists[c] + [name]];
  }

  /** Queue number `i` of `names` is bound with the key of client number `start + i`. */
  ghost predicate BoundFrom(bindings: seq<(string, string)>, names: seq<string>, queues: seq<string>,
                            routingKey: Option<string>, start: nat)
    requires queues != []
  {
    BoundTo(bindings, names, queues, routingKey, start, |names|)
  }

  /** The same for the first `n` of them. */
  ghost predicate BoundTo(bindings: seq<(string, string)>, names: seq<string>, queues: seq<string>,
                          routingKey: Option<string>, start: nat, n: nat)
    requires queues != [] && n <= |names|
  {
    |bindings| == n
    && forall i :: 0 <= i < n ==> bindings[i] == (names[i], KeyOf(routingKey, QueueOf(queues, start + i)))
  }

  ghost predicate AllClients(clients: seq<Client>, n: nat, queues: seq<string>, routingKey: Option<string>,
                             start: nat, channels: nat)
    requires queues != []
  {
    |clients| == n
    && forall k :: 0 <= k < n ==> channels > 0 && clients[k] == ClientAt(queues, routingKey, start, channels, k)
  }

  /** Bindings, consumers and producers walk the queues in the same order, round and round. */
  ghost predicate InLockstep(queues: seq<string>, routingKey: Option<string>, m: nat,
                             consumers: nat, consumerChannels: nat, producers: nat, producerChannels: nat,
                             l: Layout)
    requires m > 0 && queues != []
  {
    && Spread(l.perConnection, queues, m)
    && BoundFrom(l.bindings, queues, queues, routingKey, 0)
    && AllClients(l.consumers, consumers, queues, routingKey, 0, consumerChannels)
    && AllClients(l.producers, producers, queues, routingKey, 0, producerChannels)
  }

  /** Client `k` has number `k`, the connection of its row of channels, and queue `k mod n`. */
  lemma ClientFacts(queues: seq<string>, routingKey: Option<string>, m: nat, consumers: nat, consumerChannels: nat,
                    producers: nat, producerChannels: nat, l: Layout)
    requires m > 0 && queues != []
    requires InLockstep(queues, routingKey, m, consumers, consumerChannels, producers, producerChannels, l)
    ensures |l.bindings| == |queues| && |l.consumers| == consumers && |l.producers| == producers
    ensures consumers > 0 ==> consumerChannels > 0
    ensures producers > 0 ==> producerChannels > 0
    ensures forall k :: 0 <= k < consumers ==> l.consumers[k].id == k && l.consumers[k].connection == k / consumerChannels
    ensures forall k :: 0 <= k < consumers ==> l.consumers[k].queue == queues[k % |queues|]
    ensures forall k :: 0 <= k < producers ==> l.producers[k].id == k && l.producers[k].connection == k / producerChannels
  {
    if consumers > 0 {
      var first := l.consumers[0];
      assert consumerChannels > 0;
    }
    if producers > 0 {
      var first := l.producers[0];
      assert producerChannels > 0;
    }
  }

  /** Without a routing key every queue is bound with its own name, client `k` gets queue `k mod n`. */
  lemma LockstepFacts(queues: seq<string>, m: nat, consumers: nat, consumerChannels: nat,
                      producers: nat, producerChannels: nat, l: Layout)
    requires m > 0 && queues != []
    requires InLockstep(queues, None, m, consumers, consumerChannels, producers, producerChannels, l)
    ensures |l.bindings| == |queues| && |l.consumers| == consumers && |l.producers| == producers
    ensures forall i :: 0 <= i < |queues| ==> l.bindings[i] == (queues[i], queues[i])
    ensures forall k :: 0 <= k < consumers ==> l.consumers[k].queue == l.consumers[k].routingKey == queues[k % |queues|]
    ensures forall p :: 0 <= p < producers ==> l.producers[p].routingKey == queues[p % |queues|]
  {
    forall i | 0 <= i < |queues| ensures l.bindings[i] == (queues[i], queues[i]) {
      Quotient(i, |queues|, 0, i);
    }
  }

  /** With a routing key every queue is bound with it, and every producer publishes with it. */
  lemma GivenKeyFacts(queues: seq<string>, key: string, m: nat, consumers: nat, consumerChannels: nat,
                      producers: nat, producerChannels: nat, l: Layout)
    requires m > 0 && queues != []
    requires InLockstep(queues, Some(key), m, consumers, consumerChannels, producers, producerChannels, l)
    ensures |l.bindings| == |queues| && |l.consumers| == consumers && |l.producers| == producers
    ensures forall i :: 0 <= i < |queues| ==> l.bindings[i] == (queues[i], key)
    ensures forall k :: 0 <= k < consumers ==> l.consumers[k].queue == queues[k % |queues|] && l.consumers[k].routingKey == key
    ensures forall p :: 0 <= p < producers ==> l.producers[p].routingKey == key
  {
  }

  // ---------- what the lockstep gives ----------

  /** The queues a message published with `key` is routed to. */
  predicate RoutedTo(l: Layout, key: string, queue: string) {
    (queue, key) in l.bindings
  }

  /** What a producer publishes reaches one queue at least, and each such queue has a consumer. */
  ghost predicate Served(l: Layout, p: Client) {
    && (exists q :: RoutedTo(l, p.routingKey, q))
    && forall q :: RoutedTo(l, p.routingKey, q) ==> exists c :: c in l.consumers && c.queue == q
  }

  /** A sequence of queues without a routing key: every producer is served exactly when there are enough consumers. */
  lemma EveryProducerServed(queues: seq<string>, m: nat, consumers: nat, consumerChannels: nat,
                            producers: nat, producerChannels: nat, l: Layout)
    requires m > 0 && queues != [] && Distinct(queues)
    requires InLockstep(queues, None, m, consumers, consumerChannels, producers, producerChannels, l)
    ensures (forall p :: p in l.producers ==> Served(l, p)) <==> consumers >= Min(|queues|, producers)
  {
    LockstepFacts(queues, m, consumers, consumerChannels, producers, producerChannels, l);
    if consumers >= Min(|queues|, producers) {
      AllServed(queues, l);
    } else {
      NotServed(queues, l);
      assert l.producers[consumers] in l.producers;
    }
  }

  /**
   * A sequence of queues with a routing key: every message goes to every queue, so every
   * producer is served exactly when every queue has a consumer.
   */
  lemma EveryProducerServedWithKey(queues: seq<string>, key: string, m: nat, consumers: nat, consumerChannels: nat,
                                   producers: nat, producerChannels: nat, l: Layout)
    requires m > 0 && queues != [] && Distinct(queues)
    requires InLockstep(queues, Some(key), m, consumers, consumerChannels, producers, producerChannels, l)
    ensures forall p, q :: p in l.producers ==> (RoutedTo(l, p.routingKey, q) <==> q in queues)
    ensures (forall p :: p in l.producers ==> Served(l, p)) <==> producers == 0 || consumers >= |queues|
  {
    GivenKeyFacts(queues, key, m, consumers, consumerChannels, producers, producerChannels, l);
    RoutedEverywhere(queues, key, l);
    forall p | p in l.producers
      ensures p.routingKey == key && (Served(l, p) <==> consumers >= |queues|)
    {
      ServedEverywhere(queues, key, l, p);
    }
    if producers > 0 {
      assert l.producers[0] in l.producers;
    }
  }

  lemma RoutedEverywhere(queues: seq<string>, key: string, l: Layout)
    requires |l.bindings| == |queues| && forall i :: 0 <= i < |queues| ==> l.bindings[i] == (queues[i], key)
    ensures forall q :: RoutedTo(l, key, q) <==> q in queues
  {
    forall q | q in queues ensures RoutedTo(l, key, q) {
      var i :| 0 <= i < |queues| && queues[i] == q;
      assert l.bindings[i] == (q, key);
    }
  }

  lemma ServedEverywhere(queues: seq<string>, key: string, l: Layout, p: Client)
    requires queues != [] && Distinct(queues) && p.routingKey == key
    requires forall q :: RoutedTo(l, key, q) <==> q in queues
    requires forall k :: 0 <= k < |l.consumers| ==> l.consumers[k].queue == queues[k % |queues|]
    ensures Served(l, p) <==> |l.consumers| >= |queues|
  {
    var n := |queues|;
    assert RoutedTo(l, key, queues[0]);
    if |l.consumers| >= n {
      forall q | RoutedTo(l, key, q) ensures exists c :: c in l.consumers && c.queue == q {
        var i :| 0 <= i < n && queues[i] == q;
        Quotient(i, n, 0, i);
        assert l.consumers[i] in l.consumers && l.consumers[i].queue == q;
      }
    } else {
      var q := queues[|l.consumers|];
      assert RoutedTo(l, key, q);
      forall c | c in l.consumers ensures c.queue != q {
        var k :| 0 <= k < |l.consumers| && l.consumers[k] == c;
        Quotient(k, n, 0, k);
      }
    }
  }

  lemma AllServed(queues: seq<string>, l: Layout)
    requires queues != [] && Distinct(queues) && |l.bindings| == |queues|
    requires |l.consumers| >= Min(|queues|, |l.producers|)
    requires forall j :: 0 <= j < |queues| ==> l.bindings[j] == (queues[j], queues[j])
    requires forall k :: 0 <= k < |l.consumers| ==> l.consumers[k].queue == queues[k % |queues|]
    requires forall p :: 0 <= p < |l.producers| ==> l.producers[p].routingKey == queues[p % |queues|]
    ensures forall p :: p in l.producers ==> Served(l, p)
  {
    forall p | p in l.producers ensures Served(l, p) {
      var i :| 0 <= i < |l.producers| && l.producers[i] == p;
      SmallRemainder(i, |queues|, |l.consumers|, |l.producers|);
      ServedBy(queues, l, i);
    }
  }

  /** The first producer after as many as there are consumers finds nobody on its queue. */
  lemma NotServed(queues: seq<string>, l: Layout)
    requires Distinct(queues) && |l.consumers| < |queues| == |l.bindings| && |l.consumers| < |l.producers|
    requires forall j :: 0 <= j < |queues| ==> l.bindings[j] == (queues[j], queues[j])
    requires forall k :: 0 <= k < |l.consumers| ==> l.consumers[k].queue == queues[k % |queues|]
    requires l.producers[|l.consumers|].routingKey == queues[|l.consumers| % |queues|]
    ensures !Served(l, l.producers[|l.consumers|])
  {
    var n, next := |queues|, |l.consumers|;
    Quotient(next, n, 0, next);
    var q := queues[next];
    assert l.bindings[next] == (q, q);
    assert RoutedTo(l, q, q);
    forall c | c in l.consumers ensures c.queue != q {
      var k :| 0 <= k < next && l.consumers[k] == c;
      Quotient(k, n, 0, k);
    }
  }

  lemma SmallRemainder(i: nat, n: nat, consumers: nat, producers: nat)
    requires n > 0 && i < producers && consumers >= Min(n, producers)
    ensures i % n < consumers && i % n < n
  {
    if i < n {
      Quotient(i, n, 0, i);
    }
  }

  lemma ServedBy(queues: seq<string>, l: Layout, i: nat)
    requires queues != [] && Distinct(queues) && |l.bindings| == |queues|
    requires forall j :: 0 <= j < |queues| ==> l.bindings[j] == (queues[j], queues[j])
    requires forall k :: 0 <= k < |l.consumers| ==> l.consumers[k].queue == queues[k % |queues|]
    requires i < |l.producers| && i % |queues| < |l.consumers|
    requires l.producers[i].routingKey == queues[i % |queues|]
    ensures Served(l, l.producers[i])
  {
    var r := i % |queues|;
    var p := l.producers[i];
    Quotient(r, |queues|, 0, r);
    assert l.bindings[r] == (queues[r], p.routingKey);
    assert RoutedTo(l, p.routingKey, queues[r]);
    assert l.consumers[r] in l.consumers;
    forall q | RoutedTo(l, p.routingKey, q) ensures q == queues[r] {
      var j :| 0 <= j < |queues| && l.bindings[j] == (q, p.routingKey);
    }
  }

  /** The clients among the first `k` that get queue number `r` of `n`. */
  function ClientsOf(k: nat, r: nat, n: nat): set<nat>
    requires n > 0
  {
    set c | 0 <= c < k && c % n == r
  }

  /** Clients are spread evenly: any two queues differ by one client at most. */
  lemma {:induction false} EvenSpread(k: nat, r: nat, n: nat)
    requires r < n
    ensures |ClientsOf(k, r, n)| == k / n + if r < k % n then 1 else 0
  {
    if k == 0 {
      assert ClientsOf(0, r, n) == {};
    } else {
      EvenSpread(k - 1, r, n);
      DivStep(k - 1, n);
      OneMoreClient(k - 1, r, n);
    }
  }

  lemma OneMoreClient(k: nat, r: nat, n: nat)
    requires n > 0
    ensures |ClientsOf(k + 1, r, n)| == |ClientsOf(k, r, n)| + if k % n == r then 1 else 0
  {
    assert ClientsOf(k + 1, r, n) == if k % n == r then ClientsOf(k, r, n) + {k} else ClientsOf(k, r, n);
  }

  /** So are the queues over the connections, whose lists interleave back to the queues. */
  lemma {:induction false} StridesInterleave(s: seq<string>, c: nat, m: nat, n: nat)
    requires c < m && n <= |s|
    ensures |StrideTo(s, c, m, n)| == n / m + if c < n % m then 1 else 0
    ensures forall i :: 0 <= i < n && i % m == c ==>
              i / m < |StrideTo(s, c, m, n)| && StrideTo(s, c, m, n)[i / m] == s[i]
  {
    if n > 0 {
      StridesInterleave(s, c, m, n - 1);
      DivStep(n - 1, m);
    }
  }

  /** Each list of a spread has the queues of its connection, and their number. */
  lemma SizeInSpread(lists: seq<seq<string>>, names: seq<string>, m: nat, c: nat)
    requires c < m && Spread(lists, names, m)
    ensures |lists[c]| == |names| / m + if c < |names| % m then 1 else 0
  {
    StridesInterleave(names, c, m, |names|);
  }

  lemma PlaceInSpread(lists: seq<seq<string>>, names: seq<string>, m: nat, i: nat)
    requires m > 0 && i < |names| && Spread(lists, names, m)
    ensures |lists| == m && i / m < |lists[i % m]| && lists[i % m][i / m] == names[i]
  {
    StridesInterleave(names, i % m, m, |names|);
  }

  // ---------- exclusive queues ----------

  /** The connections opened for consumers of exclusive queues, and the cache that shares them. */
  class ConnectionCache {
    var cache: map<string, nat>
    var open: set<nat>

    constructor ()
      ensures cache == map[] && open == {}
    {
      cache, open := map[], {};
    }

    /** maybeUseCachedConnection, with the queue list as a key; none for server-named queues. */
    method MaybeUseCachedConnection(key: Option<string>, connection: nat) returns (toUse: nat)
      modifies this
      ensures key.None? ==> toUse == connection && cache == old(cache) && open == old(open)
      ensures key.Some? && key.value !in old(cache) ==>
                toUse == connection && cache == old(cache)[key.value := connection] && open == old(open)
      ensures key.Some? && key.value in old(cache) ==>
                && toUse == old(cache)[key.value] && cache == old(cache)
                && open == if connection == toUse then old(open) else old(open) - {connection}
    {
      toUse := connection;
      if key.Some? {
        if key.value in cache {
          toUse := cache[key.value];
          if connection != toUse {
            open := open - {connection};
          }
        } else {
          cache := cache[key.value := connection];
        }
      }
    }

    /** Connection number `i` is opened for a consumer, which asks for its queue. */
    method ConnectNext(keys: seq<string>, i: nat) returns (toUse: nat)
      requires i < |keys| && cache == FirstOf(keys, i) && open == FirstOf(keys, i).Values
      modifies this
      ensures cache == FirstOf(keys, i + 1) && open == FirstOf(keys, i + 1).Values
      ensures Uses(keys, i + 1) == Uses(keys, i) + [toUse]
    {
      FirstOfStep(keys, i);
      open := open + {i};
      toUse := MaybeUseCachedConnection(Some(keys[i]), i);
      assert open == FirstOf(keys, i + 1).Values;
    }

    /** One new connection per consumer, numbered in order, each asking for its queue. */
    method ConnectConsumers(keys: seq<string>) returns (used: seq<nat>)
      requires cache == map[] && open == {}
      modifies this
      ensures cache == FirstOf(keys, |keys|)
      ensures used == Uses(keys, |keys|)
      ensures forall k :: 0 <= k < |keys| ==> keys[k] in cache && used[k] == cache[keys[k]]
      ensures open == cache.Values && |open| == |cache|
    {
      used := [];
      var i := 0;
      while i < |keys|
        invariant 0 <= i <= |keys| && |used| == i
        invariant cache == FirstOf(keys, i) && open == FirstOf(keys, i).Values
        invariant used == Uses(keys, i)
      {
        var toUse := ConnectNext(keys, i);
        used := used + [toUse];
        i := i + 1;
      }
      FirstOfSize(keys, |keys|);
      UsesKept(keys, |keys|);
    }
  }

  lemma Extended(m: map<string, nat>, key: string, v: nat)
    requires key !in m
    ensures m[key := v].Values == m.Values + {v}
    ensures |m[key := v]| == |m| + 1
  {
    var longer := m[key := v];
    forall w | w in m.Values ensures w in longer.Values {
      var k :| k in m && m[k] == w;
      assert longer[k] == w;
    }
    assert longer[key] == v;
    assert longer.Keys == m.Keys + {key};
  }

  /** A cache asked once more: the first connection for a key stays. */
  function Enter(m: map<string, nat>, key: string, v: nat): (r: map<string, nat>) {
    if key in m then m else m[key := v]
  }

  /** Every key among the first `n`, with the number of the first connection that asked for it. */
  function FirstOf(keys: seq<string>, n: nat): map<string, nat>
    requires n <= |keys|
  {
    if n == 0 then map[] else Enter(FirstOf(keys, n - 1), keys[n - 1], n - 1)
  }

  lemma {:induction false} FirstOfMembers(keys: seq<string>, n: nat)
    requires n <= |keys|
    ensures forall i :: 0 <= i < n ==> keys[i] in FirstOf(keys, n) && FirstOf(keys, n)[keys[i]] <= i
    ensures forall k :: k in FirstOf(keys, n) ==> FirstOf(keys, n)[k] < n && keys[FirstOf(keys, n)[k]] == k
  {
    if n > 0 {
      FirstOfMembers(keys, n - 1);
    }
  }

  lemma FirstOfStep(keys: seq<string>, i: nat)
    requires i < |keys|
    ensures i !in FirstOf(keys, i).Values
    ensures FirstOf(keys, i + 1).Values == FirstOf(keys, i).Values + if keys[i] in FirstOf(keys, i) then {} else {i}
    ensures keys[i] in FirstOf(keys, i + 1)
    ensures keys[i] in FirstOf(keys, i) ==> FirstOf(keys, i)[keys[i]] != i
  {
    FirstOfMembers(keys, i);
    if keys[i] !in FirstOf(keys, i) {
      Extended(FirstOf(keys, i), keys[i], i);
    }
  }

  /** The connections that the first `n` consumers end up with. */
  function Uses(keys: seq<string>, n: nat): (u: seq<nat>)
    requires n <= |keys|
    ensures |u| == n
  {
    if n == 0 then []
    else
      FirstOfStep(keys, n - 1);
      Uses(keys, n - 1) + [FirstOf(keys, n)[keys[n - 1]]]
  }

  lemma {:induction false} UsesKept(keys: seq<string>, n: nat)
    requires n <= |keys|
    ensures forall k :: 0 <= k < n ==> keys[k] in FirstOf(keys, n) && Uses(keys, n)[k] == FirstOf(keys, n)[keys[k]]
  {
    if n > 0 {
      UsesKept(keys, n - 1);
      FirstOfStep(keys, n - 1);
    }
  }

  /** Every key has a connection of its own. */
  ghost predicate OneToOne(m: map<string, nat>) {
    |m.Values| == |m|
  }

  lemma FreshConnection(keys: seq<string>, i: nat)
    requires i <= |keys|
    ensures i !in FirstOf(keys, i).Values
  {
    FirstOfMembers(keys, i);
  }

  lemma EnterKeepsOneToOne(m: map<string, nat>, key: string, v: nat)
    requires OneToOne(m) && v !in m.Values
    ensures OneToOne(Enter(m, key, v))
  {
    if key !in m {
      Extended(m, key, v);
    }
  }

  lemma {:induction false} FirstOfSize(keys: seq<string>, n: nat)
    requires n <= |keys|
    ensures OneToOne(FirstOf(keys, n))
  {
    if n == 0 {
      assert FirstOf(keys, n) == map[];
    } else {
      FirstOfSize(keys, n - 1);
      FreshConnection(keys, n - 1);
      EnterKeepsOneToOne(FirstOf(keys, n - 1), keys[n - 1], n - 1);
    }
  }

  /** The first `k` of the queues, each with its own number. */
  ghost predicate FirstQueues(m: map<string, nat>, queues: seq<string>, k: nat) {
    && |m| == Min(k, |queues|)
    && (forall i :: 0 <= i < |queues| ==> (queues[i] in m <==> i < k))
    && (forall i :: 0 <= i < |queues| && i < k ==> m[queues[i]] == i)
  }

  lemma EnterNextQueue(m: map<string, nat>, queues: seq<string>, k: nat)
    requires queues != [] && Distinct(queues) && FirstQueues(m, queues, k)
    ensures FirstQueues(Enter(m, queues[k % |queues|], k), queues, k + 1)
  {
    if k < |queues| {
      Quotient(k, |queues|, 0, k);
      Extended(m, queues[k], k);
    }
  }

  /** Over `n` distinct queues walked in turn, queue `i` is asked for first by request `i`. */
  lemma {:induction false} FirstRequests(queues: seq<string>, keys: seq<string>, k: nat)
    requires queues != [] && Distinct(queues) && k <= |keys|
    requires forall i :: 0 <= i < |keys| ==> keys[i] == queues[i % |queues|]
    ensures FirstQueues(FirstOf(keys, k), queues, k)
  {
    if k == 0 {
      assert FirstOf(keys, k) == map[];
    } else {
      FirstRequests(queues, keys, k - 1);
      EnterNextQueue(FirstOf(keys, k - 1), queues, k - 1);
    }
  }

  /**
   * Consumers that walk `n` distinct queues: consumer `k` ends on connection `k mod n`, and
   * as many connections stay open as there are queues asked for.
   */
  lemma SharedConnections(queues: seq<string>, keys: seq<string>)
    requires queues != [] && Distinct(queues)
    requires forall i :: 0 <= i < |keys| ==> keys[i] == queues[i % |queues|]
    ensures forall k :: 0 <= k < |keys| ==> Uses(keys, |keys|)[k] == k % |queues|
    ensures |FirstOf(keys, |keys|)| == Min(|keys|, |queues|)
  {
    var n := |queues|;
    FirstRequests(queues, keys, |keys|);
    UsesKept(keys, |keys|);
    forall k | 0 <= k < |keys| ensures Uses(keys, |keys|)[k] == k % n {
      ModuloAtMost(k, n);
      assert keys[k] == queues[k % n];
    }
  }
}
