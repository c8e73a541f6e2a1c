/** The consumer's acknowledgements and transactions on one channel. */
module Consumers {
  import opened Arithmetic
  import opened Gcds

  datatype Config = Config(
    autoAck: bool,
    multiAckEvery: int,
    txSize: nat,   // 0: the channel is not transactional
    msgLimit: int)

  /**
   * The broker's side of the channel. Deliveries of the current epoch are the tags
   * `base + 1 .. top`. On a transactional channel an acknowledgement only takes
   * effect at the next commit.
   */
  datatype Broker = Broker(base: nat, top: nat, unacked: set<nat>, inTx: set<nat>)

  datatype State = State(
    received: nat,      // receivedMessageCount
    epochCount: nat,    // epochMessageCount
    lastDelivery: nat,  // lastDeliveryTag
    lastAcked: nat,     // lastAckedDeliveryTag
    completed: bool,
    broker: Broker)

  // ---------- the broker ----------

  function Deliver(b: Broker, autoAck: bool): Broker {
    b.(top := b.top + 1, unacked := if autoAck then b.unacked else b.unacked + {b.top + 1})
  }

  function UpTo(tags: set<nat>, tag: nat): set<nat> {
    set k | k in tags && k <= tag
  }

  /** basic.ack and basic.nack: `multiple` settles every tag up to and including `tag`. */
  function Settle(b: Broker, tag: nat, multiple: bool, tx: bool): Broker {
    var settled := if multiple then UpTo(b.unacked, tag) else b.unacked * {tag};
    b.(unacked := b.unacked - settled, inTx := if tx then b.inTx + settled else b.inTx)
  }

  function Commit(b: Broker): Broker {
    b.(inTx := {})
  }

  /** Deliveries the broker cannot forget yet. */
  function Unsettled(s: State): set<nat> {
    s.broker.inTx + s.broker.unacked
  }

  // ---------- the consumer ----------

  function AckIfNecessary(cfg: Config, s: State, tag: nat): State {
    if cfg.autoAck then s
    else if cfg.multiAckEvery == 0 then
      s.(broker := Settle(s.broker, tag, false, cfg.txSize != 0), lastAcked := tag)
    else if s.epochCount % cfg.multiAckEvery == 0 then
      s.(broker := Settle(s.broker, tag, true, cfg.txSize != 0), lastAcked := tag)
    else s
  }

  function CommitIfNecessary(cfg: Config, s: State): State {
    if cfg.txSize != 0 && s.epochCount % cfg.txSize == 0 then s.(broker := Commit(s.broker)) else s
  }

  /** handleMessage; `uninterrupted` is the answer of the latency simulation. */
  function Handle(cfg: Config, s: State, tag: nat, uninterrupted: bool): State {
    var counted := s.(received := s.received + 1, epochCount := s.epochCount + 1);
    var handled :=
      if (cfg.msgLimit == 0 || counted.received <= cfg.msgLimit) && uninterrupted
      then CommitIfNecessary(cfg, AckIfNecessary(cfg, counted, tag)).(lastDelivery := tag)
      else counted;
    if cfg.msgLimit != 0 && counted.received >= cfg.msgLimit then handled.(completed := true) else handled
  }

  predicate FlushFires(cfg: Config, s: State) {
    !cfg.autoAck && s.lastAcked < s.lastDelivery
  }

  /** maybeAckCommitBeforeExit. */
  function ExitFlush(cfg: Config, s: State): State {
    if !FlushFires(cfg, s) then s
    else
      var acked := s.(broker := Settle(s.broker, s.lastDelivery, true, cfg.txSize != 0));
      if cfg.txSize != 0 then acked.(broker := Commit(acked.broker)) else acked
  }

  class Consumer {
    const cfg: Config
    var received: nat
    var epochCount: nat
    var lastDelivery: nat
    var lastAcked: nat
    var completed: bool
    var broker: Broker
    var countDowns: nat  // calls to the completion handler

    constructor (cfg: Config)
      ensures this.cfg == cfg && Contents() == INITIAL && countDowns == 0 && Valid()
    {
      this.cfg := cfg;
      received, epochCount, lastDelivery, lastAcked := 0, 0, 0, 0;
      completed, countDowns := false, 0;
      broker := Broker(0, 0, {}, {});
    }

    ghost function Contents(): State
      reads this
    {
      State(received, epochCount, lastDelivery, lastAcked, completed, broker)
    }

    /** The handler is told at most once, when `completed` is raised. */
    ghost predicate Valid()
      reads this
    {
      countDowns == if completed then 1 else 0
    }

    method CountDown()
      requires Valid()
      modifies this`completed, this`countDowns
      ensures Valid() && completed
    {
      if !completed {
        completed := true;
        countDowns := countDowns + 1;
      }
    }

    method AckNack(tag: nat)
      modifies this`broker, this`lastAcked
      ensures Contents() == AckIfNecessary(cfg, old(Contents()), tag)
      ensures broker.unacked ==
                if cfg.autoAck then old(broker.unacked)
                else if cfg.multiAckEvery == 0 then old(broker.unacked) - {tag}
                else if epochCount % cfg.multiAckEvery == 0 then set k | k in old(broker.unacked) && k > tag
                else old(broker.unacked)
    {
      if !cfg.autoAck {
        if cfg.multiAckEvery == 0 {
          broker := Settle(broker, tag, false, cfg.txSize != 0);
          lastAcked := tag;
        } else if epochCount % cfg.multiAckEvery == 0 {
          broker := Settle(broker, tag, true, cfg.txSize != 0);
          lastAcked := tag;
        }
      }
    }

    method HandleMessage(tag: nat, uninterrupted: bool)
      requires Valid()
      modifies this
      ensures Valid() && Contents() == Handle(cfg, old(Contents()), tag, uninterrupted)
    {
      received := received + 1;
      epochCount := epochCount + 1;
      if cfg.msgLimit == 0 || received <= cfg.msgLimit {
        if uninterrupted {
          AckNack(tag);
          if cfg.txSize != 0 && epochCount % cfg.txSize == 0 {
            broker := Commit(broker);
          }
          lastDelivery := tag;
        }
      }
      if cfg.msgLimit != 0 && received >= cfg.msgLimit {
        CountDown();
      }
    }

    method MaybeAckCommitBeforeExit()
      requires Valid()
      modifies this`broker
      ensures Valid() && Contents() == ExitFlush(cfg, old(Contents()))
    {
      if !cfg.autoAck && lastAcked < lastDelivery {
        broker := Settle(broker, lastDelivery, true, cfg.txSize != 0);
        if cfg.txSize != 0 {
          broker := Commit(broker);
        }
      }
    }

    /** The end of maybeStopIfNoActivityOrQueueEmpty, for an idle consumer or an empty queue. */
    method Stop()
      requires Valid()
      modifies this
      ensures Valid() && Contents() == Step(cfg, old(Contents()), ExitCheck)
    {
      MaybeAckCommitBeforeExit();
      CountDown();
    }
  }

  // ---------- runs ----------

  /**
   * An exit check finds the consumer idle, or its queue empty, whether it is done or not. A recovered channel continues the visible tags above every tag seen before, and
   * starts with nothing outstanding; the epoch count restarts.
   */
  datatype Event = Message | Recovery(base: nat) | ExitCheck

  const INITIAL := State(0, 0, 0, 0, false, Broker(0, 0, {}, {}))

  function Step(cfg: Config, s: State, e: Event): State {
    match e
    case Message =>
      var delivered := s.(broker := Deliver(s.broker, cfg.autoAck));
      Handle(cfg, delivered, delivered.broker.top, true)
    case Recovery(base) => s.(epochCount := 0, broker := Broker(base, base, {}, {}))
    case ExitCheck => ExitFlush(cfg, s).(completed := true)
  }

  function Run(cfg: Config, s: State, es: seq<Event>): State
    decreases |es|
  {
    if es == [] then s else Run(cfg, Step(cfg, s, es[0]), es[1..])
  }

  /** Tags never go back. */
  predicate Normal(cfg: Config, s: State, es: seq<Event>)
    decreases |es|
  {
    es == []
    || (&& (es[0].Recovery? ==> es[0].base >= s.broker.top)
        && Normal(cfg, Step(cfg, s, es[0]), es[1..]))
  }

  // ---------- the shape of every reachable state ----------

  /** One message is acked out of that many. */
  function AckPeriod(cfg: Config): (d: nat)
    ensures d > 0
  {
    if cfg.multiAckEvery == 0 then 1 else Abs(cfg.multiAckEvery)
  }

  /** Acks take effect every that many messages. */
  function CommitPeriod(cfg: Config): (t: nat)
    ensures t > 0
  {
    if cfg.txSize == 0 then 1 else cfg.txSize
  }

  /** How many of the first `n` messages of an epoch are acked. */
  function AckedPrefix(cfg: Config, n: nat): (a: nat)
    ensures a <= n
  {
    n - n % AckPeriod(cfg)
  }

  /** How many of the first `n` messages of an epoch are settled for good. */
  function SettledPrefix(cfg: Config, n: nat): (c: nat)
    ensures c <= AckedPrefix(cfg, n)
  {
    var m := n - n % CommitPeriod(cfg);
    PrefixMonotone(n, m, AckPeriod(cfg));
    AckedPrefix(cfg, m)
  }

  lemma PrefixMonotone(n: nat, m: nat, d: nat)
    requires m <= n && d > 0
    ensures m - m % d <= n - n % d
  {
    assert m == d * (m / d) + m % d;
    assert n == d * (n / d) + n % d;
    if m / d > n / d {
      Multiple(d, m / d - n / d);
      Distribute(d, m / d, n / d);
    } else {
      Distribute(d, n / d, m / d);
    }
  }

  /** The tags above `low`, up to and including `high`. */
  function Tags(low: nat, high: nat): set<nat> {
    if high <= low then {} else Tags(low, high - 1) + {high}
  }

  lemma {:induction false} TagsMembers(low: nat, high: nat)
    ensures forall k :: k in Tags(low, high) <==> low < k <= high
    ensures |Tags(low, high)| == if low <= high then high - low else 0
  {
    if high > low {
      TagsMembers(low, high - 1);
    }
  }

  lemma TagsJoin(low: nat, mid: nat, high: nat)
    requires low <= mid <= high
    ensures Tags(low, mid) + Tags(mid, high) == Tags(low, high)
    ensures UpTo(Tags(low, high), high) == Tags(low, high)
    ensures Tags(low, high) - Tags(low, high) == {}
  {
    TagsMembers(low, mid);
    TagsMembers(mid, high);
    TagsMembers(low, high);
  }

  /** The messages of the epoch that were processed: all of them, up to the limit of the consumer. */
  function Processed(cfg: Config, s: State): (p: nat)
    ensures p <= s.epochCount
  {
    var before := s.received - s.epochCount;
    if cfg.msgLimit == 0 then s.epochCount
    else if cfg.msgLimit <= before then 0
    else Min(cfg.msgLimit - before, s.epochCount)
  }

  /**
   * The state after `n` messages of an epoch, `p` of them processed, `e` acked and `c` settled;
   * the last of the acks that the consumer remembers was for message `a`.
   */
  ghost predicate ShapeAt(s: State, n: nat, p: nat, e: nat, a: nat, c: nat) {
    var b := s.broker;
    && c <= e <= p <= n == s.epochCount && a <= e
    && b.top == b.base + n
    && b.unacked == Tags(b.base + e, b.top)
    && b.inTx == Tags(b.base + c, b.base + e)
    && (if p > 0 then s.lastDelivery == b.base + p else s.lastDelivery <= b.base)
    && (if a > 0 then s.lastAcked == b.base + a else s.lastAcked <= b.base)
  }

  /** `f` messages of the epoch were flushed by an exit check. */
  ghost predicate Shape(cfg: Config, s: State, f: nat) {
    var p := Processed(cfg, s);
    && f <= p && (f == 0 || f % AckPeriod(cfg) != 0)
    && ShapeAt(s, s.epochCount, p, Max(AckedPrefix(cfg, p), f), AckedPrefix(cfg, p), Max(SettledPrefix(cfg, p), f))
  }

  /** How many messages of the current epoch the exit checks of a run have flushed. */
  function Flushed(cfg: Config, s: State, f: nat, es: seq<Event>): nat
    decreases |es|
  {
    if es == [] then f
    else Flushed(cfg, Step(cfg, s, es[0]), FlushedBy(cfg, s, f, es[0]), es[1..])
  }

  function FlushedBy(cfg: Config, s: State, f: nat, e: Event): nat {
    match e
    case Message => f
    case Recovery(_) => 0
    case ExitCheck => if FlushFires(cfg, s) then Processed(cfg, s) else f
  }

  lemma {:induction false} NothingFlushed(cfg: Config, s: State, es: seq<Event>)
    requires ExitCheck !in es
    ensures Flushed(cfg, s, 0, es) == 0
    decreases |es|
  {
    if es != [] {
      NothingFlushed(cfg, Step(cfg, s, es[0]), es[1..]);
    }
  }

  /** A negative period divides the same counts as its absolute value. */
  lemma AckCadence(cfg: Config, n: nat)
    requires cfg.multiAckEvery != 0
    ensures n % cfg.multiAckEvery == n % AckPeriod(cfg)
  {
    ModuloAbs(n, cfg.multiAckEvery);
  }

  lemma AckedPrefixStep(cfg: Config, n: nat)
    ensures AckedPrefix(cfg, n + 1) == if (n + 1) % AckPeriod(cfg) == 0 then n + 1 else AckedPrefix(cfg, n)
  {
    DivStep(n, AckPeriod(cfg));
  }

  lemma SettledPrefixStep(cfg: Config, n: nat)
    ensures SettledPrefix(cfg, n + 1)
         == if (n + 1) % CommitPeriod(cfg) == 0 then AckedPrefix(cfg, n + 1) else SettledPrefix(cfg, n)
  {
    DivStep(n, CommitPeriod(cfg));
  }

  predicate AckDue(cfg: Config, n: nat) {
    cfg.multiAckEvery == 0 || n % cfg.multiAckEvery == 0
  }

  predicate SettleDue(cfg: Config, n: nat) {
    cfg.txSize == 0 || n % cfg.txSize == 0
  }

  lemma AckKeepsShape(cfg: Config, s: State, low: nat, tag: nat)
    requires !cfg.autoAck && low < tag && s.broker.unacked == Tags(low, tag)
    requires cfg.multiAckEvery == 0 ==> low == tag - 1
    ensures var acked := AckIfNecessary(cfg, s, tag);
            if AckDue(cfg, s.epochCount)
            then acked == s.(lastAcked := tag,
                             broker := s.broker.(unacked := {},
                               inTx := if cfg.txSize == 0 then s.broker.inTx else s.broker.inTx + Tags(low, tag)))
            else acked == s
  {
    TagsJoin(low, tag, tag);
    if cfg.multiAckEvery == 0 {
      assert Tags(low, tag) == {tag};
      assert s.broker.unacked * {tag} == s.broker.unacked;
    }
  }

  lemma CommitKeepsShape(cfg: Config, s: State, low: nat, high: nat, n: nat)
    requires s.epochCount == n && low <= high
    requires s.broker.inTx == if cfg.txSize == 0 then {} else Tags(low, high)
    requires cfg.txSize == 0 ==> SettleDue(cfg, n)
    ensures CommitIfNecessary(cfg, s)
         == s.(broker := s.broker.(inTx := Tags(if SettleDue(cfg, n) then high else low, high)))
  {
  }

  lemma StepIsCommitAfterAck(cfg: Config, s: State)
    requires !cfg.autoAck && (cfg.msgLimit == 0 || s.received < cfg.msgLimit)
    ensures var tag := s.broker.top + 1;
            var counted := s.(broker := Deliver(s.broker, false), received := s.received + 1,
                              epochCount := s.epochCount + 1);
            var done := CommitIfNecessary(cfg, AckIfNecessary(cfg, counted, tag));
            var t := Step(cfg, s, Message);
            && t.broker == done.broker && t.lastDelivery == tag
            && t.lastAcked == done.lastAcked && t.epochCount == s.epochCount + 1
  {
  }

  /** The broker once message `n` of an epoch, of tag `base + n`, has been through the ack and the commit. */
  function BrokerAfter(cfg: Config, base: nat, n: nat, a: nat, c: nat): (b: Broker)
    requires c <= a <= n
  {
    var a' := if AckDue(cfg, n) then n else a;
    Broker(base, base + n, Tags(base + a', base + n), Tags(base + if SettleDue(cfg, n) then a' else c, base + a'))
  }

  lemma AckThenCommit(cfg: Config, s: State, base: nat, n: nat, a: nat, c: nat)
    requires !cfg.autoAck && c <= a < n == s.epochCount
    requires s.broker == Broker(base, base + n, Tags(base + a, base + n), Tags(base + c, base + a))
    requires cfg.multiAckEvery == 0 ==> a == n - 1
    requires cfg.txSize == 0 ==> c == a
    ensures var done := CommitIfNecessary(cfg, AckIfNecessary(cfg, s, base + n));
            done == s.(lastAcked := if AckDue(cfg, n) then base + n else s.lastAcked,
                       broker := BrokerAfter(cfg, base, n, a, c))
  {
    AckKeepsShape(cfg, s, base + a, base + n);
    var acked := AckIfNecessary(cfg, s, base + n);
    TagsJoin(base + c, base + a, base + n);
    var high := if AckDue(cfg, n) then n else a;
    CommitKeepsShape(cfg, acked, base + c, base + high, n);
  }

  lemma ShapeFromBroker(cfg: Config, t: State, base: nat, n: nat, e: nat, a: nat, c: nat)
    requires c <= e < n == t.epochCount && a <= e
    requires t.broker == BrokerAfter(cfg, base, n, e, c) && t.lastDelivery == base + n
    requires if AckDue(cfg, n) then t.lastAcked == base + n
             else if a > 0 then t.lastAcked == base + a else t.lastAcked <= base
    ensures var e', a' := if AckDue(cfg, n) then n else e, if AckDue(cfg, n) then n else a;
            ShapeAt(t, n, n, e', a', if SettleDue(cfg, n) then e' else c)
  {
  }

  lemma MessageShapeAt(cfg: Config, s: State, n: nat, e: nat, a: nat, c: nat)
    requires !cfg.autoAck && ShapeAt(s, n, n, e, a, c)
    requires cfg.msgLimit == 0 || s.received < cfg.msgLimit
    requires cfg.multiAckEvery == 0 ==> e == n
    requires cfg.txSize == 0 ==> c == e
    ensures var e', a' := if AckDue(cfg, n + 1) then n + 1 else e, if AckDue(cfg, n + 1) then n + 1 else a;
            ShapeAt(Step(cfg, s, Message), n + 1, n + 1, e', a', if SettleDue(cfg, n + 1) then e' else c)
  {
    var base, tag := s.broker.base, s.broker.top + 1;
    var counted := s.(broker := Deliver(s.broker, false), received := s.received + 1, epochCount := n + 1);
    assert counted.broker.unacked == Tags(base + e, tag);
    AckThenCommit(cfg, counted, base, n + 1, e, c);
    StepIsCommitAfterAck(cfg, s);
    ShapeFromBroker(cfg, Step(cfg, s, Message), base, n + 1, e, a, c);
  }

  /** Beyond the limit a message is delivered and counted only. */
  lemma SkippedShapeAt(cfg: Config, s: State, n: nat, p: nat, e: nat, a: nat, c: nat)
    requires !cfg.autoAck && ShapeAt(s, n, p, e, a, c)
    requires cfg.msgLimit != 0 && s.received >= cfg.msgLimit
    ensures ShapeAt(Step(cfg, s, Message), n + 1, p, e, a, c)
  {
    assert Tags(s.broker.base + e, s.broker.top + 1) == Tags(s.broker.base + e, s.broker.top) + {s.broker.top + 1};
  }

  lemma ProcessedStep(cfg: Config, s: State)
    ensures var t := Step(cfg, s, Message);
            if cfg.msgLimit == 0 || s.received < cfg.msgLimit
            then Processed(cfg, s) == s.epochCount && Processed(cfg, t) == t.epochCount
            else Processed(cfg, t) == Processed(cfg, s)
  {
  }

  lemma PrefixSteps(cfg: Config, n: nat)
    ensures AckedPrefix(cfg, n + 1) == if AckDue(cfg, n + 1) then n + 1 else AckedPrefix(cfg, n)
    ensures SettledPrefix(cfg, n + 1) == if SettleDue(cfg, n + 1) then AckedPrefix(cfg, n + 1) else SettledPrefix(cfg, n)
    ensures cfg.multiAckEvery == 0 ==> AckedPrefix(cfg, n) == n
    ensures cfg.txSize == 0 ==> SettledPrefix(cfg, n) == AckedPrefix(cfg, n)
  {
    AckedPrefixStep(cfg, n);
    SettledPrefixStep(cfg, n);
    if cfg.multiAckEvery != 0 {
      AckCadence(cfg, n + 1);
    }
  }

  /** Each message moves the acked and the settled prefix as the two periods say, and a skipped one moves neither. */
  lemma MessageKeepsShape(cfg: Config, s: State, f: nat)
    requires !cfg.autoAck && Shape(cfg, s, f)
    ensures Shape(cfg, Step(cfg, s, Message), f)
  {
    var p := Processed(cfg, s);
    var e, a, c := Max(AckedPrefix(cfg, p), f), AckedPrefix(cfg, p), Max(SettledPrefix(cfg, p), f);
    ProcessedStep(cfg, s);
    PrefixSteps(cfg, p);
    if cfg.msgLimit == 0 || s.received < cfg.msgLimit {
      MessageShapeAt(cfg, s, p, e, a, c);
    } else {
      SkippedShapeAt(cfg, s, s.epochCount, p, e, a, c);
    }
  }

  lemma UpToEarlier(low: nat, mid: nat, high: nat)
    requires low <= mid <= high
    ensures Tags(low, high) - UpTo(Tags(low, high), mid) == Tags(mid, high)
  {
    TagsMembers(low, high);
    TagsMembers(mid, high);
  }

  lemma NothingUpTo(low: nat, high: nat, tag: nat)
    requires tag <= low
    ensures UpTo(Tags(low, high), tag) == {}
  {
    TagsMembers(low, high);
  }

  /** The flush acks every processed message, and settles them all when it fires. */
  lemma FlushShapeAt(cfg: Config, s: State, n: nat, p: nat, e: nat, a: nat, c: nat)
    requires !cfg.autoAck && ShapeAt(s, n, p, e, a, c)
    requires cfg.txSize == 0 ==> c == e
    ensures p > 0 ==> (FlushFires(cfg, s) <==> a < p)
    ensures FlushFires(cfg, s) ==> ShapeAt(ExitFlush(cfg, s), n, p, p, a, p)
  {
    var b := s.broker;
    if p > 0 {
      UpToEarlier(b.base + e, b.base + p, b.top);
      TagsJoin(b.base + c, b.base + e, b.base + p);
    } else {
      NothingUpTo(b.base, b.top, s.lastDelivery);
    }
  }

  lemma CheckKeepsShape(cfg: Config, s: State, f: nat)
    requires !cfg.autoAck && Shape(cfg, s, f)
    ensures Shape(cfg, Step(cfg, s, ExitCheck), FlushedBy(cfg, s, f, ExitCheck))
  {
    var p := Processed(cfg, s);
    PrefixSteps(cfg, p);
    FlushShapeAt(cfg, s, s.epochCount, p, Max(AckedPrefix(cfg, p), f), AckedPrefix(cfg, p), Max(SettledPrefix(cfg, p), f));
    NoPrefixOfNone(cfg);
  }

  lemma NoPrefixOfNone(cfg: Config)
    ensures AckedPrefix(cfg, 0) == SettledPrefix(cfg, 0) == 0
  {
  }

  lemma StepKeepsShape(cfg: Config, s: State, f: nat, e: Event)
    requires !cfg.autoAck && Shape(cfg, s, f) && (e.Recovery? ==> e.base >= s.broker.top)
    ensures Shape(cfg, Step(cfg, s, e), FlushedBy(cfg, s, f, e))
  {
    match e
    case Message => MessageKeepsShape(cfg, s, f);
    case Recovery(_) => NoPrefixOfNone(cfg);
    case ExitCheck => CheckKeepsShape(cfg, s, f);
  }

  lemma {:induction false} RunKeepsShape(cfg: Config, s: State, f: nat, es: seq<Event>)
    requires !cfg.autoAck && Shape(cfg, s, f) && Normal(cfg, s, es)
    ensures Shape(cfg, Run(cfg, s, es), Flushed(cfg, s, f, es))
    decreases |es|
  {
    if es != [] {
      StepKeepsShape(cfg, s, f, es[0]);
      RunKeepsShape(cfg, Step(cfg, s, es[0]), FlushedBy(cfg, s, f, es[0]), es[1..]);
    }
  }

  lemma Reached(cfg: Config, es: seq<Event>)
    requires !cfg.autoAck && Normal(cfg, INITIAL, es)
    ensures Shape(cfg, Run(cfg, INITIAL, es), Flushed(cfg, INITIAL, 0, es))
  {
    NoPrefixOfNone(cfg);
    RunKeepsShape(cfg, INITIAL, 0, es);
  }

  // ---------- what is outstanding after n messages of an epoch ----------

  lemma UnackedAt(s: State, n: nat, p: nat, e: nat, a: nat, c: nat)
    requires ShapeAt(s, n, p, e, a, c)
    ensures var b := s.broker;
            |b.unacked| == n - e && (forall k :: k in b.unacked <==> b.base + e < k <= b.top)
  {
    TagsMembers(s.broker.base + e, s.broker.top);
  }

  lemma UnsettledAt(s: State, n: nat, p: nat, e: nat, a: nat, c: nat)
    requires ShapeAt(s, n, p, e, a, c)
    ensures Unsettled(s) == Tags(s.broker.base + c, s.broker.top)
  {
    TagsJoin(s.broker.base + c, s.broker.base + e, s.broker.top);
  }

  lemma OutstandingAt(s: State, n: nat, p: nat, e: nat, a: nat, c: nat)
    requires ShapeAt(s, n, p, e, a, c)
    ensures var b := s.broker;
            |Unsettled(s)| == n - c && (forall k :: k in Unsettled(s) <==> b.base + c < k <= b.top)
  {
    UnsettledAt(s, n, p, e, a, c);
    TagsMembers(s.broker.base + c, s.broker.top);
  }

  /** The length of the settled prefix, in the two nested floors. */
  lemma NestedFloors(cfg: Config, n: nat)
    ensures var a, t := AckPeriod(cfg), CommitPeriod(cfg);
            SettledPrefix(cfg, n) == a * ((t * (n / t)) / a)
  {
    FloorForm(n, CommitPeriod(cfg));
    FloorForm(n - n % CommitPeriod(cfg), AckPeriod(cfg));
  }

  /**
   * In every run, the deliveries of the current epoch still to be acked, and those not
   * settled for good, are the ones after two prefixes: the acks and the commits that fell
   * due among the processed messages, NestedFloors giving the length of the second, or what
   * the last exit check flushed. Without exit checks and message limit, `n mod A` are unacked.
   */
  lemma OutstandingAfterRun(cfg: Config, es: seq<Event>)
    requires !cfg.autoAck && Normal(cfg, INITIAL, es)
    ensures var s := Run(cfg, INITIAL, es);
            var n, p, b, f := s.epochCount, Processed(cfg, s), s.broker, Flushed(cfg, INITIAL, 0, es);
            && b.top == b.base + n
            && (forall k :: k in b.unacked <==> b.base + Max(AckedPrefix(cfg, p), f) < k <= b.top)
            && (forall k :: k in Unsettled(s) <==> b.base + Max(SettledPrefix(cfg, p), f) < k <= b.top)
            && (ExitCheck !in es && cfg.msgLimit == 0 ==> |b.unacked| == n % AckPeriod(cfg))
  {
    Reached(cfg, es);
    var s := Run(cfg, INITIAL, es);
    var p, f := Processed(cfg, s), Flushed(cfg, INITIAL, 0, es);
    UnackedAt(s, s.epochCount, p, Max(AckedPrefix(cfg, p), f), AckedPrefix(cfg, p), Max(SettledPrefix(cfg, p), f));
    OutstandingAt(s, s.epochCount, p, Max(AckedPrefix(cfg, p), f), AckedPrefix(cfg, p), Max(SettledPrefix(cfg, p), f));
    if ExitCheck !in es {
      NothingFlushed(cfg, INITIAL, es);
    }
  }

  lemma FloorForm(n: nat, d: nat)
    requires d > 0
    ensures n - n % d == d * (n / d)
  {
  }

  /** The most that is ever outstanding. */
  function MostUnsettled(cfg: Config): int {
    AckPeriod(cfg) + CommitPeriod(cfg) - 1 - Gcd(AckPeriod(cfg), CommitPeriod(cfg))
  }

  /** At most A + T - 1 - gcd(A, T) deliveries are outstanding, so never more than A + T - 2. */
  lemma UnsettledBound(cfg: Config, n: nat)
    ensures n - SettledPrefix(cfg, n) <= MostUnsettled(cfg) <= AckPeriod(cfg) + CommitPeriod(cfg) - 2
  {
    var d, t := AckPeriod(cfg), CommitPeriod(cfg);
    FloorForm(n, t);
    RemainderBound(d, t, n / t);
  }

  /** And that many are: the bound is reached. */
  lemma UnsettledBoundReached(cfg: Config) returns (n: nat)
    ensures n - SettledPrefix(cfg, n) == MostUnsettled(cfg)
  {
    var d, t := AckPeriod(cfg), CommitPeriod(cfg);
    var k := LargestRemainder(d, t);
    assert t * k >= 0;
    n := t * k + (t - 1);
    Quotient(n, t, k, t - 1);
  }

  // ---------- the prefetch gates ----------

  /** The consumer's and the channel's prefetch; no limit if not positive. One queue is consumed on the channel. */
  datatype Prefetch = Prefetch(consumer: int, channel: int)

  predicate Below(outstanding: int, prefetch: int) {
    prefetch <= 0 || outstanding < prefetch
  }

  /** The broker delivers while fewer deliveries are outstanding than either prefetch allows. */
  predicate GateOpen(q: Prefetch, s: State) {
    Below(|Unsettled(s)|, q.consumer) && Below(|Unsettled(s)|, q.channel)
  }

  const UNLIMITED := Prefetch(0, 0)

  /** A run the broker lets happen. */
  predicate Gated(cfg: Config, q: Prefetch, s: State, es: seq<Event>)
    decreases |es|
  {
    es == []
    || (&& (es[0].Message? ==> GateOpen(q, s))
        && (es[0].Recovery? ==> es[0].base >= s.broker.top)
        && Gated(cfg, q, Step(cfg, s, es[0]), es[1..]))
  }

  ghost predicate NeverStalls(cfg: Config, q: Prefetch) {
    forall es :: Gated(cfg, q, INITIAL, es) ==> GateOpen(q, Run(cfg, INITIAL, es))
  }

  lemma {:induction false} GatedIsNormal(cfg: Config, q: Prefetch, s: State, es: seq<Event>)
    requires Gated(cfg, q, s, es)
    ensures Normal(cfg, s, es)
    decreases |es|
  {
    if es != [] {
      GatedIsNormal(cfg, q, Step(cfg, s, es[0]), es[1..]);
    }
  }

  function Messages(n: nat): seq<Event> {
    if n == 0 then [] else Messages(n - 1) + [Message]
  }

  lemma {:induction false} RunSnoc(cfg: Config, q: Prefetch, s: State, es: seq<Event>, e: Event)
    ensures Run(cfg, s, es + [e]) == Step(cfg, Run(cfg, s, es), e)
    ensures e.Message? ==>
      (Gated(cfg, q, s, es + [e]) <==> Gated(cfg, q, s, es) && GateOpen(q, Run(cfg, s, es)))
    decreases |es|
  {
    if es == [] {
      assert es + [e] == [e];
      assert [e][1..] == [];
    } else {
      assert (es + [e])[1..] == es[1..] + [e];
      RunSnoc(cfg, q, Step(cfg, s, es[0]), es[1..], e);
    }
  }

  lemma {:induction false} AfterMessages(cfg: Config, n: nat)
    requires !cfg.autoAck && cfg.msgLimit == 0
    ensures Shape(cfg, Run(cfg, INITIAL, Messages(n)), 0)
    ensures Run(cfg, INITIAL, Messages(n)).epochCount == n
  {
    if n == 0 {
      NoPrefixOfNone(cfg);
    } else {
      AfterMessages(cfg, n - 1);
      RunSnoc(cfg, UNLIMITED, INITIAL, Messages(n - 1), Message);
      MessageKeepsShape(cfg, Run(cfg, INITIAL, Messages(n - 1)), 0);
    }
  }

  /** If some count of messages fills the gate, the broker's deliveries run into it. */
  lemma {:induction false} RunsIntoGate(cfg: Config, q: Prefetch, n: nat) returns (es: seq<Event>)
    requires !cfg.autoAck && cfg.msgLimit == 0
    requires Gated(cfg, q, INITIAL, Messages(n)) || exists k :: 0 <= k < n && !GateOpen(q, Run(cfg, INITIAL, Messages(k)))
    requires !GateOpen(q, Run(cfg, INITIAL, Messages(n)))
    ensures Gated(cfg, q, INITIAL, es) && !GateOpen(q, Run(cfg, INITIAL, es))
  {
    if Gated(cfg, q, INITIAL, Messages(n)) {
      es := Messages(n);
    } else {
      var k :| 0 <= k < n && !GateOpen(q, Run(cfg, INITIAL, Messages(k)));
      GatedOrBlocked(cfg, q, k);
      es := RunsIntoGate(cfg, q, k);
    }
  }

  lemma {:induction false} GatedOrBlocked(cfg: Config, q: Prefetch, n: nat)
    ensures Gated(cfg, q, INITIAL, Messages(n))
         || exists k :: 0 <= k < n && !GateOpen(q, Run(cfg, INITIAL, Messages(k)))
  {
    if n > 0 {
      GatedOrBlocked(cfg, q, n - 1);
      RunSnoc(cfg, q, INITIAL, Messages(n - 1), Message);
    }
  }

  /** What is unsettled after any run stays within the bound, and after some run of messages reaches it. */
  lemma UnsettledWithin(cfg: Config, es: seq<Event>)
    requires !cfg.autoAck && cfg.msgLimit == 0 && Normal(cfg, INITIAL, es)
    ensures |Unsettled(Run(cfg, INITIAL, es))| <= MostUnsettled(cfg)
  {
    Reached(cfg, es);
    var s, f := Run(cfg, INITIAL, es), Flushed(cfg, INITIAL, 0, es);
    var n := s.epochCount;
    OutstandingAt(s, n, n, Max(AckedPrefix(cfg, n), f), AckedPrefix(cfg, n), Max(SettledPrefix(cfg, n), f));
    UnsettledBound(cfg, n);
  }

  lemma UnsettledAfterMessages(cfg: Config, n: nat)
    requires !cfg.autoAck && cfg.msgLimit == 0
    ensures |Unsettled(Run(cfg, INITIAL, Messages(n)))| == n - SettledPrefix(cfg, n)
  {
    AfterMessages(cfg, n);
    OutstandingAt(Run(cfg, INITIAL, Messages(n)), n, n, AckedPrefix(cfg, n), AckedPrefix(cfg, n), SettledPrefix(cfg, n));
  }

  /**
   * Exactly when a consumer with manual acks never blocks its own deliveries: with a
   * commit period of T, each prefetch that is set must be at least A + T - gcd(A, T).
   */
  lemma NeverStallsExactly(cfg: Config, q: Prefetch)
    requires !cfg.autoAck && cfg.msgLimit == 0
    ensures NeverStalls(cfg, q) <==>
              && (q.consumer <= 0 || MostUnsettled(cfg) < q.consumer)
              && (q.channel <= 0 || MostUnsettled(cfg) < q.channel)
  {
    if Below(MostUnsettled(cfg), q.consumer) && Below(MostUnsettled(cfg), q.channel) {
      forall es | Gated(cfg, q, INITIAL, es) ensures GateOpen(q, Run(cfg, INITIAL, es)) {
        GatedIsNormal(cfg, q, INITIAL, es);
        UnsettledWithin(cfg, es);
      }
    } else {
      var n := UnsettledBoundReached(cfg);
      UnsettledAfterMessages(cfg, n);
      GatedOrBlocked(cfg, q, n);
      var es := RunsIntoGate(cfg, q, n);
    }
  }

  /** The check made on the command line. */
  predicate ValidateMultiAckEveryQos(multiAckEvery: int, qos: int) {
    multiAckEvery == 0 || qos == 0 || multiAckEvery <= qos
  }

  /**
   * Without transactions, an acceptance is right exactly when no prefetch that is set is
   * below the ack period, and a refusal exactly when one is. So with options that are not
   * negative the check only errs by not looking at the channel's prefetch.
   */
  lemma ValidationExact(cfg: Config, q: Prefetch)
    requires !cfg.autoAck && cfg.msgLimit == 0 && cfg.txSize == 0
    ensures var a := cfg.multiAckEvery;
            && ((ValidateMultiAckEveryQos(a, q.consumer) <==> NeverStalls(cfg, q))
                <==> if a == 0 || q.consumer == 0 || a <= q.consumer
                     then !(0 < q.consumer < Abs(a)) && !(0 < q.channel < Abs(a))
                     else q.consumer > 0 || 0 < q.channel < Abs(a))
            && (a >= 0 && q.consumer >= 0 ==>
                  ((ValidateMultiAckEveryQos(a, q.consumer) <==> NeverStalls(cfg, q))
                   <==> !(0 < q.channel < a && (q.consumer == 0 || a <= q.consumer))))
  {
    NeverStallsExactly(cfg, q);
    GcdWithOne(AckPeriod(cfg));
  }

  lemma GcdWithOne(a: nat)
    requires a > 0
    ensures Gcd(a, 1) == 1
  {
    var p, q := GcdDivides(a, 1);
    var g := Gcd(a, 1);
    PositiveFactor(g, q);
    PositiveFactor(q, g);
    Multiple(g, q);
  }

  /** The check does not look at the channel's prefetch: A = 2 and a channel prefetch of 1 pass, and stall. */
  lemma ValidationIgnoresChannelPrefetch()
    ensures var cfg := Config(false, 2, 0, 0);
            && ValidateMultiAckEveryQos(2, 0)
            && NeverStalls(cfg, Prefetch(0, 0)) && !NeverStalls(cfg, Prefetch(0, 1))
  {
    ValidationExact(Config(false, 2, 0, 0), Prefetch(0, 0));
    ValidationExact(Config(false, 2, 0, 0), Prefetch(0, 1));
  }

  /** Negative options: A = -2 passes with a prefetch of 1, and stalls; A = 1 fails with one of -1, and never stalls. */
  lemma ValidationErrsOnNegatives()
    ensures ValidateMultiAckEveryQos(-2, 1) && !NeverStalls(Config(false, -2, 0, 0), Prefetch(1, 0))
    ensures !ValidateMultiAckEveryQos(1, -1) && NeverStalls(Config(false, 1, 0, 0), Prefetch(-1, 0))
  {
    ValidationExact(Config(false, -2, 0, 0), Prefetch(1, 0));
    ValidationExact(Config(false, 1, 0, 0), Prefetch(-1, 0));
  }

  /** With transactions an accepted pair of options can stall: A = 2, T = 3, a prefetch of 2. */
  lemma ValidationIgnoresTransactions()
    ensures var cfg := Config(false, 2, 3, 0);
            ValidateMultiAckEveryQos(2, 2) && !NeverStalls(cfg, Prefetch(2, 0))
  {
    var cfg := Config(false, 2, 3, 0);
    NeverStallsExactly(cfg, Prefetch(2, 0));
    assert Gcd(2, 3) == 1;
  }

  /** With automatic acks nothing is ever unacked, no ack is sent or remembered, and the exit flush does nothing. */
  lemma {:induction false} AutoAckSendsNothing(cfg: Config, s: State, es: seq<Event>)
    requires cfg.autoAck && s.lastAcked == 0 && s.broker.unacked == s.broker.inTx == {}
    ensures var t := Run(cfg, s, es);
            && t.lastAcked == 0 && t.broker.unacked == t.broker.inTx == {} && ExitFlush(cfg, t) == t
    decreases |es|
  {
    if es != [] {
      AutoAckSendsNothing(cfg, Step(cfg, s, es[0]), es[1..]);
    }
  }

  /** A message whose processing is interrupted, or that comes beyond the limit, is counted only. */
  lemma OnlyCounted(cfg: Config, s: State, tag: nat, uninterrupted: bool)
    requires !uninterrupted || (cfg.msgLimit != 0 && s.received + 1 > cfg.msgLimit)
    ensures Handle(cfg, s, tag, uninterrupted)
         == s.(received := s.received + 1, epochCount := s.epochCount + 1,
               completed := s.completed || (cfg.msgLimit != 0 && s.received + 1 >= cfg.msgLimit))
  {
  }

  // ---------- exit ----------

  /** When every processed message is settled. */
  lemma SettledInTime(cfg: Config, p: nat)
    requires p > 0
    ensures AckedPrefix(cfg, p) == p <==> p % AckPeriod(cfg) == 0
    ensures SettledPrefix(cfg, p) == p <==> p % AckPeriod(cfg) == 0 && p % CommitPeriod(cfg) == 0
  {
  }

  /**
   * Over all runs, with recoveries, earlier exit checks and deliveries beyond the message
   * limit: after the exit flush exactly the messages that were not processed are unacked,
   * whatever A. Every ack is committed too, except when the flush is skipped because the
   * last processed message was acked, and no commit fell on it: the missed acks are then
   * lost with the channel.
   */
  lemma ExitFlushSettles(cfg: Config, es: seq<Event>)
    requires !cfg.autoAck && Normal(cfg, INITIAL, es)
    ensures var s := Run(cfg, INITIAL, es);
            var p, t := Processed(cfg, s), ExitFlush(cfg, s);
            && (forall k :: k in t.broker.unacked <==> s.broker.base + p < k <= s.broker.top)
            && (forall k :: k in t.broker.unacked ==> k > s.lastDelivery)
            && (t.broker.inTx == {} <==> p % CommitPeriod(cfg) == 0 || p % AckPeriod(cfg) != 0)
            && (FlushFires(cfg, s) ==> t.broker.inTx == {})
  {
    Reached(cfg, es);
    FlushFromShape(cfg, Run(cfg, INITIAL, es), Flushed(cfg, INITIAL, 0, es));
  }

  lemma FlushFromShape(cfg: Config, s: State, f: nat)
    requires !cfg.autoAck && Shape(cfg, s, f)
    ensures var p, t := Processed(cfg, s), ExitFlush(cfg, s);
            && (forall k :: k in t.broker.unacked <==> s.broker.base + p < k <= s.broker.top)
            && (forall k :: k in t.broker.unacked ==> k > s.lastDelivery)
            && (t.broker.inTx == {} <==> p % CommitPeriod(cfg) == 0 || p % AckPeriod(cfg) != 0)
            && (FlushFires(cfg, s) ==> t.broker.inTx == {})
            && (p > 0 ==> (FlushFires(cfg, s) <==> p % AckPeriod(cfg) != 0))
  {
    var p := Processed(cfg, s);
    var e, a, c := Max(AckedPrefix(cfg, p), f), AckedPrefix(cfg, p), Max(SettledPrefix(cfg, p), f);
    PrefixSteps(cfg, p);
    AfterFlush(cfg, s, s.epochCount, p, e, a, c);
    if p > 0 {
      SettledInTime(cfg, p);
    } else {
      NoPrefixOfNone(cfg);
    }
  }

  /** The shape after the flush, whether it fired or not. */
  lemma FlushedShape(cfg: Config, s: State, n: nat, p: nat, e: nat, a: nat, c: nat)
    requires !cfg.autoAck && ShapeAt(s, n, p, e, a, c)
    requires cfg.txSize == 0 ==> c == e
    requires e == p || a < p
    ensures ShapeAt(ExitFlush(cfg, s), n, p, p, a, if FlushFires(cfg, s) then p else c)
    ensures p > 0 ==> (FlushFires(cfg, s) <==> a < p)
  {
    FlushShapeAt(cfg, s, n, p, e, a, c);
  }

  lemma LeftAt(t: State, n: nat, p: nat, a: nat, c: nat)
    requires ShapeAt(t, n, p, p, a, c)
    ensures forall k :: k in t.broker.unacked <==> t.broker.base + p < k <= t.broker.top
    ensures forall k :: k in t.broker.unacked ==> k > t.lastDelivery
    ensures t.broker.inTx == {} <==> c == p
  {
    TagsMembers(t.broker.base + p, t.broker.top);
    TagsMembers(t.broker.base + c, t.broker.base + p);
  }

  lemma AfterFlush(cfg: Config, s: State, n: nat, p: nat, e: nat, a: nat, c: nat)
    requires !cfg.autoAck && ShapeAt(s, n, p, e, a, c)
    requires cfg.txSize == 0 ==> c == e
    requires e == p || a < p
    ensures var t := ExitFlush(cfg, s);
            && (forall k :: k in t.broker.unacked <==> s.broker.base + p < k <= s.broker.top)
            && (forall k :: k in t.broker.unacked ==> k > s.lastDelivery)
            && (t.broker.inTx == {} <==> FlushFires(cfg, s) || c == p)
            && (p > 0 ==> (FlushFires(cfg, s) <==> a < p))
  {
    FlushedShape(cfg, s, n, p, e, a, c);
    LeftAt(ExitFlush(cfg, s), n, p, a, if FlushFires(cfg, s) then p else c);
  }

  /** As long as no message came after the limit, nothing at all is unacked after the flush. */
  lemma NothingUnackedWithinLimit(cfg: Config, es: seq<Event>)
    requires !cfg.autoAck && Normal(cfg, INITIAL, es)
    requires cfg.msgLimit == 0 || Run(cfg, INITIAL, es).received <= cfg.msgLimit
    ensures ExitFlush(cfg, Run(cfg, INITIAL, es)).broker.unacked == {}
  {
    ExitFlushSettles(cfg, es);
    OutstandingAfterRun(cfg, es);
    assert Processed(cfg, Run(cfg, INITIAL, es)) == Run(cfg, INITIAL, es).epochCount;
  }

  /** The flush would send an ack that settles nothing: its tag is not unacked. */
  predicate FlushRepeats(cfg: Config, s: State) {
    FlushFires(cfg, s) && s.lastDelivery !in s.broker.unacked
  }

  /**
   * The flush does not record what it acked: a second exit check repeats the ack exactly
   * when the first one sent it, and the broker's side does not change any more. The first
   * one fires, in an epoch with a processed message, when the last of them was off an ack;
   * and it repeats an ack itself when exit checks had flushed all of them before.
   */
  lemma SecondFlushRepeatsTheAck(cfg: Config, es: seq<Event>)
    requires !cfg.autoAck && Normal(cfg, INITIAL, es)
    ensures var s := Run(cfg, INITIAL, es);
            var p, t := Processed(cfg, s), ExitFlush(cfg, s);
            && (FlushRepeats(cfg, t) <==> FlushFires(cfg, s))
            && ExitFlush(cfg, t) == t
            && (p > 0 ==> (FlushFires(cfg, s) <==> p % AckPeriod(cfg) != 0))
            && (FlushRepeats(cfg, s) <==> FlushFires(cfg, s) && Flushed(cfg, INITIAL, 0, es) == p)
  {
    Reached(cfg, es);
    var s, f := Run(cfg, INITIAL, es), Flushed(cfg, INITIAL, 0, es);
    var p := Processed(cfg, s);
    FlushFromShape(cfg, s, f);
    FlushedOnce(cfg, s, s.epochCount, p, Max(AckedPrefix(cfg, p), f), AckedPrefix(cfg, p), Max(SettledPrefix(cfg, p), f));
  }

  lemma FlushedOnce(cfg: Config, s: State, n: nat, p: nat, e: nat, a: nat, c: nat)
    requires !cfg.autoAck && ShapeAt(s, n, p, e, a, c)
    requires var t := ExitFlush(cfg, s);
             && (forall k :: k in t.broker.unacked ==> k > s.lastDelivery)
             && (FlushFires(cfg, s) ==> t.broker.inTx == {})
    ensures var t := ExitFlush(cfg, s);
            && (FlushRepeats(cfg, t) <==> FlushFires(cfg, s))
            && ExitFlush(cfg, t) == t
            && (FlushRepeats(cfg, s) <==> FlushFires(cfg, s) && e == p)
  {
    var t := ExitFlush(cfg, s);
    TagsMembers(s.broker.base + e, s.broker.top);
    assert UpTo(t.broker.unacked, s.lastDelivery) == {};
  }

  /** Both in a run of `n` messages: the flush leaves acks uncommitted, or is repeated, as `n` falls. */
  lemma FlushAfterMessages(cfg: Config, n: nat)
    requires !cfg.autoAck && cfg.msgLimit == 0 && n > 0
    ensures var t := ExitFlush(cfg, Run(cfg, INITIAL, Messages(n)));
            && (t.broker.inTx != {} <==> n % AckPeriod(cfg) == 0 && n % CommitPeriod(cfg) != 0)
            && (FlushRepeats(cfg, t) <==> n % AckPeriod(cfg) != 0)
  {
    AfterMessages(cfg, n);
    var s := Run(cfg, INITIAL, Messages(n));
    FlushFromShape(cfg, s, 0);
    FlushedOnce(cfg, s, n, n, AckedPrefix(cfg, n), AckedPrefix(cfg, n), SettledPrefix(cfg, n));
  }

  /** It happens: A = 2, T = 3, two messages. The second one is acked, and the ack is not committed. */
  lemma ExitFlushSkipsCommit()
    ensures var cfg := Config(false, 2, 3, 0);
            Unsettled(ExitFlush(cfg, Run(cfg, INITIAL, Messages(2)))) != {}
  {
    FlushAfterMessages(Config(false, 2, 3, 0), 2);
  }

  /** It happens: A = 2, one message. */
  lemma SecondFlushHappens()
    ensures var cfg := Config(false, 2, 0, 0);
            FlushRepeats(cfg, ExitFlush(cfg, Run(cfg, INITIAL, Messages(1))))
  {
    FlushAfterMessages(Config(false, 2, 0, 0), 1);
  }

  // ---------- the message limit ----------

  function Delivered(es: seq<Event>): nat {
    if es == [] then 0 else Delivered(es[1..]) + if es[0].Message? then 1 else 0
  }

  /** The run if message handling only counted: no ack, no commit, no tag recorded. */
  function CountingOnly(cfg: Config, s: State, es: seq<Event>): State
    decreases |es|
  {
    if es == [] then s
    else
      var next :=
        if es[0].Message? then
          s.(received := s.received + 1, epochCount := s.epochCount + 1, broker := Deliver(s.broker, cfg.autoAck))
        else Step(cfg, s, es[0]);
      CountingOnly(cfg, next, es[1..])
  }

  /**
   * The consumer is done exactly from the message that reaches its limit, or from the first
   * exit check, whatever the recoveries. From the limit on, message handling acks and
   * commits nothing; only an exit check still can.
   */
  lemma {:induction false} DoneExactlyAtLimit(cfg: Config, s: State, es: seq<Event>)
    requires cfg.msgLimit >= 0
    requires cfg.msgLimit > 0 && s.received >= cfg.msgLimit ==> s.completed
    ensures var t := Run(cfg, s, es);
            && t.received == s.received + Delivered(es)
            && (t.completed <==> s.completed || ExitCheck in es || (cfg.msgLimit > 0 && t.received >= cfg.msgLimit))
            && (cfg.msgLimit > 0 && s.received >= cfg.msgLimit ==> t == CountingOnly(cfg, s, es))
    decreases |es|
  {
    if es != [] {
      DoneExactlyAtLimit(cfg, Step(cfg, s, es[0]), es[1..]);
    }
  }
}
