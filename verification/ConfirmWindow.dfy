/**
 * The publisher-confirm window of a producer, as a step system.
 *
 * Three threads interleave: the publishing thread, the confirm callback and
 * connection recovery. The fields `unconfirmed` and `permits` are the producer's;
 * `nextSeq` is the channel's; the rest is bookkeeping that the theorems speak about.
 */
module ConfirmWindow {
  import opened AgentWrites

  /** An outstanding message. The source stores only the timestamp. */
  datatype Entry = Entry(timestamp: int, epoch: nat)

  type Unconfirmed = map<nat, Entry>

  datatype Publisher =
    | Idle      // outside handlePublish
    | Waiting   // past the recovery guard, before the permit is acquired
    | Acquired  // holds a permit, nothing in the map yet
    | Entered   // the entry is in the map, the write has not returned
    | Stopped   // an exception ended the thread

  datatype Confirmer =
    | Quiet
    | Counting(upTo: nat, nack: bool, size: nat, last: nat, visited: set<nat>)
    | Draining(release: nat)

  datatype Link =
    | Up
    | Down
    | Announced  // still down, and the in-progress flag has been raised for this loss

  datatype State = State(
    limit: nat,
    recoveryEnabled: bool,
    permits: int,
    unconfirmed: Unconfirmed,
    nextSeq: nat,
    epoch: nat,
    publisher: Publisher,
    confirmer: Confirmer,
    link: Link,
    recovering: bool,            // the in-progress flag
    toRefill: nat,               // recovery handlers that have not read the pool yet
    refunds: seq<nat>,           // what the others found missing, and have not given back yet
    toLower: nat,                // handlers that have given it back, and have not lowered the flag yet
    owed: set<nat>,              // received by the broker in this epoch, not confirmed yet
    leaked: nat,                 // permits taken by failed writes that used up no number
    published: nat,
    confirmed: nat,
    nacked: nat,
    abandoned: nat,              // given up by a recovery
    reported: set<(nat, nat)>)   // (epoch, number) pairs confirmed or nacked so far

  datatype Action =
    | Guard
    | Acquire
    | GiveUp
    | Put(timestamp: int)
    | Send
    | WriteFails(outcome: WriteOutcome, advanced: bool)
    | Single(seqNo: nat, nack: bool)
    | StartMultiple(seqNo: nat, nack: bool)
    | Visit
    | Clear
    | Release
    | LinkLost
    | FlagOn
    | ChannelReset
    | PoolRead
    | PoolRelease(handler: nat)
    | FlagOff

  // ---------- the map ----------

  /** The entries of the head map up to and including `upTo`. */
  function HeadKeys(m: Unconfirmed, upTo: nat): set<nat> {
    set k | k in m && k <= upTo
  }

  /** The first key of the map in `from..upTo`: one step of the ascending iterator. */
  function NextKey(m: Unconfirmed, from: nat, upTo: nat): (k: nat)
    ensures from <= k
    ensures k <= upTo ==> k in m
    ensures forall j :: from <= j < k && j <= upTo ==> j !in m
    decreases if from <= upTo then upTo - from + 1 else 0
  {
    if from > upTo || from in m then from else NextKey(m, from + 1, upTo)
  }

  function Settled(m: Unconfirmed, seqNo: nat, multiple: bool): set<nat> {
    if multiple then HeadKeys(m, seqNo) else {seqNo}
  }

  // ---------- observations ----------

  /** Numbers of the current numbering that are still in the map. */
  function Current(s: State): set<nat> {
    set k | k in s.unconfirmed && k < s.nextSeq
  }

  function InHand(s: State): nat {
    if s.publisher.Acquired? || s.publisher.Entered? then 1 else 0
  }

  function Pending(s: State): nat {
    if s.confirmer.Draining? then s.confirmer.release else 0
  }

  function Ceiling(s: State): nat {
    if s.confirmer.Counting? then s.confirmer.upTo else 0
  }

  function Tagged(epoch: nat, ks: set<nat>): set<(nat, nat)> {
    set k | k in ks :: (epoch, k)
  }

  function Sum(xs: seq<nat>): nat {
    if xs == [] then 0 else Sum(xs[..|xs| - 1]) + xs[|xs| - 1]
  }

  /** Every permit is accounted for. */
  predicate Conserved(s: State) {
    s.permits + Sum(s.refunds) + InHand(s) + |Current(s)| + Pending(s) + s.leaked == s.limit
  }

  // ---------- the steps ----------

  /** What the code and the transport can do next. */
  predicate Enabled(s: State, a: Action) {
    match a
    case Guard => s.publisher.Idle? && !s.recovering
    case Acquire => s.publisher.Waiting? && s.permits > 0
    case GiveUp => s.publisher.Waiting? && s.permits <= 0
    case Put(_) => s.publisher.Acquired?
    case Send => s.publisher.Entered?
    case WriteFails(outcome, _) => s.publisher.Entered? && !outcome.Written?
    case Single(_, _) => s.confirmer.Quiet?
    case StartMultiple(_, _) => s.confirmer.Quiet?
    case Visit => s.confirmer.Counting? && NextKey(s.unconfirmed, s.confirmer.last + 1, s.confirmer.upTo) <= s.confirmer.upTo
    case Clear => s.confirmer.Counting?
                  && (s.confirmer.nack || NextKey(s.unconfirmed, s.confirmer.last + 1, s.confirmer.upTo) > s.confirmer.upTo)
    case Release => s.confirmer.Draining?
    case LinkLost => s.link.Up?
    case FlagOn => s.recoveryEnabled && !s.link.Up?
    case ChannelReset => s.link.Announced?
    case PoolRead => s.toRefill > 0
    case PoolRelease(i) => i < |s.refunds|
    case FlagOff => s.toLower > 0
  }

  /** What the environment is trusted for: see the README. */
  predicate Contract(s: State, a: Action) {
    match a
    case Single(seqNo, _) => seqNo in s.owed
    case StartMultiple(seqNo, _) => 1 <= seqNo < s.nextSeq
    case ChannelReset => InHand(s) == 0 && s.confirmer.Quiet?
    case Acquire => s.toRefill == 0
    case PoolRead => s.refunds == []
    case _ => true
  }

  /** The counters and the report after `ks` have been settled. */
  function Count(s: State, ks: set<nat>, nack: bool, n: nat): State {
    var t := s.(unconfirmed := s.unconfirmed - ks,
                reported := s.reported + Tagged(s.epoch, ks),
                confirmer := Draining(n));
    if nack then t.(nacked := s.nacked + n) else t.(confirmed := s.confirmed + n)
  }

  function Without(xs: seq<nat>, i: nat): seq<nat>
    requires i < |xs|
  {
    xs[..i] + xs[i + 1..]
  }

  function Apply(s: State, a: Action): State {
    match a
    case Guard => s.(publisher := Waiting)
    case Acquire => s.(permits := s.permits - 1, publisher := Acquired)
    case GiveUp => s.(publisher := Stopped)
    case Put(timestamp) =>
      s.(unconfirmed := s.unconfirmed[s.nextSeq := Entry(timestamp, s.epoch)],
         publisher := Entered,
         published := s.published + 1)
    case Send =>
      s.(nextSeq := s.nextSeq + 1,
         owed := if s.link.Up? then s.owed + {s.nextSeq} else s.owed,
         publisher := Idle)
    case WriteFails(outcome, advanced) =>
      s.(link := if s.link.Up? then Down else s.link,
         publisher := if Propagates(s.recoveryEnabled, outcome) then Stopped else Idle,
         nextSeq := if advanced then s.nextSeq + 1 else s.nextSeq,
         leaked := if advanced then s.leaked else s.leaked + 1)
    case Single(seqNo, nack) =>
      // a nack of an unknown number ends in an exception, with nothing counted or released
      if nack && seqNo !in s.unconfirmed then s.(owed := s.owed - {seqNo})
      else Count(s.(owed := s.owed - {seqNo}), {seqNo}, nack, 1)
    case StartMultiple(seqNo, nack) =>
      s.(owed := (set k | k in s.owed && k > seqNo),
         confirmer := Counting(seqNo, nack, |HeadKeys(s.unconfirmed, seqNo)|, 0, {}))
    case Visit =>
      if !s.confirmer.Counting? then s else
        var k := NextKey(s.unconfirmed, s.confirmer.last + 1, s.confirmer.upTo);
        s.(confirmer := s.confirmer.(last := k, visited := s.confirmer.visited + {k}))
    case Clear =>
      if !s.confirmer.Counting? then s else
        Count(s, HeadKeys(s.unconfirmed, s.confirmer.upTo), s.confirmer.nack, s.confirmer.size)
    case Release => s.(permits := s.permits + Pending(s), confirmer := Quiet)
    case LinkLost => s.(link := Down)
    case FlagOn => s.(link := Announced, recovering := true)
    case ChannelReset =>
      s.(link := Up,
         toRefill := s.toRefill + 1,
         epoch := s.epoch + 1,
         nextSeq := 1,
         owed := {},
         abandoned := s.abandoned + |Current(s)| + s.leaked,
         leaked := 0)
    case PoolRead =>
      // a semaphore refuses to release a negative number: the handler ends there, without lowering the flag
      if s.toRefill == 0 then s
      else if s.permits > s.limit then s.(toRefill := s.toRefill - 1)
      else
        s.(toRefill := s.toRefill - 1,
           refunds := s.refunds + [s.limit - s.permits],
           abandoned := s.abandoned + s.leaked,
           leaked := 0)
    case PoolRelease(i) =>
      if i >= |s.refunds| then s
      else
        s.(permits := s.permits + s.refunds[i],
           refunds := Without(s.refunds, i),
           toLower := s.toLower + 1)
    case FlagOff => s.(toLower := if s.toLower > 0 then s.toLower - 1 else 0, recovering := false)
  }

  predicate Init(s: State) {
    && s.limit >= 1 && s.permits == s.limit && s.unconfirmed == map[] && s.nextSeq == 1
    && s.publisher == Idle && s.confirmer == Quiet && s.link == Up && !s.recovering
    && s.toRefill == s.toLower == 0 && s.refunds == []
    && s.owed == {} && s.leaked == 0 && s.reported == {}
    && s.published == 0 && s.confirmed == 0 && s.nacked == 0 && s.abandoned == 0
  }

  /** A producer that has just been made, on a new channel. */
  function Fresh(limit: nat, recoveryEnabled: bool): State {
    State(limit, recoveryEnabled, limit, map[], 1, 0, Idle, Quiet, Up, false, 0, [], 0, {}, 0, 0, 0, 0, 0, {})
  }

  lemma FreshIsInit(limit: nat, recoveryEnabled: bool)
    requires limit > 0
    ensures Init(Fresh(limit, recoveryEnabled))
  {
  }

  /** A run of the code under the environment's contract. */
  predicate Legal(s: State, acts: seq<Action>)
    decreases |acts|
  {
    acts == []
    || (Enabled(s, acts[0]) && Contract(s, acts[0]) && Legal(Apply(s, acts[0]), acts[1..]))
  }

  function Exec(s: State, acts: seq<Action>): State
    decreases |acts|
  {
    if acts == [] then s else Exec(Apply(s, acts[0]), acts[1..])
  }

  // ---------- the invariant ----------

  ghost predicate LedgerInv(s: State) {
    && s.limit >= 1 && s.nextSeq >= 1
    && 0 <= s.permits && s.permits + Sum(s.refunds) <= s.limit
    && (s.link.Up? ==> s.leaked == 0)
    && (s.toRefill > 0 ==> InHand(s) == 0 && Current(s) == {} && Pending(s) == 0 && s.leaked == 0)
    && (s.toRefill == 0 ==> Conserved(s))
  }

  ghost predicate MapInv(s: State) {
    && (forall k :: k in s.unconfirmed ==> 1 <= k && s.unconfirmed[k].epoch <= s.epoch)
    && (forall k :: k in s.unconfirmed && k < s.nextSeq ==> s.unconfirmed[k].epoch == s.epoch)
    && (forall k :: k in s.unconfirmed && k > s.nextSeq ==> s.unconfirmed[k].epoch < s.epoch)
    && (s.publisher.Entered? ==> s.nextSeq in s.unconfirmed && s.unconfirmed[s.nextSeq].epoch == s.epoch)
    && (s.link.Up? && !s.publisher.Entered? && s.nextSeq in s.unconfirmed ==> s.unconfirmed[s.nextSeq].epoch < s.epoch)
  }

  ghost predicate OwedInv(s: State) {
    && s.owed <= Current(s)
    && (forall k :: k in s.owed ==> k > Ceiling(s))
    && (s.link.Up? ==> forall k :: k in Current(s) && k > Ceiling(s) ==> k in s.owed)
  }

  ghost predicate ConfirmerInv(s: State) {
    s.confirmer.Counting? ==>
      && s.confirmer.upTo < s.nextSeq
      && s.confirmer.last <= s.confirmer.upTo
      && s.confirmer.visited == HeadKeys(s.unconfirmed, s.confirmer.last)
      && s.confirmer.size == |HeadKeys(s.unconfirmed, s.confirmer.upTo)|
  }

  ghost predicate ReportInv(s: State) {
    && s.published == s.confirmed + s.nacked + |Current(s)| + s.leaked + s.abandoned
                      + (if s.publisher.Entered? then 1 else 0)
    && |s.reported| == s.confirmed + s.nacked
    && (forall e, k :: (e, k) in s.reported ==> e <= s.epoch)
    && (forall k :: (s.epoch, k) in s.reported ==> k < s.nextSeq && k !in s.unconfirmed)
  }

  /** The permits, the map and the confirms owed fit together. */
  ghost predicate WindowInv(s: State) {
    LedgerInv(s) && MapInv(s) && OwedInv(s) && ConfirmerInv(s)
  }

  ghost predicate Inv(s: State) {
    WindowInv(s) && ReportInv(s)
  }

  // ---------- set facts ----------

  lemma {:induction false} TaggedSize(epoch: nat, ks: set<nat>)
    ensures |Tagged(epoch, ks)| == |ks|
  {
    if ks != {} {
      var k :| k in ks;
      TaggedSize(epoch, ks - {k});
      assert Tagged(epoch, ks) == Tagged(epoch, ks - {k}) + {(epoch, k)};
    }
  }

  lemma SubsetSize(a: set<nat>, b: set<nat>)
    requires a <= b
    ensures |b - a| == |b| - |a|
  {
    assert b == a + (b - a);
  }

  lemma {:induction false} SumWithout(xs: seq<nat>, i: nat)
    requires i < |xs|
    ensures Sum(Without(xs, i)) + xs[i] == Sum(xs)
  {
    var n := |xs| - 1;
    if i < n {
      var fewer := Without(xs, i);
      assert fewer[..|fewer| - 1] == Without(xs[..n], i);
      SumWithout(xs[..n], i);
    } else {
      assert Without(xs, i) == xs[..n];
    }
  }

  lemma SumAppend(xs: seq<nat>, x: nat)
    ensures Sum(xs + [x]) == Sum(xs) + x
  {
    assert (xs + [x])[..|xs|] == xs;
  }

  // ---------- every step keeps the invariant ----------

  lemma PublisherStep(s: State, a: Action)
    requires WindowInv(s) && Enabled(s, a) && Contract(s, a)
    requires a.Guard? || a.Acquire? || a.GiveUp? || a.Put?
    ensures WindowInv(Apply(s, a))
    ensures ReportInv(s) ==> ReportInv(Apply(s, a))
  {
    assert Current(Apply(s, a)) == Current(s);
    if a.Put? && s.confirmer.Counting? {
      assert HeadKeys(Apply(s, a).unconfirmed, s.confirmer.upTo) == HeadKeys(s.unconfirmed, s.confirmer.upTo);
      assert HeadKeys(Apply(s, a).unconfirmed, s.confirmer.last) == HeadKeys(s.unconfirmed, s.confirmer.last);
    }
  }

  lemma SendAddsCurrent(s: State)
    requires s.nextSeq in s.unconfirmed
    ensures Current(Apply(s, Send)) == Current(s) + {s.nextSeq}
    ensures |Current(Apply(s, Send))| == |Current(s)| + 1
  {
    assert Current(Apply(s, Send)) == Current(s) + {s.nextSeq};
    assert s.nextSeq !in Current(s);
  }

  lemma SendKeepsCounts(s: State)
    requires LedgerInv(s) && MapInv(s) && Enabled(s, Send)
    ensures LedgerInv(Apply(s, Send))
    ensures ReportInv(s) ==> ReportInv(Apply(s, Send))
  {
    SendAddsCurrent(s);
  }

  lemma SendStep(s: State)
    requires WindowInv(s) && Enabled(s, Send)
    ensures WindowInv(Apply(s, Send))
    ensures ReportInv(s) ==> ReportInv(Apply(s, Send))
  {
    SendKeepsCounts(s);
    SendAddsCurrent(s);
  }

  lemma FailedWriteStep(s: State, outcome: WriteOutcome, advanced: bool)
    requires WindowInv(s) && Enabled(s, WriteFails(outcome, advanced))
    ensures WindowInv(Apply(s, WriteFails(outcome, advanced)))
    ensures ReportInv(s) ==> ReportInv(Apply(s, WriteFails(outcome, advanced)))
  {
    var t := Apply(s, WriteFails(outcome, advanced));
    assert Current(t) == if advanced then Current(s) + {s.nextSeq} else Current(s);
    assert s.nextSeq !in Current(s);
  }

  lemma CountTakesOut(s: State, ks: set<nat>, nack: bool, n: nat)
    requires ks <= Current(s)
    ensures Current(Count(s, ks, nack, n)) == Current(s) - ks
    ensures |Current(Count(s, ks, nack, n))| == |Current(s)| - |ks|
  {
    assert Current(Count(s, ks, nack, n)) == Current(s) - ks;
    SubsetSize(ks, Current(s));
  }

  lemma CountKeepsWindow(s: State, ks: set<nat>, nack: bool, n: nat)
    requires LedgerInv(s) && MapInv(s)
    requires !s.confirmer.Draining?
    requires ks <= Current(s) && n == |ks|
    requires s.owed <= Current(s) - ks
    requires s.link.Up? ==> s.owed == Current(s) - ks
    ensures WindowInv(Count(s, ks, nack, n))
  {
    CountTakesOut(s, ks, nack, n);
    if s.publisher.Entered? {
      assert s.nextSeq !in ks;
    }
  }

  lemma CountKeepsReports(s: State, ks: set<nat>, nack: bool, n: nat)
    requires MapInv(s) && ReportInv(s)
    requires ks <= Current(s) && n == |ks|
    ensures ReportInv(Count(s, ks, nack, n))
  {
    CountTakesOut(s, ks, nack, n);
    TaggedSize(s.epoch, ks);
    assert s.reported !! Tagged(s.epoch, ks);
  }

  lemma CountStep(s: State, ks: set<nat>, nack: bool, n: nat)
    requires LedgerInv(s) && MapInv(s)
    requires !s.confirmer.Draining?
    requires ks <= Current(s) && n == |ks|
    requires s.owed <= Current(s) - ks
    requires s.link.Up? ==> s.owed == Current(s) - ks
    ensures WindowInv(Count(s, ks, nack, n))
    ensures ReportInv(s) ==> ReportInv(Count(s, ks, nack, n))
  {
    CountKeepsWindow(s, ks, nack, n);
    if ReportInv(s) {
      CountKeepsReports(s, ks, nack, n);
    }
  }

  lemma SingleStep(s: State, seqNo: nat, nack: bool)
    requires WindowInv(s) && s.confirmer.Quiet? && seqNo in s.owed
    ensures WindowInv(Apply(s, Single(seqNo, nack)))
    ensures ReportInv(s) ==> ReportInv(Apply(s, Single(seqNo, nack)))
  {
    assert seqNo in Current(s);
    var received := s.(owed := s.owed - {seqNo});
    assert ReportInv(s) ==> ReportInv(received) by {
      assert Current(received) == Current(s);
    }
    CountStep(received, {seqNo}, nack, 1);
  }

  lemma StartStep(s: State, seqNo: nat, nack: bool)
    requires WindowInv(s) && s.confirmer.Quiet? && 1 <= seqNo < s.nextSeq
    ensures WindowInv(Apply(s, StartMultiple(seqNo, nack)))
    ensures ReportInv(s) ==> ReportInv(Apply(s, StartMultiple(seqNo, nack)))
  {
    assert Current(Apply(s, StartMultiple(seqNo, nack))) == Current(s);
    assert HeadKeys(s.unconfirmed, 0) == {};
  }

  lemma WalkStep(s: State, a: Action)
    requires WindowInv(s) && Enabled(s, a)
    requires a.Visit? || a.Release?
    ensures WindowInv(Apply(s, a))
    ensures ReportInv(s) ==> ReportInv(Apply(s, a))
  {
    var t := Apply(s, a);
    assert Current(t) == Current(s);
    if a.Visit? {
      assert HeadKeys(s.unconfirmed, t.confirmer.last)
          == HeadKeys(s.unconfirmed, s.confirmer.last) + {t.confirmer.last};
    }
  }

  lemma LinkStep(s: State, a: Action)
    requires WindowInv(s) && Enabled(s, a) && Contract(s, a)
    requires a.LinkLost? || a.FlagOn? || a.ChannelReset? || a.FlagOff?
    ensures WindowInv(Apply(s, a))
    ensures ReportInv(s) ==> ReportInv(Apply(s, a))
  {
    var t := Apply(s, a);
    if a.ChannelReset? {
      assert Current(t) == {};
    } else {
      assert Current(t) == Current(s);
    }
  }

  lemma ReadStep(s: State)
    requires WindowInv(s) && s.toRefill > 0 && s.refunds == []
    ensures WindowInv(Apply(s, PoolRead))
    ensures ReportInv(s) ==> ReportInv(Apply(s, PoolRead))
  {
    var t := Apply(s, PoolRead);
    assert Current(t) == Current(s);
    SumAppend(s.refunds, s.limit - s.permits);
  }

  lemma GiveBackStep(s: State, i: nat)
    requires WindowInv(s) && i < |s.refunds|
    ensures WindowInv(Apply(s, PoolRelease(i)))
    ensures ReportInv(s) ==> ReportInv(Apply(s, PoolRelease(i)))
  {
    var t := Apply(s, PoolRelease(i));
    assert Current(t) == Current(s);
    SumWithout(s.refunds, i);
  }

  predicate OfPublisher(a: Action) {
    a.Guard? || a.Acquire? || a.GiveUp? || a.Put? || a.Send? || a.WriteFails?
  }

  predicate OfConfirmer(a: Action) {
    a.Single? || a.StartMultiple? || a.Visit? || a.Clear? || a.Release?
  }

  lemma AnyPublisherStep(s: State, a: Action)
    requires WindowInv(s) && Enabled(s, a) && Contract(s, a) && OfPublisher(a)
    ensures WindowInv(Apply(s, a))
    ensures ReportInv(s) ==> ReportInv(Apply(s, a))
  {
    if a.Send? {
      SendStep(s);
    } else if a.WriteFails? {
      FailedWriteStep(s, a.outcome, a.advanced);
    } else {
      PublisherStep(s, a);
    }
  }

  lemma AnyConfirmerStep(s: State, a: Action)
    requires WindowInv(s) && Enabled(s, a) && Contract(s, a) && OfConfirmer(a)
    ensures WindowInv(Apply(s, a))
    ensures ReportInv(s) ==> ReportInv(Apply(s, a))
  {
    if a.Single? {
      SingleStep(s, a.seqNo, a.nack);
    } else if a.StartMultiple? {
      StartStep(s, a.seqNo, a.nack);
    } else if a.Clear? {
      CountStep(s, HeadKeys(s.unconfirmed, s.confirmer.upTo), s.confirmer.nack, s.confirmer.size);
    } else {
      WalkStep(s, a);
    }
  }

  lemma AnyRecoveryStep(s: State, a: Action)
    requires WindowInv(s) && Enabled(s, a) && Contract(s, a) && !OfPublisher(a) && !OfConfirmer(a)
    ensures WindowInv(Apply(s, a))
    ensures ReportInv(s) ==> ReportInv(Apply(s, a))
  {
    if a.PoolRead? {
      ReadStep(s);
    } else if a.PoolRelease? {
      GiveBackStep(s, a.handler);
    } else {
      LinkStep(s, a);
    }
  }

  lemma StepKeepsWindow(s: State, a: Action)
    requires WindowInv(s) && Enabled(s, a) && Contract(s, a)
    ensures WindowInv(Apply(s, a))
    ensures ReportInv(s) ==> ReportInv(Apply(s, a))
  {
    if OfPublisher(a) {
      AnyPublisherStep(s, a);
    } else if OfConfirmer(a) {
      AnyConfirmerStep(s, a);
    } else {
      AnyRecoveryStep(s, a);
    }
  }

  lemma StepKeepsInv(s: State, a: Action)
    requires Inv(s) && Enabled(s, a) && Contract(s, a)
    ensures Inv(Apply(s, a))
  {
    StepKeepsWindow(s, a);
  }

  lemma {:induction false} RunKeepsWindow(s: State, acts: seq<Action>)
    requires WindowInv(s) && Legal(s, acts)
    ensures WindowInv(Exec(s, acts))
    ensures ReportInv(s) ==> ReportInv(Exec(s, acts))
    decreases |acts|
  {
    if acts != [] {
      StepKeepsWindow(s, acts[0]);
      RunKeepsWindow(Apply(s, acts[0]), acts[1..]);
    }
  }

  lemma Reached(s: State, acts: seq<Action>)
    requires Init(s) && Legal(s, acts)
    ensures Inv(Exec(s, acts))
  {
    assert Current(s) == {};
    RunKeepsWindow(s, acts);
  }

  // ---------- theorems over whole runs ----------

  /** Keys of the entries that were put under the current numbering. */
  function FromThisEpoch(s: State): set<nat> {
    set k | k in s.unconfirmed && s.unconfirmed[k].epoch == s.epoch
  }

  /** Keys left behind by an earlier numbering. */
  function Stale(s: State): set<nat> {
    set k | k in s.unconfirmed && s.unconfirmed[k].epoch < s.epoch
  }

  /** No permit is lost or minted, over any interleaving and any number of recoveries. */
  lemma WindowConserved(init: State, acts: seq<Action>)
    requires Init(init) && Legal(init, acts)
    ensures var s := Exec(init, acts);
            && 0 <= s.permits && s.permits + Sum(s.refunds) <= s.limit
            && (s.toRefill == 0 ==> Conserved(s))
            && (s.toRefill > 0 ==> InHand(s) == 0 && Current(s) == {} && Pending(s) == 0)
            && (s.leaked > 0 ==> !s.link.Up?)
  {
    Reached(init, acts);
  }

  /**
   * While the link is alive and no confirm is being processed, the permits missing
   * from the pool are exactly the confirms the broker owes for this epoch. So the
   * producer waits, or gives up, only behind a full window.
   */
  lemma PermitsMirrorOwedConfirms(init: State, acts: seq<Action>)
    requires Init(init) && Legal(init, acts)
    requires Exec(init, acts).link.Up? && Exec(init, acts).toRefill == 0 && Exec(init, acts).refunds == []
    requires Exec(init, acts).confirmer.Quiet? && InHand(Exec(init, acts)) == 0
    ensures var s := Exec(init, acts);
            && s.owed == FromThisEpoch(s)
            && s.permits == s.limit - |s.owed|
            && (Enabled(s, GiveUp) <==> s.publisher.Waiting? && |s.owed| == s.limit)
  {
    Reached(init, acts);
    var s := Exec(init, acts);
    assert s.owed == Current(s);
    assert Current(s) == FromThisEpoch(s);
  }

  /** A single confirm always finds the timestamp it unboxes. */
  lemma ConfirmedNumberIsKnown(init: State, acts: seq<Action>, seqNo: nat, nack: bool)
    requires Init(init) && Legal(init, acts) && Contract(Exec(init, acts), Single(seqNo, nack))
    ensures seqNo in FromThisEpoch(Exec(init, acts))
  {
    Reached(init, acts);
    assert seqNo in Current(Exec(init, acts));
  }

  /** The latencies array is never indexed past its end. */
  lemma VisitStaysInBounds(init: State, acts: seq<Action>)
    requires Init(init) && Legal(init, acts) && Enabled(Exec(init, acts), Visit)
    ensures var c := Exec(init, acts).confirmer; |c.visited| < c.size
  {
    Reached(init, acts);
    var s := Exec(init, acts);
    var k := NextKey(s.unconfirmed, s.confirmer.last + 1, s.confirmer.upTo);
    var head := HeadKeys(s.unconfirmed, s.confirmer.upTo);
    assert s.confirmer.visited <= head - {k};
    SubsetSize(s.confirmer.visited, head - {k});
    SubsetSize({k}, head);
  }

  /**
   * Whatever was put between `size()`, the iteration and `clear()`, the three see the
   * same entries: this epoch's outstanding numbers up to the confirmed one, and no
   * entry left over from before a recovery.
   */
  lemma MultipleConfirmSettlesThisEpoch(init: State, acts: seq<Action>)
    requires Init(init) && Legal(init, acts) && Enabled(Exec(init, acts), Clear)
    ensures ClearIsExact(Exec(init, acts))
  {
    Reached(init, acts);
    ClearFromInv(Exec(init, acts));
  }

  /** The keys that a step takes out of the map. */
  function Removed(s: State, a: Action): set<nat> {
    s.unconfirmed.Keys - Apply(s, a).unconfirmed.Keys
  }

  ghost predicate ClearIsExact(s: State)
    requires s.confirmer.Counting?
  {
    var removed := Removed(s, Clear);
    && (forall k :: k in removed <==> k in FromThisEpoch(s) && k <= s.confirmer.upTo)
    && |removed| == s.confirmer.size
    && (!s.confirmer.nack ==> s.confirmer.visited == removed)
    && removed !! Stale(s)
  }

  lemma ClearRemovesHead(s: State)
    requires s.confirmer.Counting?
    ensures Removed(s, Clear) == HeadKeys(s.unconfirmed, s.confirmer.upTo)
  {
    assert Apply(s, Clear).unconfirmed.Keys
        == s.unconfirmed.Keys - HeadKeys(s.unconfirmed, s.confirmer.upTo);
  }

  lemma HeadIsOfThisEpoch(s: State, upTo: nat)
    requires MapInv(s) && upTo < s.nextSeq
    ensures forall k :: k in HeadKeys(s.unconfirmed, upTo) <==> k in FromThisEpoch(s) && k <= upTo
    ensures HeadKeys(s.unconfirmed, upTo) !! Stale(s)
  {
  }

  lemma ClearFromInv(s: State)
    requires MapInv(s) && ConfirmerInv(s) && Enabled(s, Clear)
    ensures ClearIsExact(s)
  {
    ClearRemovesHead(s);
    HeadIsOfThisEpoch(s, s.confirmer.upTo);
    if !s.confirmer.nack {
      WalkIsOver(s.unconfirmed, s.confirmer.last, s.confirmer.upTo);
    }
  }

  lemma WalkIsOver(m: Unconfirmed, last: nat, upTo: nat)
    requires last <= upTo < NextKey(m, last + 1, upTo)
    ensures HeadKeys(m, last) == HeadKeys(m, upTo)
  {
  }

  /**
   * Every tracked publish is confirmed, nacked, outstanding or abandoned by a
   * recovery, and the confirms counted are as many as the distinct (epoch, number)
   * pairs reported: none is reported twice.
   */
  lemma PublishesAccountedFor(init: State, acts: seq<Action>)
    requires Init(init) && Legal(init, acts)
    ensures var s := Exec(init, acts);
            && s.published == s.confirmed + s.nacked + s.abandoned + s.leaked + |Current(s)|
                              + (if s.publisher.Entered? then 1 else 0)
            && |s.reported| == s.confirmed + s.nacked
            && forall k :: k in FromThisEpoch(s) ==> (s.epoch, k) !in s.reported
  {
    Reached(init, acts);
    var s := Exec(init, acts);
    forall k | k in FromThisEpoch(s) ensures (s.epoch, k) !in s.reported {
      assert k in s.unconfirmed;
    }
  }

  // ---------- what an entry holds ----------

  /** Action `i` of the run put the entry, and nothing was put under that number later. */
  ghost predicate PublishedBy(init: State, acts: seq<Action>, i: nat, k: nat, e: Entry) {
    && i < |acts| && acts[i] == Put(e.timestamp)
    && Exec(init, acts[..i]).nextSeq == k && Exec(init, acts[..i]).epoch == e.epoch
    && forall j :: i < j < |acts| && acts[j].Put? ==> Exec(init, acts[..j]).nextSeq != k
  }

  /** Any step but a put under its number leaves an entry as it is. */
  lemma EntryStays(s: State, a: Action, k: nat)
    requires k in Apply(s, a).unconfirmed && !(a.Put? && s.nextSeq == k)
    ensures k in s.unconfirmed && Apply(s, a).unconfirmed[k] == s.unconfirmed[k]
  {
  }

  lemma OneMore(init: State, front: seq<Action>, a: Action)
    ensures Exec(init, front + [a]) == Apply(Exec(init, front), a)
  {
    LegalSplit(init, front, [a]);
    assert [a][1..] == [];
  }

  /** Every entry holds the timestamp and the epoch of the last publish under its number. */
  lemma {:induction false} EntryIsItsPublish(init: State, acts: seq<Action>, k: nat) returns (i: nat)
    requires init.unconfirmed == map[] && k in Exec(init, acts).unconfirmed
    ensures PublishedBy(init, acts, i, k, Exec(init, acts).unconfirmed[k])
    decreases |acts|
  {
    if acts == [] {
      assert false;
    } else {
      var n := |acts| - 1;
      var front, a := acts[..n], acts[n];
      assert acts == front + [a];
      OneMore(init, front, a);
      if a.Put? && Exec(init, front).nextSeq == k {
        i := n;
      } else {
        EntryStays(Exec(init, front), a, k);
        i := EntryIsItsPublish(init, front, k);
        assert forall j :: 0 <= j <= n ==> acts[..j] == front[..j];
      }
    }
  }

  // ---------- where the contract is needed ----------

  /**
   * A single ack releases one permit whatever it removed, and so does a single nack, unless
   * it ends in an exception: right for outstanding numbers, and for those unknown nacks.
   */
  lemma SingleConfirmExact(s: State, seqNo: nat, nack: bool)
    requires Conserved(s) && s.confirmer.Quiet?
    ensures Conserved(Apply(s, Single(seqNo, nack)))
       <==> seqNo in Current(s) || (nack && seqNo !in s.unconfirmed)
  {
    var t := Apply(s, Single(seqNo, nack));
    assert Current(t) == Current(s) - {seqNo};
    if seqNo in Current(s) {
      SubsetSize({seqNo}, Current(s));
    } else {
      assert Current(t) == Current(s);
    }
  }

  /** So a single ack of an unknown number adds a permit to a full pool. */
  lemma UnknownAckAddsPermit(init: State)
    requires Init(init)
    ensures Apply(Apply(init, Single(1, false)), Release).permits == init.limit + 1
    ensures !Conserved(Apply(init, Single(1, false)))
  {
    assert Current(init) == {};
    SingleConfirmExact(init, 1, false);
  }

  /** A run made one action longer. */
  lemma Extend(init: State, acts: seq<Action>, a: Action) returns (longer: seq<Action>)
    requires Legal(init, acts) && Enabled(Exec(init, acts), a) && Contract(Exec(init, acts), a)
    ensures longer == acts + [a] && Legal(init, longer)
    ensures Exec(init, longer) == Apply(Exec(init, acts), a)
  {
    longer := acts + [a];
    assert [a][1..] == [];
    LegalSplit(init, acts, [a]);
  }

  lemma {:induction false} LegalSplit(s: State, first: seq<Action>, rest: seq<Action>)
    ensures Legal(s, first + rest) <==> Legal(s, first) && Legal(Exec(s, first), rest)
    ensures Exec(s, first + rest) == Exec(Exec(s, first), rest)
    decreases |first|
  {
    if first == [] {
      assert first + rest == rest;
    } else {
      assert (first + rest)[1..] == first[1..] + rest;
      LegalSplit(Apply(s, first[0]), first[1..], rest);
    }
  }

  /** One publish, from the guard to the return of the write, on a live link. */
  lemma PublishOnce(init: State, acts: seq<Action>) returns (longer: seq<Action>)
    requires Legal(init, acts)
    requires var s := Exec(init, acts); s.publisher.Idle? && !s.recovering && s.permits > 0 && s.link.Up? && s.toRefill == 0
    ensures Legal(init, longer)
    ensures var s := Exec(init, acts);
            Exec(init, longer) == s.(permits := s.permits - 1,
                                     unconfirmed := s.unconfirmed[s.nextSeq := Entry(0, s.epoch)],
                                     nextSeq := s.nextSeq + 1,
                                     owed := s.owed + {s.nextSeq},
                                     published := s.published + 1)
  {
    longer := Extend(init, acts, Guard);
    longer := Extend(init, longer, Acquire);
    longer := Extend(init, longer, Put(0));
    longer := Extend(init, longer, Send);
  }

  lemma LoseLink(init: State, acts: seq<Action>) returns (longer: seq<Action>)
    requires Legal(init, acts)
    requires Exec(init, acts).link.Up? && Exec(init, acts).recoveryEnabled
    ensures Legal(init, longer)
    ensures Exec(init, longer) == Exec(init, acts).(link := Announced, recovering := true)
  {
    longer := Extend(init, acts, LinkLost);
    longer := Extend(init, longer, FlagOn);
  }

  /** A handler that is the only one to refill the pool reads it and gives back what is missing. */
  lemma Refill(init: State, acts: seq<Action>) returns (longer: seq<Action>)
    requires Legal(init, acts)
    requires var s := Exec(init, acts); s.toRefill > 0 && s.refunds == [] && s.permits <= s.limit
    ensures longer == acts + [PoolRead] + [PoolRelease(0)] && Legal(init, longer)
    ensures var s := Exec(init, acts);
            Exec(init, longer) == s.(permits := s.limit, toRefill := s.toRefill - 1, toLower := s.toLower + 1,
                                     abandoned := s.abandoned + s.leaked, leaked := 0)
  {
    longer := Extend(init, acts, PoolRead);
    assert Exec(init, longer).refunds == [Exec(init, acts).limit - Exec(init, acts).permits];
    assert Without(Exec(init, longer).refunds, 0) == [];
    longer := Extend(init, longer, PoolRelease(0));
  }

  lemma FinishRecovery(init: State, acts: seq<Action>) returns (longer: seq<Action>)
    requires Legal(init, acts)
    requires var s := Exec(init, acts); s.toRefill == 1 && s.refunds == [] && s.permits <= s.limit
    ensures Legal(init, longer)
    ensures var s := Exec(init, acts);
            Exec(init, longer) == s.(recovering := false, permits := s.limit, toRefill := 0,
                                     abandoned := s.abandoned + s.leaked, leaked := 0)
  {
    longer := Refill(init, acts);
    longer := Extend(init, longer, FlagOff);
  }

  /** Behind a full window the publisher can only give up, and then it stops for good. */
  lemma FullWindowGivesUp(init: State) returns (acts: seq<Action>)
    requires Init(init) && init.limit == 1
    ensures Legal(init, acts)
    ensures var s := Exec(init, acts);
            && s.publisher.Waiting? && s.owed == {1} && !Enabled(s, Acquire) && Enabled(s, GiveUp)
            && Apply(s, GiveUp) == s.(publisher := Stopped)
            && forall a :: OfPublisher(a) ==> !Enabled(Apply(s, GiveUp), a)
  {
    acts := PublishOnce(init, []);
    acts := Extend(init, acts, Guard);
  }

  /** A publish whose write fails on a lost socket, and the recovery from it: nothing is lost. */
  lemma SwallowedWriteRecovered(init: State) returns (failed: seq<Action>, acts: seq<Action>)
    requires Init(init) && init.recoveryEnabled
    ensures Legal(init, failed) && Legal(init, acts)
    ensures var s := Exec(init, failed);
            s.publisher.Idle? && !s.link.Up? && s.leaked == 1 && s.permits == s.limit - 1
    ensures var s := Exec(init, acts);
            && s.publisher.Idle? && s.link.Up? && !s.recovering && s.leaked == 0 && s.permits == s.limit
            && s.published == s.abandoned == 1
  {
    failed := Extend(init, [], Guard);
    failed := Extend(init, failed, Acquire);
    failed := Extend(init, failed, Put(0));
    failed := Extend(init, failed, WriteFails(SocketFailure, false));
    acts := Extend(init, failed, FlagOn);
    assert Current(Exec(init, acts)) == {};
    acts := Extend(init, acts, ChannelReset);
    acts := FinishRecovery(init, acts);
  }

  // ---------- entries left over by a recovery ----------

  /** The part of `before` that has not been overwritten since the channel was renumbered. */
  ghost predicate LeftOver(s: State, before: set<nat>) {
    && (forall k :: k in Stale(s) ==> k in before && k >= s.nextSeq)
    && (forall k :: k in before && k > s.nextSeq ==> k in Stale(s))
    && (s.link.Up? && !s.publisher.Entered? && s.nextSeq in before ==> s.nextSeq in Stale(s))
  }

  lemma StaleAfter(s: State, a: Action)
    requires MapInv(s) && ConfirmerInv(s) && s.owed <= Current(s)
    requires Enabled(s, a) && Contract(s, a) && !a.ChannelReset?
    ensures Stale(Apply(s, a)) == if a.Put? then Stale(s) - {s.nextSeq} else Stale(s)
  {
  }

  lemma LeftOverStep(s: State, a: Action, before: set<nat>)
    requires Inv(s) && Enabled(s, a) && Contract(s, a) && !a.ChannelReset?
    requires LeftOver(s, before)
    ensures LeftOver(Apply(s, a), before)
  {
    StaleAfter(s, a);
  }

  lemma {:induction false} LeftOverRun(s: State, acts: seq<Action>, before: set<nat>)
    requires Inv(s) && Legal(s, acts) && ChannelReset !in acts
    requires LeftOver(s, before)
    ensures LeftOver(Exec(s, acts), before) && Inv(Exec(s, acts))
    decreases |acts|
  {
    if acts != [] {
      StepKeepsInv(s, acts[0]);
      LeftOverStep(s, acts[0], before);
      LeftOverRun(Apply(s, acts[0]), acts[1..], before);
    }
  }

  /**
   * The wait before exit looks for an empty map. After a recovery, with every confirm
   * of the new numbering received, the map is empty exactly when the numbers used
   * since then have run past every number that was outstanding at the recovery.
   */
  lemma MapEmptiesExactlyWhenOverrun(init: State, before: seq<Action>, after: seq<Action>)
    requires Init(init) && Legal(init, before + [ChannelReset] + after) && ChannelReset !in after
    requires var s := Exec(init, before + [ChannelReset] + after);
             && s.link.Up? && InHand(s) == 0 && s.confirmer.Quiet? && s.owed == {}
    ensures var s := Exec(init, before + [ChannelReset] + after);
            var outstanding := Exec(init, before).unconfirmed;
            s.unconfirmed == map[] <==> forall k :: k in outstanding ==> k < s.nextSeq
  {
    LegalSplit(init, before + [ChannelReset], after);
    LegalSplit(init, before, [ChannelReset]);
    var r := Exec(init, before);
    assert [ChannelReset][1..] == [];
    Reached(init, before);
    StepKeepsInv(r, ChannelReset);
    var r' := Apply(r, ChannelReset);
    assert Exec(r, [ChannelReset]) == r';
    assert Stale(r') == r.unconfirmed.Keys;
    LeftOverRun(r', after, r.unconfirmed.Keys);
    var s := Exec(r', after);
    EmptyExactlyWhenOverrun(s, r.unconfirmed.Keys);
  }

  /** Whatever was outstanding at the recovery and has not been overtaken is still in the map. */
  ghost predicate StillThere(s: State, before: set<nat>) {
    forall k :: k in before && k >= s.nextSeq ==> k in s.unconfirmed
  }

  lemma StillThereStep(s: State, a: Action, before: set<nat>)
    requires WindowInv(s) && Enabled(s, a) && Contract(s, a) && !a.ChannelReset?
    requires StillThere(s, before)
    ensures StillThere(Apply(s, a), before)
  {
  }

  lemma {:induction false} StillThereRun(s: State, acts: seq<Action>, before: set<nat>)
    requires WindowInv(s) && Legal(s, acts) && ChannelReset !in acts && StillThere(s, before)
    ensures StillThere(Exec(s, acts), before)
    decreases |acts|
  {
    if acts != [] {
      StepKeepsWindow(s, acts[0]);
      StillThereStep(s, acts[0], before);
      StillThereRun(Apply(s, acts[0]), acts[1..], before);
    }
  }

  lemma EmptyExactlyWhenOverrun(s: State, before: set<nat>)
    requires MapInv(s) && OwedInv(s) && LeftOver(s, before)
    requires s.link.Up? && InHand(s) == 0 && s.confirmer.Quiet? && s.owed == {}
    ensures s.unconfirmed == map[] <==> forall k :: k in before ==> k < s.nextSeq
  {
    if forall k :: k in before ==> k < s.nextSeq {
      assert forall k :: k in s.unconfirmed ==> k in Stale(s) || k in Current(s);
    } else {
      var k :| k in before && k >= s.nextSeq;
      assert k in Stale(s);
    }
  }

  /** Such a left-over exists: everything confirmed, the pool full, and the map not empty. */
  lemma StaleEntryOutlivesItsEpoch(init: State) returns (acts: seq<Action>)
    requires Init(init) && init.recoveryEnabled
    ensures Legal(init, acts)
    ensures var s := Exec(init, acts);
            && s.owed == {} && s.permits == s.limit == init.limit && s.link.Up?
            && InHand(s) == 0 && s.confirmer.Quiet?
            && s.unconfirmed.Keys == {1}
  {
    acts := PublishOnce(init, []);
    acts := LoseLink(init, acts);
    acts := Extend(init, acts, ChannelReset);
    acts := FinishRecovery(init, acts);
  }
}
