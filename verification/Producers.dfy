/** The producer: its confirm callbacks, its publish path, its run loop and its final wait. */
module Producers {
  import opened AgentWrites
  import opened ConfirmWindow
  import opened Arithmetic
  import opened Sequences

  // ---------- the order in which a confirm walks the map ----------

  /** The latencies of the entries in `from..upTo`, in ascending order of their numbers. */
  function Latencies(m: Unconfirmed, from: nat, upTo: nat, difference: int -> int): seq<int>
    decreases if from <= upTo then upTo - from + 1 else 0
  {
    if from > upTo then []
    else if from in m then [difference(m[from].timestamp)] + Latencies(m, from + 1, upTo, difference)
    else Latencies(m, from + 1, upTo, difference)
  }

  function Between(m: Unconfirmed, from: nat, upTo: nat): set<nat> {
    set k | k in m && from <= k <= upTo
  }

  lemma BetweenStep(m: Unconfirmed, from: nat, upTo: nat)
    requires from <= upTo
    ensures |Between(m, from, upTo)| == |Between(m, from + 1, upTo)| + if from in m then 1 else 0
  {
    var rest := Between(m, from + 1, upTo);
    assert Between(m, from, upTo) == if from in m then rest + {from} else rest;
  }

  lemma {:induction false} LatenciesSize(m: Unconfirmed, from: nat, upTo: nat, difference: int -> int)
    ensures |Latencies(m, from, upTo, difference)| == |Between(m, from, upTo)|
    decreases if from <= upTo then upTo - from + 1 else 0
  {
    if from > upTo {
      assert Between(m, from, upTo) == {};
    } else {
      LatenciesSize(m, from + 1, upTo, difference);
      BetweenStep(m, from, upTo);
    }
  }

  /** The latency at position `|Between(m, from, k - 1)|` is that of number `k`. */
  lemma {:induction false} LatencyOf(m: Unconfirmed, from: nat, upTo: nat, difference: int -> int, k: nat)
    requires k in m && from <= k <= upTo
    ensures var i := |set j | j in m && from <= j < k|;
            && i < |Latencies(m, from, upTo, difference)|
            && Latencies(m, from, upTo, difference)[i] == difference(m[k].timestamp)
    decreases upTo - from
  {
    var below := set j | j in m && from <= j < k;
    if from == k {
      assert below == {};
    } else {
      LatencyOf(m, from + 1, upTo, difference, k);
      var rest := set j | j in m && from + 1 <= j < k;
      assert below == if from in m then rest + {from} else rest;
    }
  }

  lemma {:induction false} LatenciesFromNext(m: Unconfirmed, from: nat, upTo: nat, difference: int -> int)
    ensures Latencies(m, from, upTo, difference) ==
            (var k := NextKey(m, from, upTo);
             if k > upTo then [] else [difference(m[k].timestamp)] + Latencies(m, k + 1, upTo, difference))
    decreases if from <= upTo then upTo - from + 1 else 0
  {
    if from <= upTo && from !in m {
      LatenciesFromNext(m, from + 1, upTo, difference);
    }
  }

  /** One step of the walk: the next latency goes behind those that are done. */
  lemma WalkOn(m: Unconfirmed, from: nat, upTo: nat, difference: int -> int, done: seq<int>)
    requires NextKey(m, from, upTo) <= upTo
    ensures done + Latencies(m, from, upTo, difference) ==
            (var k := NextKey(m, from, upTo);
             (done + [difference(m[k].timestamp)]) + Latencies(m, k + 1, upTo, difference))
    ensures |Latencies(m, from, upTo, difference)| > 0
  {
    LatenciesFromNext(m, from, upTo, difference);
    var k := NextKey(m, from, upTo);
    Reassociate(done, [difference(m[k].timestamp)], Latencies(m, k + 1, upTo, difference));
  }

  class Producer {
    const maxOutstandingConfirms: nat  // 0 when confirms are not tracked: no pool then
    const recoveryEnabled: bool
    var permits: int
    var unconfirmed: Unconfirmed
    var confirmedCount: nat
    var nackedCount: nat

    constructor (confirm: int, recoveryEnabled: bool)
      ensures maxOutstandingConfirms == if confirm > 0 then confirm else 0
      ensures this.recoveryEnabled == recoveryEnabled
      ensures permits == maxOutstandingConfirms && unconfirmed == map[]
      ensures confirmedCount == nackedCount == 0
      ensures confirm > 0 ==> Matches(Fresh(confirm, recoveryEnabled))
    {
      this.maxOutstandingConfirms := if confirm > 0 then confirm else 0;
      this.recoveryEnabled := recoveryEnabled;
      this.permits := if confirm > 0 then confirm else 0;
      this.unconfirmed := map[];
      this.confirmedCount, this.nackedCount := 0, 0;
    }

    /** The producer's fields are those of a state of the step system. */
    ghost predicate Matches(s: State)
      reads this
    {
      && s.limit == maxOutstandingConfirms > 0
      && s.recoveryEnabled == recoveryEnabled
      && s.permits == permits && s.unconfirmed == unconfirmed
      && s.confirmed == confirmedCount && s.nacked == nackedCount
    }

    /** processAck: `difference` gives the latency of a timestamp at the time of the confirm. */
    method ProcessAck(seqNo: nat, multiple: bool, difference: int -> int)
        returns (numConfirms: nat, latencies: array<int>)
      modifies this`unconfirmed, this`confirmedCount
      ensures unconfirmed == old(unconfirmed) - Settled(old(unconfirmed), seqNo, multiple)
      ensures numConfirms == if multiple then |HeadKeys(old(unconfirmed), seqNo)| else 1
      ensures confirmedCount == old(confirmedCount) + numConfirms
      ensures fresh(latencies)
      ensures latencies[..] == Latencies(old(unconfirmed), if multiple then 0 else seqNo, seqNo, difference)
    {
      if multiple {
        numConfirms, latencies := WalkHead(unconfirmed, seqNo, difference);
        unconfirmed := unconfirmed - HeadKeys(unconfirmed, seqNo);
      } else {
        assert Latencies(unconfirmed, seqNo + 1, seqNo, difference) == [];
        if seqNo in unconfirmed {
          latencies := new int[1];
          latencies[0] := difference(unconfirmed[seqNo].timestamp);
        } else {
          latencies := new int[0];
        }
        unconfirmed := unconfirmed - {seqNo};
        numConfirms := 1;
      }
      confirmedCount := confirmedCount + numConfirms;
    }

    /** The loop over the head map: the array has room for exactly the entries it meets. */
    static method WalkHead(m: Unconfirmed, seqNo: nat, difference: int -> int)
        returns (size: nat, latencies: array<int>)
      ensures size == |HeadKeys(m, seqNo)| && fresh(latencies)
      ensures latencies[..] == Latencies(m, 0, seqNo, difference)
    {
      size := |HeadKeys(m, seqNo)|;
      latencies := new int[size];
      LatenciesSize(m, 0, seqNo, difference);
      assert HeadKeys(m, seqNo) == Between(m, 0, seqNo);
      var index, from: nat := 0, 0;
      while NextKey(m, from, seqNo) <= seqNo
        invariant 0 <= index <= size == latencies.Length
        invariant latencies[..index] + Latencies(m, from, seqNo, difference) == Latencies(m, 0, seqNo, difference)
        decreases size - index
      {
        var key := NextKey(m, from, seqNo);
        ghost var done := latencies[..index];
        WalkOn(m, from, seqNo, difference, done);
        latencies[index] := difference(m[key].timestamp);
        assert latencies[..index + 1] == done + [difference(m[key].timestamp)];
        index, from := index + 1, key + 1;
      }
      LatenciesFromNext(m, from, seqNo, difference);
      assert latencies[..] == latencies[..index];
    }

    /**
     * processNack. Unlike an ack, a single nack of a number that is not in the map unboxes a
     * missing timestamp: it throws, and nothing is counted.
     */
    method ProcessNack(seqNo: nat, multiple: bool) returns (numConfirms: nat, thrown: bool)
      modifies this`unconfirmed, this`nackedCount
      ensures thrown <==> !multiple && seqNo !in old(unconfirmed)
      ensures unconfirmed == old(unconfirmed) - Settled(old(unconfirmed), seqNo, multiple)
      ensures numConfirms == if multiple then |HeadKeys(old(unconfirmed), seqNo)| else 1
      ensures nackedCount == old(nackedCount) + if thrown then 0 else numConfirms
    {
      numConfirms := if multiple then |HeadKeys(unconfirmed, seqNo)| else 1;
      thrown := !multiple && seqNo !in unconfirmed;
      unconfirmed := unconfirmed - Settled(unconfirmed, seqNo, multiple);
      if !thrown {
        nackedCount := nackedCount + numConfirms;
      }
    }

    /** A whole confirm callback is the start, the clear and the release of the step system. */
    method HandleAckNack(seqNo: nat, multiple: bool, nack: bool, difference: int -> int, ghost s: State)
        returns (thrown: bool)
      requires Matches(s) && s.confirmer.Quiet?
      modifies this`unconfirmed, this`permits, this`confirmedCount, this`nackedCount
      ensures multiple ==> Matches(Apply(Apply(Apply(s, StartMultiple(seqNo, nack)), Clear), Release))
      ensures !multiple ==> Matches(Apply(Apply(s, Single(seqNo, nack)), Release))
      ensures thrown <==> nack && !multiple && seqNo !in old(unconfirmed)
    {
      var numConfirms;
      thrown := false;
      if nack {
        numConfirms, thrown := ProcessNack(seqNo, multiple);
        if thrown {
          return;
        }
      } else {
        var latencies;
        numConfirms, latencies := ProcessAck(seqNo, multiple, difference);
      }
      if maxOutstandingConfirms > 0 && numConfirms > 0 {
        permits := permits + numConfirms;
      }
    }

    /** handlePublish past the guard, when a permit is there: acquire, put, write. */
    method HandlePublish(timestamp: int, nextPublishSeqNo: nat, epoch: nat, outcome: WriteOutcome,
                         ghost advanced: bool, ghost s: State)
        returns (thrown: bool)
      requires Matches(s) && s.publisher.Waiting? && permits > 0
      requires nextPublishSeqNo == s.nextSeq && epoch == s.epoch
      modifies this`unconfirmed, this`permits
      ensures var entered := Apply(Apply(s, Acquire), Put(timestamp));
              var after := Apply(entered, if outcome.Written? then Send else WriteFails(outcome, advanced));
              Matches(after) && (thrown <==> after.publisher.Stopped?)
      ensures permits == old(permits) - 1
      ensures unconfirmed == old(unconfirmed)[nextPublishSeqNo := Entry(timestamp, epoch)]
      ensures thrown <==> outcome.OtherFailure? || outcome == ShutdownSignal(false)
                          || (!recoveryEnabled && !outcome.Written?)
    {
      permits := permits - 1;
      unconfirmed := unconfirmed[nextPublishSeqNo := Entry(timestamp, epoch)];
      thrown := Propagates(recoveryEnabled, outcome);
    }

    /**
     * recover, uninterrupted: gives back what is missing, and nothing else changes. A pool
     * that holds too much makes it throw, because a semaphore releases no negative number.
     */
    method Recover(ghost s: State) returns (thrown: bool)
      requires maxOutstandingConfirms > 0 ==> Matches(s) && s.toRefill > 0
      modifies this`permits
      ensures thrown <==> 0 < maxOutstandingConfirms < old(permits)
      ensures maxOutstandingConfirms > 0 && !thrown ==>
                permits == maxOutstandingConfirms && Matches(Apply(Apply(s, PoolRead), PoolRelease(|s.refunds|)))
      ensures thrown ==> Matches(Apply(s, PoolRead))
      ensures maxOutstandingConfirms == 0 || thrown ==> permits == old(permits)
    {
      thrown := false;
      if maxOutstandingConfirms > 0 {
        var usedPermits := maxOutstandingConfirms - permits;
        if usedPermits < 0 {
          return true;
        }
        permits := permits + usedPermits;
      }
    }
  }

  /**
   * Over whole runs, the latency that an ack reports for a number is the difference from the
   * last publish under that number.
   */
  lemma LatencyIsSincePublish(init: State, acts: seq<Action>, seqNo: nat, multiple: bool, difference: int -> int, k: nat)
      returns (i: nat, position: nat)
    requires Init(init) && k in Exec(init, acts).unconfirmed && k in Settled(Exec(init, acts).unconfirmed, seqNo, multiple)
    ensures var m := Exec(init, acts).unconfirmed;
            var reported := Latencies(m, if multiple then 0 else seqNo, seqNo, difference);
            && PublishedBy(init, acts, i, k, m[k])
            && position < |reported| && reported[position] == difference(acts[i].timestamp)
  {
    var m := Exec(init, acts).unconfirmed;
    var from := if multiple then 0 else seqNo;
    i := EntryIsItsPublish(init, acts, k);
    LatencyOf(m, from, seqNo, difference, k);
    position := |set j | j in m && from <= j < k|;
  }

  // ---------- the run loop ----------

  /** What the environment does to one attempt of a fixed-rate, uninterrupted run. */
  datatype Attempt = Attempt(
    pauses: nat,           // polls that found a recovery in progress first
    granted: bool,         // a permit came before the confirm timeout
    write: WriteOutcome,
    commit: WriteOutcome)

  datatype StopReason = MessageLimit | TooLongForConfirms | ErrorInProducer

  predicate CommitDue(txSize: int, messageCount: nat) {
    txSize != 0 && messageCount % txSize == 0
  }

  /** Attempt number `i` ends the run with an exception. */
  predicate Fatal(txSize: int, recoveryEnabled: bool, env: nat -> Attempt, i: nat) {
    || !env(i).granted
    || Propagates(recoveryEnabled, env(i).write)
    || (CommitDue(txSize, i + 1) && Propagates(recoveryEnabled, env(i).commit))
  }

  /** Which attempts are fatal, in the outcomes of their writes. */
  lemma FatalAttempts(txSize: int, recoveryEnabled: bool, env: nat -> Attempt, i: nat)
    ensures recoveryEnabled ==>
              (Fatal(txSize, recoveryEnabled, env, i) <==>
                 || !env(i).granted
                 || !WrittenOrRecovered(env(i).write)
                 || (txSize != 0 && (i + 1) % Abs(txSize) == 0 && !WrittenOrRecovered(env(i).commit)))
    ensures !recoveryEnabled ==>
              (Fatal(txSize, recoveryEnabled, env, i) <==>
                 || !env(i).granted
                 || !env(i).write.Written?
                 || (txSize != 0 && (i + 1) % Abs(txSize) == 0 && !env(i).commit.Written?))
  {
    if txSize != 0 {
      ModuloAbs(i + 1, txSize);
    }
  }

  /** The counts at which a run of `n` messages asks for a commit. */
  function CommitPoints(txSize: int, n: nat): (cs: seq<nat>) {
    if n == 0 then []
    else CommitPoints(txSize, n - 1) + if CommitDue(txSize, n) then [n] else []
  }

  /**
   * Producer.run with a message limit. The bodies asked for are numbered from 0
   * without a gap or a repeat, whatever the recovery pauses; the run ends at the
   * limit exactly when no attempt is fatal.
   */
  method Run(msgLimit: nat, txSize: int, recoveryEnabled: bool, env: nat -> Attempt)
      returns (bodies: seq<nat>, commits: seq<nat>, reason: StopReason)
    requires msgLimit > 0
    ensures |bodies| <= msgLimit && forall i :: 0 <= i < |bodies| ==> bodies[i] == i
    ensures reason == MessageLimit <==> forall i :: 0 <= i < msgLimit ==> !Fatal(txSize, recoveryEnabled, env, i)
    ensures recoveryEnabled && (forall i :: 0 <= i < msgLimit ==>
              env(i).granted && WrittenOrRecovered(env(i).write) && WrittenOrRecovered(env(i).commit)) ==>
              reason == MessageLimit
    ensures reason == MessageLimit ==> |bodies| == msgLimit && commits == CommitPoints(txSize, msgLimit)
    ensures reason != MessageLimit ==>
              var last := if reason == TooLongForConfirms then |bodies| else |bodies| - 1;
              && 0 <= last < msgLimit && Fatal(txSize, recoveryEnabled, env, last)
              && (forall i :: 0 <= i < last ==> !Fatal(txSize, recoveryEnabled, env, i))
              && (reason == TooLongForConfirms <==> !env(last).granted)
    ensures reason == TooLongForConfirms ==> commits == CommitPoints(txSize, |bodies|)
    ensures reason == ErrorInProducer ==>
              commits == CommitPoints(txSize, if Propagates(recoveryEnabled, env(|bodies| - 1).write) then |bodies| - 1 else |bodies|)
  {
    var msgCount: nat, paused: nat := 0, 0;
    bodies, commits := [], [];
    while msgCount < msgLimit
      invariant msgCount <= msgLimit
      invariant paused <= if msgCount < msgLimit then env(msgCount).pauses else 0
      invariant |bodies| == msgCount && forall i :: 0 <= i < msgCount ==> bodies[i] == i
      invariant commits == CommitPoints(txSize, msgCount)
      invariant forall i :: 0 <= i < msgCount ==> !Fatal(txSize, recoveryEnabled, env, i)
      decreases msgLimit - msgCount, if msgCount < msgLimit then env(msgCount).pauses - paused else 0
    {
      var attempt := env(msgCount);
      ghost var fatal := Fatal(txSize, recoveryEnabled, env, msgCount);
      if paused < attempt.pauses {
        paused := paused + 1;
      } else {
        if !attempt.granted {
          return bodies, commits, TooLongForConfirms;
        }
        bodies := bodies + [msgCount];
        if Propagates(recoveryEnabled, attempt.write) {
          return bodies, commits, ErrorInProducer;
        }
        if CommitDue(txSize, msgCount + 1) {
          commits := commits + [msgCount + 1];
          if Propagates(recoveryEnabled, attempt.commit) {
            return bodies, commits, ErrorInProducer;
          }
        }
        msgCount := msgCount + 1;
        paused := 0;
      }
    }
    reason := MessageLimit;
  }

  /** The first `k` multiples of `d`. */
  ghost predicate Multiples(cs: seq<nat>, d: nat, k: nat) {
    |cs| == k && forall j :: 0 <= j < k ==> cs[j] == (j + 1) * d
  }

  lemma NextMultiple(cs: seq<nat>, d: nat, k: nat, n: nat)
    requires Multiples(cs, d, k) && n == d * (k + 1)
    ensures Multiples(cs + [n], d, k + 1)
  {
    assert n == (k + 1) * d;
  }

  lemma NextCommit(txSize: int, n: nat)
    requires txSize != 0
    ensures var d := Abs(txSize);
            if CommitDue(txSize, n + 1) then (n + 1) / d == n / d + 1 && n + 1 == d * (n / d + 1)
            else (n + 1) / d == n / d
  {
    var d := Abs(txSize);
    ModuloAbs(n + 1, txSize);
    DivStep(n, d);
    Reassemble(n + 1, d);
  }

  /** A run of `n` messages commits at the multiples of the transaction size, and nowhere else. */
  lemma {:induction false} CommitCount(txSize: int, n: nat)
    ensures if txSize == 0 then CommitPoints(txSize, n) == []
            else Multiples(CommitPoints(txSize, n), Abs(txSize), n / Abs(txSize))
  {
    if n == 0 {
      assert CommitPoints(txSize, n) == [];
    } else {
      CommitCount(txSize, n - 1);
      if txSize != 0 {
        var d := Abs(txSize);
        NextCommit(txSize, n - 1);
        if CommitDue(txSize, n) {
          NextMultiple(CommitPoints(txSize, n - 1), d, (n - 1) / d, n);
        }
      }
    }
  }

  // ---------- the final wait ----------

  const INT_RANGE: int := 0x1_0000_0000

  /** A Java int after overflow. */
  function ToInt32(n: int): (w: int)
    ensures -0x8000_0000 <= w < 0x8000_0000 && (w - n) % INT_RANGE == 0
  {
    var m := n % INT_RANGE;
    if m >= 0x8000_0000 then m - INT_RANGE else m
  }

  /** The rounds that fit into the timeout. */
  function RoundsAllowed(confirmTimeout: int): nat {
    var timeout := ToInt32(confirmTimeout * 1000);
    if timeout < 0 then 0 else timeout / 100 + 1
  }

  /** The wait ends with the first round that stops it, or when the timeout is used up. */
  predicate WaitsFor(confirmTimeout: int, stop: nat -> bool, rounds: nat) {
    && rounds <= RoundsAllowed(confirmTimeout)
    && (forall r :: 0 <= r < rounds - 1 ==> !stop(r))
    && (rounds < RoundsAllowed(confirmTimeout) ==> rounds > 0 && stop(rounds - 1))
  }

  /** maybeWaitForPublishConfirms: `stop(r)` says whether round `r` finds the map empty or is interrupted. */
  method WaitForConfirms(confirmTimeout: int, stop: nat -> bool) returns (rounds: nat)
    ensures WaitsFor(confirmTimeout, stop, rounds)
  {
    var timeout := ToInt32(confirmTimeout * 1000);
    var waited := 0;
    rounds := 0;
    while waited <= timeout
      invariant 0 <= waited
      invariant waited <= timeout ==> waited == 100 * rounds && forall r :: 0 <= r < rounds ==> !stop(r)
      invariant waited > timeout ==>
                  if timeout < 0 then rounds == 0
                  else 0 < rounds <= timeout / 100 + 1
                       && (forall r :: 0 <= r < rounds - 1 ==> !stop(r))
                       && (stop(rounds - 1) || rounds == timeout / 100 + 1)
      decreases timeout - waited
    {
      if stop(rounds) {
        waited := timeout;
      }
      rounds := rounds + 1;
      waited := waited + 100;
    }
  }

  /** Ten rounds a second, and one: for every timeout whose milliseconds fit an int. */
  lemma MostRounds(confirmTimeout: int)
    requires 0 <= confirmTimeout
    ensures RoundsAllowed(confirmTimeout) == 10 * confirmTimeout + 1 <==> confirmTimeout <= 2147483
  {
    var w := ToInt32(confirmTimeout * 1000);
    if confirmTimeout <= 2147483 {
      assert w == confirmTimeout * 1000;
    } else {
      assert w <= 2147483647 < confirmTimeout * 1000;
    }
  }

  /** One second more, and the wait does not take place. */
  lemma TimeoutOverflows()
    ensures RoundsAllowed(2147484) == 0
  {
  }

  /** Publishing is over, and no recovery renumbers the channel. */
  ghost predicate OnlyWaiting(acts: seq<Action>) {
    forall i :: 0 <= i < |acts| ==> !acts[i].Put? && !acts[i].ChannelReset?
  }

  lemma {:induction false} NumberingRests(s: State, acts: seq<Action>)
    requires Legal(s, acts) && OnlyWaiting(acts) && !s.publisher.Entered?
    ensures Exec(s, acts).nextSeq == s.nextSeq && !Exec(s, acts).publisher.Entered?
    decreases |acts|
  {
    if acts != [] {
      NumberingRests(Apply(s, acts[0]), acts[1..]);
    }
  }

  /** The broker owes no confirm and none is being processed. */
  predicate AllConfirmed(s: State) {
    s.link.Up? && InHand(s) == 0 && s.confirmer.Quiet? && s.owed == {}
  }

  /** What was outstanding at the recovery and is beyond the numbers used since then. */
  ghost predicate NotOvertaken(outstanding: set<nat>, nextSeq: nat) {
    exists k :: k in outstanding && k >= nextSeq
  }

  /** A run with a last recovery, up to the end of publishing. */
  ghost predicate PublishingOver(init: State, before: seq<Action>, after: seq<Action>) {
    && Init(init) && Legal(init, before + [ChannelReset] + after) && ChannelReset !in after
    && InHand(Exec(init, before + [ChannelReset] + after)) == 0
  }

  ghost function EndOf(init: State, before: seq<Action>, after: seq<Action>): State {
    Exec(init, before + [ChannelReset] + after)
  }

  /** A map that holds a number not overtaken when publishing ends holds it at every later poll. */
  lemma NeverEmpty(init: State, before: seq<Action>, after: seq<Action>, acts: seq<Action>)
    requires PublishingOver(init, before, after)
    requires Legal(EndOf(init, before, after), acts) && OnlyWaiting(acts)
    requires NotOvertaken(Exec(init, before).unconfirmed.Keys, EndOf(init, before, after).nextSeq)
    ensures Exec(EndOf(init, before, after), acts).unconfirmed != map[]
  {
    var keys := Exec(init, before).unconfirmed.Keys;
    LegalSplit(init, before + [ChannelReset], after);
    LegalSplit(init, before, [ChannelReset]);
    assert [ChannelReset][1..] == [];
    Reached(init, before + [ChannelReset]);
    var r := Exec(init, before + [ChannelReset]);
    assert r == Apply(Exec(init, before), ChannelReset);
    StillThereRun(r, after, keys);
    RunKeepsWindow(r, after);
    var s := EndOf(init, before, after);
    NoResetWhileWaiting(acts);
    StillThereRun(s, acts, keys);
    NumberingRests(s, acts);
  }

  lemma NoResetWhileWaiting(acts: seq<Action>)
    requires OnlyWaiting(acts)
    ensures ChannelReset !in acts
  {
  }

  lemma RunOn(init: State, before: seq<Action>, after: seq<Action>, acts: seq<Action>)
    requires PublishingOver(init, before, after) && Legal(EndOf(init, before, after), acts)
    ensures Legal(init, before + [ChannelReset] + (after + acts))
    ensures EndOf(init, before, after + acts) == Exec(EndOf(init, before, after), acts)
  {
    LegalSplit(init, before + [ChannelReset] + after, acts);
    assert before + [ChannelReset] + after + acts == before + [ChannelReset] + (after + acts);
  }

  lemma EmptyAtLast(init: State, before: seq<Action>, after: seq<Action>, acts: seq<Action>)
    requires PublishingOver(init, before, after)
    requires Legal(EndOf(init, before, after), acts) && OnlyWaiting(acts)
    requires !NotOvertaken(Exec(init, before).unconfirmed.Keys, EndOf(init, before, after).nextSeq)
    requires AllConfirmed(Exec(EndOf(init, before, after), acts))
    ensures Exec(EndOf(init, before, after), acts).unconfirmed == map[]
  {
    RunOn(init, before, after, acts);
    NumberingRests(EndOf(init, before, after), acts);
    NoResetWhileWaiting(acts);
    MapEmptiesExactlyWhenOverrun(init, before, after + acts);
  }

  /**
   * The final wait after a recovery. `during(r)` is what happens between the end of
   * publishing and poll number `r`. If a number that was outstanding at the recovery has not
   * been overtaken, the wait uses up its whole timeout, whatever confirms come; otherwise it
   * ends with the first poll at which every confirm has come, if not before.
   */
  lemma FinalWaitExact(init: State, before: seq<Action>, after: seq<Action>, during: nat -> seq<Action>,
                       confirmTimeout: int, stop: nat -> bool, rounds: nat)
    requires PublishingOver(init, before, after)
    requires forall r: nat :: Legal(EndOf(init, before, after), during(r)) && OnlyWaiting(during(r))
    requires forall r: nat :: stop(r) <==> Exec(EndOf(init, before, after), during(r)).unconfirmed == map[]
    requires WaitsFor(confirmTimeout, stop, rounds)
    ensures if NotOvertaken(Exec(init, before).unconfirmed.Keys, EndOf(init, before, after).nextSeq)
            then rounds == RoundsAllowed(confirmTimeout)
            else forall r: nat :: AllConfirmed(Exec(EndOf(init, before, after), during(r))) ==> rounds <= r + 1
  {
    if NotOvertaken(Exec(init, before).unconfirmed.Keys, EndOf(init, before, after).nextSeq) {
      if rounds < RoundsAllowed(confirmTimeout) {
        NeverEmpty(init, before, after, during(rounds - 1));
      }
    } else {
      forall r: nat | AllConfirmed(Exec(EndOf(init, before, after), during(r))) ensures rounds <= r + 1 {
        EmptyAtLast(init, before, after, during(r));
      }
    }
  }

  /** It happens: nothing is owed, the pool is full, and the wait takes its whole time. */
  lemma WaitInVain(init: State, confirmTimeout: int, stop: nat -> bool, rounds: nat) returns (acts: seq<Action>)
    requires Init(init) && init.recoveryEnabled
    ensures Legal(init, acts) && AllConfirmed(Exec(init, acts)) && Exec(init, acts).permits == init.limit
    ensures (forall r :: stop(r) <==> Exec(init, acts).unconfirmed == map[]) && WaitsFor(confirmTimeout, stop, rounds) ==>
              rounds == RoundsAllowed(confirmTimeout)
  {
    acts := StaleEntryOutlivesItsEpoch(init);
  }
}
