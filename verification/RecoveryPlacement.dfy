/**
 * Where a recovery may land: runs in which nothing is trusted, so that the channel is
 * renumbered and the pool refilled at any point of a publish or of a confirm.
 */
module RecoveryPlacement {
  import opened ConfirmWindow

  /** What the code and the transport can do, with no promise from the environment. */
  predicate Feasible(s: State, acts: seq<Action>)
    decreases |acts|
  {
    acts == [] || (Enabled(s, acts[0]) && Feasible(Apply(s, acts[0]), acts[1..]))
  }

  /** Nothing of a recovery has happened, or is under way. */
  predicate NoRecovery(s: State) {
    !s.recoveryEnabled && !s.recovering && !s.link.Announced? && s.toRefill == s.toLower == 0 && s.refunds == []
  }

  /** Without recovery the flag stays down and the channel is never renumbered. */
  lemma {:induction false} NeverRecovers(s: State, acts: seq<Action>)
    requires NoRecovery(s) && Feasible(s, acts)
    ensures NoRecovery(Exec(s, acts)) && Exec(s, acts).epoch == s.epoch
    decreases |acts|
  {
    if acts != [] {
      NeverRecovers(Apply(s, acts[0]), acts[1..]);
    }
  }

  // ---------- what holds wherever recoveries land ----------

  /** A confirm callback never counted, or met, more than is still in the map. */
  ghost predicate WalkWithinMap(s: State) {
    s.confirmer.Counting? ==>
      && s.confirmer.last <= s.confirmer.upTo
      && s.confirmer.visited <= HeadKeys(s.unconfirmed, s.confirmer.upTo)
      && s.confirmer.size <= |HeadKeys(s.unconfirmed, s.confirmer.upTo)|
  }

  ghost predicate MapAnywhere(s: State) {
    && s.limit >= 1 && s.nextSeq >= 1 && s.permits >= 0
    && (forall k :: k in s.unconfirmed ==> 1 <= k && s.unconfirmed[k].epoch <= s.epoch)
    && (forall k :: k in s.unconfirmed && k > s.nextSeq ==> s.unconfirmed[k].epoch < s.epoch)
    && (s.link.Up? && !s.publisher.Entered? && s.nextSeq in s.unconfirmed ==> s.unconfirmed[s.nextSeq].epoch < s.epoch)
    && (forall k :: k in s.owed ==> k < s.nextSeq)
  }

  ghost predicate AnywhereInv(s: State) {
    MapAnywhere(s) && WalkWithinMap(s)
  }

  lemma PutKeepsWalk(s: State, timestamp: int)
    requires WalkWithinMap(s)
    ensures WalkWithinMap(Apply(s, Put(timestamp)))
  {
    if s.confirmer.Counting? {
      var before := HeadKeys(s.unconfirmed, s.confirmer.upTo);
      var after := HeadKeys(Apply(s, Put(timestamp)).unconfirmed, s.confirmer.upTo);
      assert before <= after;
      SubsetSize(before, after);
    }
  }

  lemma WalkAnywhere(s: State, a: Action)
    requires WalkWithinMap(s) && Enabled(s, a)
    ensures WalkWithinMap(Apply(s, a))
  {
    if a.Put? {
      PutKeepsWalk(s, a.timestamp);
    }
  }

  lemma PublisherAnywhere(s: State, a: Action)
    requires MapAnywhere(s) && Enabled(s, a)
    requires a.Guard? || a.Acquire? || a.GiveUp? || a.Put? || a.Send? || a.WriteFails?
    ensures MapAnywhere(Apply(s, a))
  {
  }

  lemma CountAnywhere(s: State, ks: set<nat>, nack: bool, n: nat)
    requires MapAnywhere(s)
    ensures MapAnywhere(Count(s, ks, nack, n))
  {
  }

  lemma SingleAnywhere(s: State, seqNo: nat, nack: bool)
    requires MapAnywhere(s)
    ensures MapAnywhere(Apply(s, Single(seqNo, nack)))
  {
    CountAnywhere(s.(owed := s.owed - {seqNo}), {seqNo}, nack, 1);
  }

  lemma MultipleAnywhere(s: State, a: Action)
    requires MapAnywhere(s) && Enabled(s, a)
    requires a.StartMultiple? || a.Visit? || a.Release?
    ensures MapAnywhere(Apply(s, a))
  {
  }

  lemma RecoveryAnywhere(s: State, a: Action)
    requires MapAnywhere(s) && Enabled(s, a)
    requires a.LinkLost? || a.FlagOn? || a.ChannelReset? || a.PoolRead? || a.PoolRelease? || a.FlagOff?
    ensures MapAnywhere(Apply(s, a))
  {
  }

  lemma StepAnywhere(s: State, a: Action)
    requires AnywhereInv(s) && Enabled(s, a)
    ensures AnywhereInv(Apply(s, a))
  {
    WalkAnywhere(s, a);
    match a
    case Guard | Acquire | GiveUp | Put(_) | Send | WriteFails(_, _) => PublisherAnywhere(s, a);
    case Single(seqNo, nack) => SingleAnywhere(s, seqNo, nack);
    case StartMultiple(_, _) | Visit | Release => MultipleAnywhere(s, a);
    case Clear => CountAnywhere(s, HeadKeys(s.unconfirmed, s.confirmer.upTo), s.confirmer.nack, s.confirmer.size);
    case _ => RecoveryAnywhere(s, a);
  }

  lemma {:induction false} RunAnywhere(s: State, acts: seq<Action>)
    requires AnywhereInv(s) && Feasible(s, acts)
    ensures AnywhereInv(Exec(s, acts))
    decreases |acts|
  {
    if acts != [] {
      StepAnywhere(s, acts[0]);
      RunAnywhere(Apply(s, acts[0]), acts[1..]);
    }
  }

  // ---------- the refill ----------

  /**
   * Nothing of the new numbering holds a permit or is still to be confirmed, nothing is on
   * its way back to the pool, and no confirm callback from before the renumbering is at work.
   */
  predicate NothingHeld(s: State) {
    && s.permits <= s.limit && Sum(s.refunds) == 0
    && InHand(s) == 0 && Current(s) == {} && s.owed == {} && Pending(s) == 0
    && (s.confirmer.Counting? ==> s.confirmer.upTo < s.nextSeq)
  }

  predicate WindowHolds(s: State) {
    s.toRefill == 0 ==> 0 <= s.permits <= s.limit && Conserved(s)
  }

  /** Whatever comes next, if no other recovery is badly placed, the permits add up to the limit. */
  ghost predicate KeepsWindow(s: State) {
    forall acts :: Legal(s, acts) ==> WindowHolds(Exec(s, acts))
  }

  /**
   * A refill leads to a good window exactly when nothing is held at the moment at which it
   * reads the pool, whatever happened to the permits and to the map before, and whatever is
   * acquired or confirmed between the reading and the giving back.
   */
  lemma RefillExact(init: State, acts: seq<Action>)
    requires Init(init) && Feasible(init, acts) && Enabled(Exec(init, acts), PoolRead)
    ensures var s := Exec(init, acts);
            && (WindowInv(Apply(s, PoolRead)) <==> NothingHeld(s))
            && (!s.publisher.Stopped? ==> (KeepsWindow(Apply(s, PoolRead)) <==> NothingHeld(s)))
  {
    RunAnywhere(init, acts);
    var s := Exec(init, acts);
    RefillRestores(s);
    if NothingHeld(s) {
      WindowKept(Apply(s, PoolRead));
    } else if !s.publisher.Stopped? {
      var after := BreakWindow(s);
    }
  }

  /** The permits add up after the reading exactly when nothing holds one. */
  lemma LedgerRestored(s: State)
    requires AnywhereInv(s) && s.toRefill > 0
    ensures LedgerInv(Apply(s, PoolRead))
       <==> s.permits <= s.limit && Sum(s.refunds) == 0 && InHand(s) == 0 && Current(s) == {} && Pending(s) == 0
  {
    var t := Apply(s, PoolRead);
    assert Current(t) == Current(s);
    if s.permits <= s.limit {
      SumAppend(s.refunds, s.limit - s.permits);
    }
  }

  lemma MapRestored(s: State)
    requires AnywhereInv(s) && Current(s) == {}
    ensures MapInv(s) || s.publisher.Entered?
  {
    assert forall k :: k in s.unconfirmed && k < s.nextSeq ==> k in Current(s);
  }

  lemma ConfirmerRestored(s: State)
    requires AnywhereInv(s) && Current(s) == {}
    ensures ConfirmerInv(s) <==> (s.confirmer.Counting? ==> s.confirmer.upTo < s.nextSeq)
  {
    if s.confirmer.Counting? && s.confirmer.upTo < s.nextSeq {
      NoHeadLeft(s);
    }
  }

  lemma RefillRestores(s: State)
    requires AnywhereInv(s) && s.toRefill > 0
    ensures WindowInv(Apply(s, PoolRead)) <==> NothingHeld(s)
  {
    var t := Apply(s, PoolRead);
    LedgerRestored(s);
    if LedgerInv(t) {
      assert Current(t) == Current(s);
      RecoveryAnywhere(s, PoolRead);
      MapRestored(t);
      ConfirmerRestored(t);
    }
  }

  /** A callback that started after the renumbering has nothing to walk when nothing is current. */
  lemma NoHeadLeft(s: State)
    requires WalkWithinMap(s) && s.confirmer.Counting? && s.confirmer.upTo < s.nextSeq && Current(s) == {}
    ensures HeadKeys(s.unconfirmed, s.confirmer.upTo) == HeadKeys(s.unconfirmed, s.confirmer.last) == {}
    ensures s.confirmer.size == 0 && s.confirmer.visited == {}
    ensures Enabled(s, Clear)
  {
    assert HeadKeys(s.unconfirmed, s.confirmer.upTo) <= Current(s);
    assert HeadKeys(s.unconfirmed, s.confirmer.last) <= Current(s);
    assert forall k :: k in s.unconfirmed ==> k in HeadKeys(s.unconfirmed, s.confirmer.upTo) || k > s.confirmer.upTo;
  }

  lemma WindowKept(t: State)
    requires WindowInv(t)
    ensures KeepsWindow(t)
  {
    forall acts | Legal(t, acts) ensures WindowHolds(Exec(t, acts)) {
      RunKeepsWindow(t, acts);
    }
  }

  // ---------- the ways in which a refill goes wrong ----------

  /** A run after a badly placed refill in which the permits do not add up. */
  lemma BreakWindow(s: State) returns (acts: seq<Action>)
    requires AnywhereInv(s) && s.toRefill > 0 && !s.publisher.Stopped? && !NothingHeld(s)
    ensures var t := Apply(s, PoolRead); Legal(t, acts) && !WindowHolds(Exec(t, acts))
  {
    var t := Apply(s, PoolRead);
    acts := SettleRefills(t);
    var u := Exec(t, acts);
    if s.permits <= s.limit {
      SumAppend(s.refunds, s.limit - s.permits);
    }
    if u.permits <= u.limit && Conserved(u) {
      assert Current(u) == Current(s);
      var rest := BreakSettled(u);
      LegalSplit(t, acts, rest);
      acts := acts + rest;
    }
  }

  lemma BreakSettled(u: State) returns (acts: seq<Action>)
    requires MapAnywhere(u) && WalkWithinMap(u)
    requires u.toRefill == 0 && u.refunds == [] && u.toLower > 0 && u.leaked == 0 && u.permits == u.limit && Conserved(u)
    requires !u.publisher.Stopped? && !NothingHeld(u)
    ensures Legal(u, acts) && !WindowHolds(Exec(u, acts))
  {
    assert Current(u) == {};
    if u.confirmer.Counting? && u.confirmer.upTo >= u.nextSeq {
      acts := [];
      if u.confirmer.size == 0 {
        acts := PublishNext(u);
      }
      acts := ClearAcross(u, acts);
    } else {
      acts := ConfirmUntracked(u);
    }
  }

  ghost predicate SameButPool(t: State, u: State) {
    u == t.(permits := u.permits, toRefill := u.toRefill, refunds := u.refunds, toLower := u.toLower,
            leaked := u.leaked, abandoned := u.abandoned)
  }

  /** All handlers finish their refills, one after the other. */
  lemma SettleRefills(t: State) returns (acts: seq<Action>)
    ensures Legal(t, acts)
    ensures var u := Exec(t, acts);
            var returned := t.permits + Sum(t.refunds);
            && SameButPool(t, u) && u.toRefill == 0 && u.refunds == []
            && u.permits == (if returned <= t.limit && t.toRefill > 0 then t.limit else returned)
            && u.toLower >= t.toLower + |t.refunds| && u.leaked <= t.leaked
  {
    acts := GiveAllBack(t, []);
    acts := ReadAll(t, acts);
  }

  lemma {:induction false} GiveAllBack(t: State, before: seq<Action>) returns (acts: seq<Action>)
    requires Legal(t, before)
    ensures Legal(t, acts)
    ensures var s := Exec(t, before);
            Exec(t, acts) == s.(permits := s.permits + Sum(s.refunds), refunds := [], toLower := s.toLower + |s.refunds|)
    decreases |Exec(t, before).refunds|
  {
    acts := before;
    var xs := Exec(t, before).refunds;
    if xs != [] {
      var n := |xs| - 1;
      assert Without(xs, n) == xs[..n];
      acts := Extend(t, acts, PoolRelease(n));
      acts := GiveAllBack(t, acts);
    }
  }

  lemma {:induction false} ReadAll(t: State, before: seq<Action>) returns (acts: seq<Action>)
    requires Legal(t, before) && Exec(t, before).refunds == []
    ensures Legal(t, acts)
    ensures var s := Exec(t, before);
            var u := Exec(t, acts);
            && SameButPool(s, u) && u.toRefill == 0 && u.refunds == []
            && u.permits == (if s.permits <= s.limit && s.toRefill > 0 then s.limit else s.permits)
            && u.toLower >= s.toLower && u.leaked <= s.leaked
    decreases Exec(t, before).toRefill
  {
    acts := before;
    var s := Exec(t, before);
    if s.toRefill > 0 {
      if s.permits <= s.limit {
        acts := Refill(t, acts);
      } else {
        acts := Extend(t, acts, PoolRead);
      }
      acts := ReadAll(t, acts);
    }
  }

  /** One publish after the refill; the flag, if raised, is lowered first by its handler. */
  lemma PublishNext(t: State) returns (acts: seq<Action>)
    requires (t.publisher.Idle? || t.publisher.Waiting?) && t.permits > 0 && t.toRefill == 0 && t.toLower > 0
    requires Current(t) == {}
    ensures Legal(t, acts)
    ensures var u := Exec(t, acts);
            && u.toRefill == 0 && u.refunds == t.refunds && u.limit == t.limit && u.leaked == t.leaked && InHand(u) == 0
            && u.confirmer == t.confirmer && u.permits == t.permits - 1
            && Current(u) == {t.nextSeq}
  {
    acts := [];
    if t.publisher.Idle? {
      acts := Extend(t, acts, FlagOff);
      acts := Extend(t, acts, Guard);
    }
    acts := Extend(t, acts, Acquire);
    acts := Extend(t, acts, Put(0));
    var entered := Exec(t, acts);
    acts := Extend(t, acts, Send);
    assert Current(entered) == Current(t);
    assert Current(Apply(entered, Send)) == Current(entered) + {t.nextSeq};
  }

  /** The clear at the end of a walk that spans every current number, with a count that is not theirs. */
  ghost predicate ClearBreaks(u: State) {
    && u.confirmer.Counting? && u.toRefill == 0
    && (forall k :: k in Current(u) ==> k <= u.confirmer.upTo)
    && u.permits + Sum(u.refunds) + InHand(u) + u.leaked + u.confirmer.size != u.limit
  }

  lemma ClearedBadly(u: State)
    requires ClearBreaks(u)
    ensures !WindowHolds(Apply(u, Clear))
  {
    var t := Apply(u, Clear);
    var head := HeadKeys(u.unconfirmed, u.confirmer.upTo);
    assert t.unconfirmed == u.unconfirmed - head;
    assert Current(t) <= Current(u) - head;
    assert Current(u) <= head;
    assert Current(t) == {};
  }

  /** A callback from before the renumbering ends: it clears and releases what it counted then. */
  lemma ClearAcross(t: State, before: seq<Action>) returns (acts: seq<Action>)
    requires Legal(t, before) && ClearBreaks(Exec(t, before))
    requires Exec(t, before).confirmer.last <= Exec(t, before).confirmer.upTo
    ensures Legal(t, acts) && !WindowHolds(Exec(t, acts))
  {
    acts := FinishWalk(t, before);
    ClearedBadly(Exec(t, acts));
    acts := Extend(t, acts, Clear);
  }

  /** The iterator walks on to its end. */
  lemma {:induction false} FinishWalk(t: State, before: seq<Action>) returns (acts: seq<Action>)
    requires Legal(t, before)
    requires var c := Exec(t, before).confirmer; c.Counting? && c.last <= c.upTo
    ensures Legal(t, acts) && Enabled(Exec(t, acts), Clear)
    ensures var u := Exec(t, before);
            var c := Exec(t, acts).confirmer;
            && c.Counting? && c.upTo == u.confirmer.upTo && c.size == u.confirmer.size
            && Exec(t, acts) == u.(confirmer := c)
    decreases Exec(t, before).confirmer.upTo - Exec(t, before).confirmer.last
  {
    acts := before;
    if !Enabled(Exec(t, before), Clear) {
      acts := Extend(t, before, Visit);
      acts := FinishWalk(t, acts);
    }
  }

  /** A confirm that is owed for a number the map does not hold releases a permit too many. */
  lemma ConfirmUntracked(t: State) returns (acts: seq<Action>)
    requires WalkWithinMap(t) && t.toRefill == 0 && Conserved(t) && t.permits == t.limit && t.owed != {}
    requires t.confirmer.Counting? ==> t.confirmer.upTo < t.nextSeq
    requires forall k :: k in t.owed ==> k < t.nextSeq
    ensures Legal(t, acts) && !WindowHolds(Exec(t, acts))
  {
    assert Current(t) == {};
    acts := [];
    if t.confirmer.Counting? {
      NoHeadLeft(t);
      acts := Extend(t, acts, Clear);
    }
    if !t.confirmer.Quiet? {
      acts := Extend(t, acts, Release);
    }
    var u := Exec(t, acts);
    assert Current(u) == {};
    var k :| k in t.owed;
    acts := Extend(t, acts, Single(k, false));
    assert Current(Apply(u, Single(k, false))) == {};
  }

  // ---------- such runs ----------

  /** A recovery between `acquire` and `put` mints a permit: two confirms owed in a window of one. */
  lemma RecoveryBetweenAcquireAndPut(init: State)
      returns (before: seq<Action>, after: seq<Action>)
    requires Init(init) && init.limit == 1 && init.recoveryEnabled
    ensures Legal(init, before) && Enabled(Exec(init, before), ChannelReset)
    ensures !Contract(Exec(init, before), ChannelReset)
    ensures var reset := Apply(Exec(init, before), ChannelReset);
            Legal(reset, after) && |Exec(reset, after).owed| == 2
  {
    before := Extend(init, [], Guard);
    before := Extend(init, before, Acquire);
    before := LoseLink(init, before);
    after := FirstAfterReset(Apply(Exec(init, before), ChannelReset));
  }

  lemma FirstAfterReset(reset: State) returns (after: seq<Action>)
    requires reset.link.Up? && reset.toRefill == 1 && reset.refunds == [] && reset.permits <= 1
    requires reset.publisher.Acquired? && reset.limit == 1
    requires reset.owed == {} && reset.nextSeq == 1
    ensures Legal(reset, after) && |Exec(reset, after).owed| == 2
  {
    after := FinishRecovery(reset, []);
    after := Extend(reset, after, Put(0));
    after := Extend(reset, after, Send);
    after := PublishOnce(reset, after);
    assert Exec(reset, after).owed == {1, 2};
  }

  /** A recovery while a multiple ack is in its loop: the refill looks right, and two permits for a limit of one. */
  lemma RecoveryDuringConfirm(init: State)
      returns (before: seq<Action>, after: seq<Action>)
    requires Init(init) && init.limit == 1 && init.recoveryEnabled
    ensures Legal(init, before) && Enabled(Exec(init, before), ChannelReset)
    ensures !Contract(Exec(init, before), ChannelReset)
    ensures var reset := Apply(Exec(init, before), ChannelReset);
            && Conserved(Apply(reset, PoolRead))
            && Legal(reset, after) && Exec(reset, after).permits == 2
  {
    before := AckInItsLoop(init);
    before := LoseLink(init, before);
    after := ReleaseAcross(Apply(Exec(init, before), ChannelReset));
  }

  lemma AckInItsLoop(init: State) returns (acts: seq<Action>)
    requires Init(init) && init.limit == 1
    ensures Legal(init, acts)
    ensures var s := Exec(init, acts);
            && s.link.Up? && s.recoveryEnabled == init.recoveryEnabled && s.limit == 1 && s.permits == 0
            && s.toRefill == 0 && s.refunds == [] && s.toLower == 0 && !s.recovering && s.publisher.Idle?
            && s.unconfirmed.Keys == {1} && InHand(s) == 0
            && s.confirmer == Counting(1, false, 1, 1, {1})
  {
    acts := PublishOnce(init, []);
    assert HeadKeys(Exec(init, acts).unconfirmed, 1) == {1};
    acts := Extend(init, acts, StartMultiple(1, false));
    acts := Extend(init, acts, Visit);
  }

  lemma ReleaseAcross(reset: State) returns (after: seq<Action>)
    requires reset.toRefill == 1 && reset.refunds == [] && reset.permits == 0
    requires reset.limit == 1 && reset.leaked == 0 && reset.nextSeq == 1
    requires InHand(reset) == 0 && 0 !in reset.unconfirmed
    requires reset.confirmer == Counting(1, false, 1, 1, {1})
    ensures Conserved(Apply(reset, PoolRead))
    ensures Legal(reset, after)
    ensures var u := Exec(reset, after);
            && u.permits == 2 && u.toRefill == 0 && u.refunds == [] && u.toLower == reset.toLower + 1
            && u.limit == 1 && u.link == reset.link && u.publisher == reset.publisher
            && u.recovering == reset.recovering && u.recoveryEnabled == reset.recoveryEnabled
            && u.confirmer.Quiet?
  {
    assert Current(Apply(reset, PoolRead)) == {};
    SumAppend([], 1);
    after := Refill(reset, []);
    after := Extend(reset, after, Clear);
    after := Extend(reset, after, Release);
  }

  /** Two recoveries that refill the pool at the same time: each gives back what both found missing. */
  lemma OverlappingRefills(init: State)
      returns (before: seq<Action>, after: seq<Action>)
    requires Init(init) && init.recoveryEnabled
    ensures Legal(init, before) && Enabled(Exec(init, before), PoolRead)
    ensures !Contract(Exec(init, before), PoolRead)
    ensures var read := Apply(Exec(init, before), PoolRead);
            Legal(read, after) && Exec(read, after).permits == init.limit + 1
  {
    before := PublishOnce(init, []);
    before := LoseLink(init, before);
    before := Extend(init, before, ChannelReset);
    before := LoseLink(init, before);
    before := Extend(init, before, ChannelReset);
    before := ReadFirst(init, before);
    after := ReadAgain(Exec(init, before));
  }

  lemma ReadFirst(init: State, acts: seq<Action>) returns (longer: seq<Action>)
    requires Legal(init, acts)
    requires var s := Exec(init, acts); s.toRefill > 0 && s.refunds == [] && s.permits <= s.limit
    ensures Legal(init, longer)
    ensures var s, t := Exec(init, acts), Exec(init, longer);
            && t.toRefill == s.toRefill - 1 && t.limit == s.limit && t.permits == s.permits
            && t.refunds == [s.limit - s.permits]
  {
    longer := Extend(init, acts, PoolRead);
  }

  lemma ReadAgain(s: State) returns (after: seq<Action>)
    requires s.toRefill > 0 && s.permits <= s.limit && s.refunds == [s.limit - s.permits]
    ensures var read := Apply(s, PoolRead);
            Legal(read, after) && Exec(read, after).permits == s.limit + (s.limit - s.permits)
  {
    var missing := s.limit - s.permits;
    SumAppend([], missing);
    SumAppend([missing], missing);
    after := GiveAllBack(Apply(s, PoolRead), []);
  }

  // ---------- the guard of handlePublish ----------

  /** A publisher outside handlePublish can get past the guard while a refill is owed, without another renumbering. */
  ghost predicate GuardLeaks(s: State) {
    exists acts :: Feasible(s, acts) && ChannelReset !in acts
                   && Exec(s, acts).toRefill > 0 && Exec(s, acts).publisher.Waiting?
  }

  /** It can at all, without another renumbering. */
  ghost predicate GuardOpens(s: State) {
    exists acts :: Feasible(s, acts) && ChannelReset !in acts && Exec(s, acts).publisher.Waiting?
  }

  /** Some handler is on its way to lowering the flag, or it is down. */
  predicate FlagComesDown(s: State) {
    !s.recovering || s.toLower > 0 || s.refunds != []
  }

  /**
   * The guard keeps the publisher out until the refill exactly when the flag is up and no
   * other handler is there to lower it: with two overlapping recoveries, the first one's
   * handler lowers the flag that the second one needs. And it keeps the publisher out for
   * ever when the pool holds more than the limit: every refill then ends in an exception.
   */
  lemma GuardExact(s: State)
    requires s.publisher.Idle?
    ensures s.toRefill > 0 ==> (GuardLeaks(s) <==> FlagComesDown(s) || (s.toRefill > 1 && s.permits <= s.limit))
    ensures GuardOpens(s) <==> FlagComesDown(s) || (s.toRefill > 0 && s.permits <= s.limit)
  {
    if FlagComesDown(s) || (s.toRefill > 0 && s.permits <= s.limit) {
      var acts := SlipPast(s);
    } else {
      forall acts | Feasible(s, acts) && ChannelReset !in acts ensures !Exec(s, acts).publisher.Waiting? {
        GuardJammed(s, acts);
      }
    }
    if !FlagComesDown(s) && !(s.toRefill > 1 && s.permits <= s.limit) {
      forall acts | Feasible(s, acts) && ChannelReset !in acts && Exec(s, acts).toRefill > 0
        ensures !Exec(s, acts).publisher.Waiting?
      {
        GuardKeepsOut(s, acts);
      }
    }
  }

  /** While a refill is owed, the publisher is out, and no handler will lower the flag. */
  predicate KeptOut(s: State) {
    s.toRefill > 0 ==> !FlagComesDown(s) && s.publisher.Idle? && (s.toRefill == 1 || s.permits > s.limit)
  }

  lemma KeptOutStep(s: State, a: Action)
    requires KeptOut(s) && Enabled(s, a) && !a.ChannelReset?
    ensures KeptOut(Apply(s, a))
  {
  }

  lemma {:induction false} GuardKeepsOut(s: State, acts: seq<Action>)
    requires KeptOut(s) && Feasible(s, acts) && ChannelReset !in acts
    ensures KeptOut(Exec(s, acts))
    decreases |acts|
  {
    if acts != [] {
      KeptOutStep(s, acts[0]);
      GuardKeepsOut(Apply(s, acts[0]), acts[1..]);
    }
  }

  /** The publisher is out, no handler will lower the flag, and every refill still owed will throw. */
  predicate Jammed(s: State) {
    !FlagComesDown(s) && s.publisher.Idle? && (s.toRefill == 0 || s.permits > s.limit)
  }

  lemma JammedStep(s: State, a: Action)
    requires Jammed(s) && Enabled(s, a) && !a.ChannelReset?
    ensures Jammed(Apply(s, a))
  {
  }

  lemma {:induction false} GuardJammed(s: State, acts: seq<Action>)
    requires Jammed(s) && Feasible(s, acts) && ChannelReset !in acts
    ensures Jammed(Exec(s, acts))
    decreases |acts|
  {
    if acts != [] {
      JammedStep(s, acts[0]);
      GuardJammed(Apply(s, acts[0]), acts[1..]);
    }
  }

  lemma SlipPast(s: State) returns (acts: seq<Action>)
    requires s.publisher.Idle?
    requires FlagComesDown(s) || (s.toRefill > 0 && s.permits <= s.limit)
    ensures Feasible(s, acts) && ChannelReset !in acts && Exec(s, acts).publisher.Waiting?
    ensures Exec(s, acts).toRefill == if FlagComesDown(s) then s.toRefill else s.toRefill - 1
  {
    acts := [];
    if s.recovering {
      if s.toLower == 0 && s.refunds != [] {
        acts := Extend(s, acts, PoolRelease(0));
      } else if s.toLower == 0 {
        acts := Refill(s, acts);
      }
      acts := Extend(s, acts, FlagOff);
    }
    acts := Extend(s, acts, Guard);
    LegalIsFeasible(s, acts);
  }

  lemma {:induction false} LegalIsFeasible(s: State, acts: seq<Action>)
    requires Legal(s, acts)
    ensures Feasible(s, acts)
    decreases |acts|
  {
    if acts != [] {
      LegalIsFeasible(Apply(s, acts[0]), acts[1..]);
    }
  }

  /** So it happens: the flag lowered late, and two confirms owed in a window of one. */
  lemma FlagLoweredLate(init: State)
      returns (before: seq<Action>, after: seq<Action>)
    requires Init(init) && init.limit == 1 && init.recoveryEnabled
    ensures Legal(init, before) && Enabled(Exec(init, before), Acquire)
    ensures !Contract(Exec(init, before), Acquire)
    ensures var acquired := Apply(Exec(init, before), Acquire);
            Legal(acquired, after) && |Exec(acquired, after).owed| == 2
  {
    before := LoseLink(init, []);
    before := Extend(init, before, ChannelReset);
    before := Refill(init, before);
    before := LoseLink(init, before);
    before := Extend(init, before, ChannelReset);
    before := Extend(init, before, FlagOff);
    before := Extend(init, before, Guard);
    after := FirstAfterReset(Apply(Exec(init, before), Acquire));
  }

  /** The excess permit of RecoveryDuringConfirm jams the producer at the next, well placed, recovery. */
  lemma ExcessJamsTheProducer(init: State)
      returns (before: seq<Action>, after: seq<Action>)
    requires Init(init) && init.limit == 1 && init.recoveryEnabled
    ensures Legal(init, before) && Enabled(Exec(init, before), ChannelReset)
    ensures !Contract(Exec(init, before), ChannelReset)
    ensures var reset := Apply(Exec(init, before), ChannelReset);
            Legal(reset, after) && Exec(reset, after).link.Up? && !GuardOpens(Exec(reset, after))
  {
    before := AckInItsLoop(init);
    before := LoseLink(init, before);
    var reset := Apply(Exec(init, before), ChannelReset);
    after := ReleaseAcross(reset);
    after := Extend(reset, after, FlagOff);
    after := LoseLink(reset, after);
    after := Extend(reset, after, ChannelReset);
    GuardExact(Exec(reset, after));
  }
}
