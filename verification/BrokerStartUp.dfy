/** Waiting at start-up until enough brokers answer. */
module BrokerStartUp {

  /** The order in which connection attempts succeed: `answers(i)` is attempt number `i` of the call. */
  function Successes(answers: nat -> bool, n: nat): (k: nat)
    ensures k <= n
  {
    if n == 0 then 0 else Successes(answers, n - 1) + if answers(n - 1) then 1 else 0
  }

  /** Attempt number `n`, counted from 1, is the success that makes up the limit. */
  predicate Reaches(answers: nat -> bool, n: nat, limit: int) {
    n > 0 && answers(n - 1) && Successes(answers, n) == limit
  }

  /** After `n` attempts the limit is not made up. A limit that is not positive never is. */
  predicate TooFew(answers: nat -> bool, n: nat, limit: int) {
    limit <= 0 || Successes(answers, n) < limit
  }

  /** How many of the first `n` attempts succeed. */
  lemma {:induction false} SuccessesAre(answers: nat -> bool, n: nat)
    ensures Successes(answers, n) == |set i: nat | i < n && answers(i)|
  {
    var now := set i: nat | i < n && answers(i);
    if n == 0 {
      assert now == {};
    } else {
      SuccessesAre(answers, n - 1);
      var before := set i: nat | i < n - 1 && answers(i);
      assert now == before + if answers(n - 1) then {n - 1} else {};
    }
  }

  /** The limit is made up by one attempt: it was not before it, and no other attempt makes it up. */
  lemma {:induction false} ReachedOnce(answers: nat -> bool, n: nat, m: nat, limit: int)
    requires Reaches(answers, n, limit)
    ensures TooFew(answers, m, limit) <==> m < n
    ensures Reaches(answers, m, limit) ==> m == n
  {
    if m < n {
      SuccessesGrow(answers, m, n - 1);
    } else {
      SuccessesGrow(answers, n, m);
      if m > n {
        SuccessesGrow(answers, n, m - 1);
      }
    }
  }

  lemma {:induction false} SuccessesGrow(answers: nat -> bool, m: nat, n: nat)
    requires m <= n
    ensures Successes(answers, m) <= Successes(answers, n)
  {
    if m < n {
      SuccessesGrow(answers, m, n - 1);
    }
  }

  /** Of the first `k` uris, tried in order from attempt number `from` on, the ones that answered. */
  function Answering(us: seq<string>, answers: nat -> bool, from: nat, k: nat): (r: seq<string>)
    requires k <= |us|
  {
    if k == 0 then []
    else Answering(us, answers, from, k - 1) + if answers(from + k - 1) then [us[k - 1]] else []
  }

  /** And the ones that did not. */
  function Silent(us: seq<string>, answers: nat -> bool, from: nat, k: nat): (r: seq<string>)
    requires k <= |us|
  {
    if k == 0 then []
    else Silent(us, answers, from, k - 1) + if answers(from + k - 1) then [] else [us[k - 1]]
  }

  datatype Progress = Progress(tested: seq<string>, connected: seq<string>, attempts: nat)

  /** A whole round; the uris that stay silent are tried again in the next one, in the same order. */
  function Round(p: Progress, answers: nat -> bool): (q: Progress) {
    Progress(Silent(p.tested, answers, p.attempts, |p.tested|),
             p.connected + Answering(p.tested, answers, p.attempts, |p.tested|),
             p.attempts + |p.tested|)
  }

  /** Where `r` whole rounds lead. */
  function AfterRounds(us: seq<string>, answers: nat -> bool, r: nat): (p: Progress) {
    if r == 0 then Progress(us, [], 0) else Round(AfterRounds(us, answers, r - 1), answers)
  }

  lemma {:induction false} AnsweringCounts(us: seq<string>, answers: nat -> bool, from: nat, k: nat)
    requires k <= |us|
    ensures |Answering(us, answers, from, k)| == Successes(answers, from + k) - Successes(answers, from)
  {
    if k > 0 {
      AnsweringCounts(us, answers, from, k - 1);
    }
  }

  /** The uris of `whole` are those of `s` and those of `a`, in some order. */
  ghost predicate Split(s: seq<string>, a: seq<string>, whole: seq<string>) {
    multiset(s) + multiset(a) == multiset(whole)
  }

  lemma SplitAdd(s: seq<string>, a: seq<string>, whole: seq<string>, x: string)
    requires Split(s, a, whole)
    ensures Split(s + [x], a, whole + [x])
    ensures Split(s, a + [x], whole + [x])
  {
  }

  lemma NextInPass(us: seq<string>, answers: nat -> bool, from: nat, k: nat)
    requires 0 < k <= |us|
    ensures us[..k] == us[..k - 1] + [us[k - 1]]
    ensures var s, a := Silent(us, answers, from, k - 1), Answering(us, answers, from, k - 1);
            if answers(from + k - 1)
            then Silent(us, answers, from, k) == s && Answering(us, answers, from, k) == a + [us[k - 1]]
            else Silent(us, answers, from, k) == s + [us[k - 1]] && Answering(us, answers, from, k) == a
  {
  }

  lemma {:induction false} PassPartitions(us: seq<string>, answers: nat -> bool, from: nat, k: nat)
    requires k <= |us|
    ensures Split(Silent(us, answers, from, k), Answering(us, answers, from, k), us[..k])
  {
    if k == 0 {
      assert us[..k] == [];
    } else {
      PassPartitions(us, answers, from, k - 1);
      NextInPass(us, answers, from, k);
      SplitAdd(Silent(us, answers, from, k - 1), Answering(us, answers, from, k - 1), us[..k - 1], us[k - 1]);
    }
  }

  lemma {:induction false} RoundsCount(us: seq<string>, answers: nat -> bool, r: nat)
    ensures var p := AfterRounds(us, answers, r); |p.connected| == Successes(answers, p.attempts)
  {
    if r > 0 {
      RoundsCount(us, answers, r - 1);
      var p := AfterRounds(us, answers, r - 1);
      AnsweringCounts(p.tested, answers, p.attempts, |p.tested|);
    }
  }

  lemma SplitMore(s: seq<string>, a: seq<string>, tested: seq<string>, connected: seq<string>, us: seq<string>)
    requires Split(s, a, tested) && Split(tested, connected, us)
    ensures Split(s, connected + a, us)
  {
  }

  /** The uri of attempt `i` of a pass is among the answering ones, after those that answered before it, or the silent ones. */
  lemma {:induction false} AttemptShows(us: seq<string>, answers: nat -> bool, from: nat, k: nat, i: nat)
    requires i < k <= |us|
    ensures var before := Successes(answers, from + i) - Successes(answers, from);
            if answers(from + i)
            then 0 <= before < |Answering(us, answers, from, k)| && Answering(us, answers, from, k)[before] == us[i]
            else 0 <= i - before < |Silent(us, answers, from, k)| && Silent(us, answers, from, k)[i - before] == us[i]
  {
    AnsweringCounts(us, answers, from, k - 1);
    SilentCounts(us, answers, from, k - 1);
    if i < k - 1 {
      AttemptShows(us, answers, from, k - 1, i);
    }
  }

  lemma {:induction false} SilentCounts(us: seq<string>, answers: nat -> bool, from: nat, k: nat)
    requires k <= |us|
    ensures |Silent(us, answers, from, k)| == k - (Successes(answers, from + k) - Successes(answers, from))
  {
    if k > 0 {
      SilentCounts(us, answers, from, k - 1);
    }
  }

  /** Every uri is either still to be tested or connected to. */
  ghost predicate Partitions(p: Progress, us: seq<string>) {
    Split(p.tested, p.connected, us)
  }

  lemma RoundPartitions(p: Progress, answers: nat -> bool, us: seq<string>)
    requires Partitions(p, us)
    ensures Partitions(Round(p, answers), us)
  {
    PassPartitions(p.tested, answers, p.attempts, |p.tested|);
    assert p.tested[..|p.tested|] == p.tested;
    SplitMore(Silent(p.tested, answers, p.attempts, |p.tested|), Answering(p.tested, answers, p.attempts, |p.tested|),
              p.tested, p.connected, us);
  }

  /** Over whole rounds, the uris still to be tested and those connected to are the original ones, in some order. */
  lemma {:induction false} RoundsPartition(us: seq<string>, answers: nat -> bool, r: nat)
    ensures Partitions(AfterRounds(us, answers, r), us)
  {
    if r == 0 {
      assert AfterRounds(us, answers, r) == Progress(us, [], 0);
    } else {
      RoundsPartition(us, answers, r - 1);
      RoundPartitions(AfterRounds(us, answers, r - 1), answers, us);
    }
  }

  /** A pass on its way: `next` is the iterator's place in `tested`. */
  datatype Pass = Pass(tested: seq<string>, next: nat, connected: seq<string>)

  /** The list without its element at `i`. */
  function Remove(s: seq<string>, i: nat): (r: seq<string>)
    requires i < |s|
    ensures |r| == |s| - 1
  {
    if i == 0 then s[1..] else [s[0]] + Remove(s[1..], i - 1)
  }

  lemma {:induction false} RemoveMiddle(before: seq<string>, x: string, after: seq<string>)
    ensures Remove(before + ([x] + after), |before|) == before + after
  {
    var s := before + ([x] + after);
    if before == [] {
      assert s == [x] + after;
    } else {
      assert s[1..] == before[1..] + ([x] + after);
      RemoveMiddle(before[1..], x, after);
    }
  }

  /** One attempt. */
  function Try(p: Pass, answered: bool): (q: Pass) {
    if p.next >= |p.tested| then p
    else if answered then
      Pass(Remove(p.tested, p.next), p.next, p.connected + [p.tested[p.next]])
    else p.(next := p.next + 1)
  }

  function PassAfter(us: seq<string>, before: seq<string>, answers: nat -> bool, from: nat, k: nat): (p: Pass) {
    if k == 0 then Pass(us, 0, before)
    else Try(PassAfter(us, before, answers, from, k - 1), answers(from + k - 1))
  }

  /** A pass in which `k` uris have been tried holds the silent ones, the ones to come, and the ones that answered. */
  ghost predicate InPass(p: Pass, silent: seq<string>, rest: seq<string>, before: seq<string>, answering: seq<string>) {
    p == Pass(silent + rest, |silent|, before + answering)
  }

  lemma TryInPass(p: Pass, silent: seq<string>, x: string, rest: seq<string>, before: seq<string>, answering: seq<string>)
    requires InPass(p, silent, [x] + rest, before, answering)
    ensures InPass(Try(p, true), silent, rest, before, answering + [x])
    ensures InPass(Try(p, false), silent + [x], rest, before, answering)
  {
    assert p.tested[|silent|] == x;
    RemoveMiddle(silent, x, rest);
    assert p.tested == (silent + [x]) + rest;
    assert (before + answering) + [x] == before + (answering + [x]);
  }

  lemma {:induction false} PassHolds(us: seq<string>, before: seq<string>, answers: nat -> bool, from: nat, k: nat)
    requires k <= |us|
    ensures InPass(PassAfter(us, before, answers, from, k),
                   Silent(us, answers, from, k), us[k..], before, Answering(us, answers, from, k))
  {
    if k == 0 {
      assert us[0..] == us;
    } else {
      PassHolds(us, before, answers, from, k - 1);
      assert us[k - 1..] == [us[k - 1]] + us[k..];
      TryInPass(PassAfter(us, before, answers, from, k - 1), Silent(us, answers, from, k - 1), us[k - 1], us[k..],
                before, Answering(us, answers, from, k - 1));
      NextInPass(us, answers, from, k);
    }
  }

  /** How far a pass has come, and how many are connected to. */
  lemma PassCounts(us: seq<string>, before: seq<string>, answers: nat -> bool, from: nat, k: nat)
    requires k <= |us| && |before| == Successes(answers, from)
    ensures var p := PassAfter(us, before, answers, from, k);
            |p.tested| - p.next == |us| - k && |p.connected| == Successes(answers, from + k)
  {
    PassHolds(us, before, answers, from, k);
    AnsweringCounts(us, answers, from, k);
  }

  /** The lists when the iterator has come to its end, and the ones connected to whenever. */
  lemma PassResult(us: seq<string>, before: seq<string>, answers: nat -> bool, from: nat, k: nat)
    requires k <= |us|
    ensures var p := PassAfter(us, before, answers, from, k);
            && p.connected == before + Answering(us, answers, from, k)
            && (k == |us| ==> p.tested == Silent(us, answers, from, k))
  {
    PassHolds(us, before, answers, from, k);
  }

  class Uris {
    var list: seq<string>

    constructor (list: seq<string>)
      ensures this.list == list
    {
      this.list := list;
    }
  }

  /**
   * One pass of the iterator over `tested`: each uri is tried once; one that answers moves
   * to `connected`, and the pass stops at the success that makes up the limit.
   */
  method TestOnce(tested0: seq<string>, connected0: seq<string>, limit: int, answers: nat -> bool, attempts0: nat)
      returns (tested: seq<string>, connected: seq<string>, tried: nat, enough: bool)
    requires |connected0| == Successes(answers, attempts0) && TooFew(answers, attempts0, limit)
    ensures tried <= |tested0|
    ensures connected == connected0 + Answering(tested0, answers, attempts0, tried)
    ensures if enough then tried > 0 && Reaches(answers, attempts0 + tried, limit)
            else TooFew(answers, attempts0 + tried, limit)
    ensures !enough ==> tried == |tested0| && tested == Silent(tested0, answers, attempts0, tried)
  {
    var pass;
    pass, tried, enough := Iterate(tested0, connected0, limit, answers, attempts0);
    PassResult(tested0, connected0, answers, attempts0, tried);
    tested, connected := pass.tested, pass.connected;
  }

  /** The loop of the pass, in its own terms. */
  method Iterate(tested0: seq<string>, connected0: seq<string>, limit: int, answers: nat -> bool, attempts0: nat)
      returns (pass: Pass, tried: nat, enough: bool)
    requires |connected0| == Successes(answers, attempts0) && TooFew(answers, attempts0, limit)
    ensures tried <= |tested0|
    ensures pass.connected == PassAfter(tested0, connected0, answers, attempts0, tried).connected
    ensures !enough ==> tried == |tested0| && pass == PassAfter(tested0, connected0, answers, attempts0, tried)
    ensures if enough then tried > 0 && Reaches(answers, attempts0 + tried, limit)
            else TooFew(answers, attempts0 + tried, limit)
  {
    pass, tried, enough := Pass(tested0, 0, connected0), 0, false;
    while pass.next < |pass.tested|
      invariant tried <= |tested0|
      invariant pass == PassAfter(tested0, connected0, answers, attempts0, tried)
      invariant TooFew(answers, attempts0 + tried, limit)
      decreases |tested0| - tried
    {
      PassCounts(tested0, connected0, answers, attempts0, tried);
      pass, enough := TestUri(pass, limit, answers(attempts0 + tried));
      tried := tried + 1;
      if enough {
        return;
      }
    }
    PassCounts(tested0, connected0, answers, attempts0, tried);
    enough := false;
  }

  /** One step of the iterator, and whether it made up the limit. */
  method TestUri(before: Pass, limit: int, answered: bool) returns (after: Pass, enough: bool)
    requires before.next < |before.tested|
    ensures after.connected == Try(before, answered).connected
    ensures |after.connected| == |before.connected| + if answered then 1 else 0
    ensures enough <==> answered && |after.connected| == limit
    ensures !enough ==> after == Try(before, answered)
  {
    var tested, next, connected := before.tested, before.next, before.connected;
    var uri := tested[next];
    if answered {
      connected := connected + [uri];
      if |connected| == limit {
        return Pass(tested, next, connected), true;
      }
      tested := Remove(tested, next);
    } else {
      next := next + 1;
    }
    after, enough := Pass(tested, next, connected), false;
  }

  /**
   * waitUntilBrokerAvailableIfNecessary. `clock(r)` is the time read before round `r`; the
   * sleep makes it advance by a second at least. When there is something to test, true
   * means that one attempt, the last one, made up the limit, and the uris are cut down to
   * the ones that answered, in the order they did; false means that none did before the
   * timeout, and leaves them.
   */
  method WaitUntilBrokerAvailable(timeout: int, serversUpLimit: int, uris: Uris, answers: nat -> bool,
                                  started: int, clock: nat -> int)
      returns (available: bool, rounds: nat, tried: nat)
    requires clock(0) >= started && forall r: nat :: clock(r + 1) >= clock(r) + 1_000_000_000
    modifies uris
    ensures rounds <= if timeout > 0 then timeout else 0
    ensures timeout <= 0 || old(uris.list) == [] ==> available && uris.list == old(uris.list)
    ensures timeout > 0 && old(uris.list) != [] ==>
              var p := AfterRounds(old(uris.list), answers, rounds);
              && tried <= |p.tested|
              && (available <==> tried > 0)
              && (if available then Reaches(answers, p.attempts + tried, serversUpLimit)
                  else TooFew(answers, p.attempts, serversUpLimit))
              && (available <==> (clock(rounds) - started) / 1_000_000_000 < timeout)
              && (available ==> uris.list == p.connected + Answering(p.tested, answers, p.attempts, tried))
    ensures !available ==> uris.list == old(uris.list)
  {
    rounds, tried := 0, 0;
    if timeout <= 0 || uris.list == [] {
      return true, 0, 0;
    }
    var progress := Progress(uris.list, [], 0);
    while (clock(rounds) - started) / 1_000_000_000 < timeout
      invariant uris.list == old(uris.list)
      invariant clock(rounds) - started >= rounds * 1_000_000_000
      invariant 0 <= rounds <= timeout
      invariant progress == AfterRounds(uris.list, answers, rounds)
      invariant TooFew(answers, progress.attempts, serversUpLimit)
      decreases timeout - rounds
    {
      var enough, next;
      RoundsCount(uris.list, answers, rounds);
      next, tried, enough := TestRound(progress, serversUpLimit, answers);
      if enough {
        uris.list := next.connected;
        return true, rounds, tried;
      }
      progress, rounds := next, rounds + 1;
    }
    available, tried := false, 0;
  }

  /** One round: a pass over the uris still to be tested. */
  method TestRound(p: Progress, limit: int, answers: nat -> bool) returns (next: Progress, tried: nat, enough: bool)
    requires |p.connected| == Successes(answers, p.attempts) && TooFew(answers, p.attempts, limit)
    ensures tried <= |p.tested|
    ensures enough ==>
              && tried > 0 && Reaches(answers, p.attempts + tried, limit)
              && next.connected == p.connected + Answering(p.tested, answers, p.attempts, tried)
    ensures !enough ==> next == Round(p, answers) && TooFew(answers, next.attempts, limit)
  {
    var tested, connected;
    tested, connected, tried, enough := TestOnce(p.tested, p.connected, limit, answers, p.attempts);
    next := Progress(tested, connected, p.attempts + tried);
  }

  /** On success the uris are as many as asked for, and all of them original ones. */
  lemma CutDownUris(us: seq<string>, answers: nat -> bool, rounds: nat, tried: nat, limit: int)
    requires tried <= |AfterRounds(us, answers, rounds).tested|
    requires Reaches(answers, AfterRounds(us, answers, rounds).attempts + tried, limit)
    ensures var p := AfterRounds(us, answers, rounds);
            var kept := p.connected + Answering(p.tested, answers, p.attempts, tried);
            |kept| == limit && multiset(kept) <= multiset(us)
  {
    var p := AfterRounds(us, answers, rounds);
    RoundsPartition(us, answers, rounds);
    RoundsCount(us, answers, rounds);
    AnsweringCounts(p.tested, answers, p.attempts, tried);
    PassPartitions(p.tested, answers, p.attempts, tried);
    assert p.tested == p.tested[..tried] + p.tested[tried..];
    assert multiset(p.tested[..tried]) <= multiset(p.tested);
  }
}
