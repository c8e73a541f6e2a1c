/** Re-subscribing a recovered consumer whose queue may be on a node that is down. */
module Resubscription {

  /** The answer of a queue existence check; a check can also throw. */
  datatype Answer = Exists | Missing | Throws

  const PERIOD_SECONDS: nat := 5
  const MAX_RETRY: nat := 600 / PERIOD_SECONDS

  /** What the scheduler sees of the chain: a task handed to it, or one that it runs. */
  datatype Event = Scheduled(delaySeconds: nat) | Started

  datatype Outcome = Outcome(subscriptions: nat, runs: nat, retries: nat, events: seq<Event>)

  /** Tasks handed over in the first `n` events and not started yet. */
  function Pending(events: seq<Event>, n: nat): int
    requires n <= |events|
  {
    if n == 0 then 0 else Pending(events, n - 1) + if events[n - 1].Scheduled? then 1 else -1
  }

  lemma {:induction false} PendingPrefix(events: seq<Event>, more: seq<Event>, n: nat)
    requires n <= |events|
    ensures Pending(events + more, n) == Pending(events, n)
  {
    if n > 0 {
      PendingPrefix(events, more, n - 1);
    }
  }

  /** Every task is scheduled five seconds ahead, and there is one pending task at most, at every moment. */
  ghost predicate OneAtATime(events: seq<Event>) {
    && (forall n :: 0 <= n <= |events| ==> 0 <= Pending(events, n) <= 1)
    && (forall e :: e in events && e.Scheduled? ==> e.delaySeconds == 5)
  }

  lemma AnotherEvent(events: seq<Event>, e: Event)
    requires OneAtATime(events) && (e.Scheduled? ==> e.delaySeconds == 5)
    requires Pending(events, |events|) == if e.Scheduled? then 0 else 1
    ensures OneAtATime(events + [e])
    ensures Pending(events + [e], |events| + 1) == if e.Scheduled? then 1 else 0
  {
    forall n | 0 <= n <= |events| ensures Pending(events + [e], n) == Pending(events, n) {
      PendingPrefix(events, [e], n);
    }
  }

  /** The scheduled task number `i` ends the chain. */
  predicate Ends(answers: nat -> Answer, i: nat) {
    !answers(i).Missing? || i == MAX_RETRY
  }

  /** The chain runs up to its first ending task, and subscribes if that task finds the queue. */
  ghost predicate UpToFirstEnd(answers: nat -> Answer, subscriptions: nat, runs: nat, retries: nat) {
    && runs > 0 && Ends(answers, runs - 1)
    && (forall i :: 0 <= i < runs - 1 ==> !Ends(answers, i))
    && subscriptions == (if answers(runs - 1).Exists? then 1 else 0)
    && retries == (if answers(runs - 1).Missing? then runs else runs - 1)
  }

  /** A check every five seconds for ten minutes, and one more: 121 tasks at most. */
  lemma TenMinutes(answers: nat -> Answer, r: Outcome)
    requires UpToFirstEnd(answers, r.subscriptions, r.runs, r.retries)
    ensures forall i: nat :: i < 121 && !answers(i).Missing? && (forall j: nat :: j < i ==> answers(j).Missing?) ==>
              r.runs == i + 1 && (r.subscriptions == 1 <==> answers(i).Exists?)
    ensures (forall i: nat :: i < 121 ==> answers(i).Missing?) ==> r.runs == 121 && r.subscriptions == 0
  {
    var last: nat := r.runs - 1;
    forall i: nat | i < 121 && !answers(i).Missing? && (forall j: nat :: j < i ==> answers(j).Missing?)
      ensures r.runs == i + 1
    {
      assert Ends(answers, i);
      assert last < i ==> answers(last).Missing?;
    }
    assert Ends(answers, 120);
  }

  /** The chain of scheduled tasks: `answers(i)` is the check made by task number `i`. */
  method RunChain(answers: nat -> Answer) returns (r: Outcome)
    ensures r.runs <= MAX_RETRY + 1 && |r.events| == 2 * r.runs
    ensures OneAtATime(r.events) && Pending(r.events, |r.events|) == 0
    ensures UpToFirstEnd(answers, r.subscriptions, r.runs, r.retries)
  {
    var retryCount, runs, subscriptions: nat := 0, 0, 0;
    var pending := 1;
    var events: seq<Event> := [];
    AnotherEvent(events, Scheduled(PERIOD_SECONDS));
    events := events + [Scheduled(PERIOD_SECONDS)];
    while pending > 0
      invariant 0 <= pending <= 1 && |events| == 2 * runs + pending
      invariant OneAtATime(events) && Pending(events, |events|) == pending
      invariant runs <= MAX_RETRY + 1
      invariant if pending == 0 then UpToFirstEnd(answers, subscriptions, runs, retryCount)
                else subscriptions == 0 && retryCount == runs <= MAX_RETRY
                     && forall i :: 0 <= i < runs ==> !Ends(answers, i)
      decreases MAX_RETRY + 1 - runs, pending
    {
      AnotherEvent(events, Started);
      pending, events := pending - 1, events + [Started];
      var answer := answers(runs);
      runs := runs + 1;
      if answer.Exists? {
        subscriptions := subscriptions + 1;
      } else if answer.Missing? {
        retryCount := retryCount + 1;
        if retryCount <= MAX_RETRY {
          AnotherEvent(events, Scheduled(PERIOD_SECONDS));
          pending, events := pending + 1, events + [Scheduled(PERIOD_SECONDS)];
        }
      }
    }
    r := Outcome(subscriptions, runs, retryCount, events);
  }

  /**
   * consumeOrScheduleConsume with its chain of scheduled tasks: `first` is the check made
   * at once. The chain runs up to the first task that does not miss the queue, or for ten
   * minutes, with one task pending at most and none at the end, and subscribes only if that
   * task finds the queue.
   */
  method ConsumeOrScheduleConsume(mayBeDown: bool, first: Answer, answers: nat -> Answer)
      returns (r: Outcome)
    ensures r.runs <= 121 && r.subscriptions <= 1
    ensures OneAtATime(r.events) && Pending(r.events, |r.events|) == 0 && |r.events| == 2 * r.runs
    ensures r.runs > 0 <==> mayBeDown && first.Missing?
    ensures r.runs == 0 ==> (r.subscriptions == 1 <==> !first.Throws?)
    ensures mayBeDown && first.Missing? ==>
              && (forall i: nat :: i < 121 && !answers(i).Missing? && (forall j: nat :: j < i ==> answers(j).Missing?) ==>
                    r.runs == i + 1 && (r.subscriptions == 1 <==> answers(i).Exists?))
              && ((forall i: nat :: i < 121 ==> answers(i).Missing?) ==> r.runs == 121 && r.subscriptions == 0)
  {
    if first.Throws? {
      return Outcome(0, 0, 0, []);
    }
    if !mayBeDown || first.Exists? {
      return Outcome(1, 0, 0, []);
    }
    r := RunChain(answers);
    TenMinutes(answers, r);
  }
}
