/** How a run ends: agents count down a latch and leave their reasons. */
module Completion {
  import opened Arithmetic

  // ---------- the handler ----------

  const TIME_LIMIT_REASON := "Reached time limit"

  /** DefaultCompletionHandler. The reason counts of the source's map are multiplicities here. */
  class DefaultCompletionHandler {
    const timeLimit: int
    var latch: nat
    var reasons: multiset<string>
    var completed: bool

    constructor (timeLimit: int, countLimit: int)
      ensures this.timeLimit == timeLimit && !completed && reasons == multiset{}
      ensures latch == if countLimit > 1 then countLimit else 1
      ensures forall agents :: Matches(Start(timeLimit, latch, agents))
    {
      this.timeLimit := timeLimit;
      latch := LatchCount(countLimit);
      reasons, completed := multiset{}, false;
    }

    /** The handler's fields are those of a state of the step system below. */
    ghost predicate Matches(s: State)
      reads this
    {
      s.timeLimit == timeLimit && s.latch == latch && s.reasons == reasons && s.completed == completed
    }

    /** countDown without interruption: check, record, drop; or the check alone once the run is over. */
    method CountDown(reason: string, ghost s: State, ghost agent: nat)
      requires Matches(s) && agent < |s.agents| && s.agents[agent] == Flagged(reason)
      modifies this`latch, this`reasons
      ensures completed ==> Matches(Apply(s, Check(agent))) && reasons == old(reasons)
      ensures !completed ==> Matches(Apply(Apply(Apply(s, Check(agent)), Record(agent)), Drop(agent)))
    {
      if !completed {
        reasons := reasons + multiset{reason};
        if latch > 0 {
          latch := latch - 1;
        }
      }
    }

    /** The end of waitForCompletion: `countedDown` is what the await of the latch returned. */
    method FinishWaiting(countedDown: bool, ghost s: State)
      requires Matches(s) && s.waiter == if countedDown then Passed else TimedOut
      requires timeLimit <= 0 ==> countedDown
      modifies this`completed, this`reasons
      ensures countedDown ==> Matches(Apply(s, Complete))
      ensures !countedDown ==> Matches(Apply(Apply(s, Complete), Note))
      ensures completed
      ensures reasons == if countedDown then old(reasons) else old(reasons) + multiset{"Reached time limit"}
    {
      completed := true;
      if timeLimit > 0 && !countedDown {
        reasons := reasons + multiset{TIME_LIMIT_REASON};
      }
    }
  }

  function LatchCount(countLimit: int): (n: nat) {
    if countLimit <= 0 then 1 else countLimit
  }

  /** The state of the step system below when a handler has been made and its agents are running. */
  function Start(timeLimit: int, latch: nat, agents: seq<Agent>): State {
    State(latch, timeLimit, latch, multiset{}, false, agents, Waiting)
  }

  // ---------- the choice of the handler ----------

  datatype Params = Params(
    timeLimit: int,
    producerMsgCount: int,
    consumerMsgCount: int,
    exitWhenEmptyOrIdle: bool,
    producers: nat,
    consumers: nat)

  predicate HasLimit(p: Params) {
    p.timeLimit > 0 || p.consumerMsgCount > 0 || p.producerMsgCount > 0 || p.exitWhenEmptyOrIdle
  }

  /** The agents that stop by themselves. */
  function LimitedAgents(p: Params): set<nat> {
    set a | 0 <= a < p.producers + p.consumers && MustCountDown(p, a)
  }

  /** getCompletionHandler: none, of this kind, when the run has no limit; else one that waits for the agents with a limit. */
  method GetCompletionHandler(p: Params) returns (limited: bool, handler: DefaultCompletionHandler?)
    ensures limited <==> p.timeLimit > 0 || p.producerMsgCount > 0 || p.consumerMsgCount > 0 || p.exitWhenEmptyOrIdle
    ensures limited <==> handler != null
    ensures handler != null ==>
              && fresh(handler) && handler.timeLimit == p.timeLimit
              && forall agents :: handler.Matches(Start(p.timeLimit, Max(1, |LimitedAgents(p)|), agents))
  {
    var countLimit;
    limited, countLimit := ChooseLimits(p);
    handler := null;
    if limited {
      handler := new DefaultCompletionHandler(p.timeLimit, countLimit);
    }
  }

  method ChooseLimits(p: Params) returns (limited: bool, countLimit: nat)
    ensures limited <==> HasLimit(p)
    ensures limited ==> countLimit == |LimitedAgents(p)|
  {
    limited, countLimit := HasLimit(p), 0;
    CountLimited(p);
    if limited {
      if p.producerMsgCount > 0 {
        countLimit := countLimit + p.producers;
      }
      if p.consumerMsgCount > 0 || p.exitWhenEmptyOrIdle {
        countLimit := countLimit + p.consumers;
      }
    }
  }

  /** Agents are numbered producers first. The ones with a limit of their own stop by themselves. */
  predicate MustCountDown(p: Params, a: nat) {
    if a < p.producers then p.producerMsgCount > 0 else p.consumerMsgCount > 0 || p.exitWhenEmptyOrIdle
  }

  function Range(low: nat, high: nat): (r: set<nat>)
    ensures forall a :: a in r <==> low <= a < high
    ensures |r| == if low <= high then high - low else 0
    decreases high
  {
    if high <= low then {} else Range(low, high - 1) + {high - 1}
  }

  function LimitedProducers(p: Params): set<nat> {
    if p.producerMsgCount > 0 then Range(0, p.producers) else {}
  }

  function LimitedConsumers(p: Params): set<nat> {
    if p.consumerMsgCount > 0 || p.exitWhenEmptyOrIdle then Range(p.producers, p.producers + p.consumers) else {}
  }

  lemma CountLimited(p: Params)
    ensures LimitedAgents(p) == LimitedProducers(p) + LimitedConsumers(p)
    ensures |LimitedProducers(p) + LimitedConsumers(p)| == |LimitedProducers(p)| + |LimitedConsumers(p)|
  {
    assert LimitedProducers(p) !! LimitedConsumers(p);
  }

  // ---------- every interleaving of the inner steps ----------

  /** Where an agent is inside its countDown. The once-only flag is raised when it leaves Running. */
  datatype Agent =
    | Running
    | Flagged(reason: string)   // won the once-only flag
    | Checked(reason: string)   // saw that the run was not over
    | Recorded(reason: string)  // the reason is in
    | Counted(reason: string)   // the latch is down by one
    | Ignored                   // saw that the run was over

  datatype Waiter = Waiting | Passed | TimedOut | Returned(byTime: bool) | Noting

  datatype State = State(
    limit: nat,
    timeLimit: int,
    latch: nat,
    reasons: multiset<string>,
    completed: bool,
    agents: seq<Agent>,
    waiter: Waiter)

  datatype Action =
    | Flag(agent: nat, reason: string)
    | Check(agent: nat)
    | Record(agent: nat)
    | Drop(agent: nat)
    | Pass
    | TimeOut
    | Complete
    | Note

  predicate Enabled(s: State, a: Action) {
    match a
    case Flag(i, _) => i < |s.agents| && s.agents[i].Running?
    case Check(i) => i < |s.agents| && s.agents[i].Flagged?
    case Record(i) => i < |s.agents| && s.agents[i].Checked?
    case Drop(i) => i < |s.agents| && s.agents[i].Recorded?
    case Pass => s.waiter.Waiting? && s.latch == 0
    case TimeOut => s.waiter.Waiting? && s.timeLimit > 0
    case Complete => s.waiter.Passed? || s.waiter.TimedOut?
    case Note => s.waiter.Noting?
  }

  function Apply(s: State, a: Action): State
    requires Enabled(s, a)
  {
    match a
    case Flag(i, reason) => s.(agents := s.agents[i := Flagged(reason)])
    case Check(i) =>
      s.(agents := s.agents[i := if s.completed then Ignored else Checked(s.agents[i].reason)])
    case Record(i) =>
      s.(agents := s.agents[i := Recorded(s.agents[i].reason)],
         reasons := s.reasons + multiset{s.agents[i].reason})
    case Drop(i) =>
      s.(agents := s.agents[i := Counted(s.agents[i].reason)],
         latch := if s.latch > 0 then s.latch - 1 else 0)
    case Pass => s.(waiter := Passed)
    case TimeOut => s.(waiter := TimedOut)
    case Complete =>
      s.(completed := true, waiter := if s.waiter.TimedOut? then Noting else Returned(false))
    case Note => s.(reasons := s.reasons + multiset{TIME_LIMIT_REASON}, waiter := Returned(true))
  }

  predicate Possible(s: State, acts: seq<Action>)
    decreases |acts|
  {
    acts == [] || (Enabled(s, acts[0]) && Possible(Apply(s, acts[0]), acts[1..]))
  }

  function Run(s: State, acts: seq<Action>): State
    requires Possible(s, acts)
    decreases |acts|
  {
    if acts == [] then s else Run(Apply(s, acts[0]), acts[1..])
  }

  predicate Init(s: State) {
    && s.limit >= 1 && s.latch == s.limit && s.reasons == multiset{} && !s.completed
    && s.waiter.Waiting? && forall i :: 0 <= i < |s.agents| ==> s.agents[i].Running?
  }

  // ---------- what the agents have done ----------

  function CountedDown(agents: seq<Agent>): nat {
    if agents == [] then 0
    else CountedDown(agents[..|agents| - 1]) + if agents[|agents| - 1].Counted? then 1 else 0
  }

  function Share(a: Agent): multiset<string> {
    if a.Recorded? || a.Counted? then multiset{a.reason} else multiset{}
  }

  function ReasonsOf(agents: seq<Agent>): multiset<string> {
    if agents == [] then multiset{} else ReasonsOf(agents[..|agents| - 1]) + Share(agents[|agents| - 1])
  }

  lemma {:induction false} ReplaceCount(agents: seq<Agent>, i: nat, a: Agent)
    requires i < |agents|
    ensures CountedDown(agents[i := a]) + (if agents[i].Counted? then 1 else 0)
         == CountedDown(agents) + (if a.Counted? then 1 else 0)
  {
    var n := |agents| - 1;
    if i < n {
      assert agents[i := a][..n] == agents[..n][i := a];
      ReplaceCount(agents[..n], i, a);
    } else {
      assert agents[i := a][..n] == agents[..n];
    }
  }

  lemma Swap(x: multiset<string>, y: multiset<string>, z: multiset<string>)
    ensures x + y + z == x + z + y
  {
  }

  lemma {:induction false} ReplaceReasons(agents: seq<Agent>, i: nat, a: Agent)
    requires i < |agents|
    ensures ReasonsOf(agents[i := a]) + Share(agents[i]) == ReasonsOf(agents) + Share(a)
  {
    var n := |agents| - 1;
    var replaced := agents[i := a];
    var last := Share(agents[n]);
    if i < n {
      assert replaced[..n] == agents[..n][i := a];
      ReplaceReasons(agents[..n], i, a);
      Swap(ReasonsOf(replaced[..n]), last, Share(agents[i]));
      Swap(ReasonsOf(agents[..n]), last, Share(a));
      assert agents[..n][i] == agents[i];
    } else {
      assert replaced[..n] == agents[..n];
      Swap(ReasonsOf(agents[..n]), last, Share(a));
    }
  }

  lemma {:induction false} SameShares(before: seq<Agent>, after: seq<Agent>)
    requires |before| == |after|
    requires forall i :: 0 <= i < |before| ==> Share(before[i]) == Share(after[i])
    ensures ReasonsOf(before) == ReasonsOf(after)
  {
    if before != [] {
      SameShares(before[..|before| - 1], after[..|after| - 1]);
    }
  }

  lemma {:induction false} NobodyYet(agents: seq<Agent>)
    requires forall i :: 0 <= i < |agents| ==> agents[i].Running?
    ensures CountedDown(agents) == 0 && ReasonsOf(agents) == multiset{}
  {
    if agents != [] {
      NobodyYet(agents[..|agents| - 1]);
    }
  }

  lemma {:induction false} CountedHaveReasons(agents: seq<Agent>)
    ensures CountedDown(agents) <= |ReasonsOf(agents)|
  {
    if agents != [] {
      CountedHaveReasons(agents[..|agents| - 1]);
    }
  }

  function TimeNote(s: State): multiset<string> {
    if s.waiter == Returned(true) then multiset{TIME_LIMIT_REASON} else multiset{}
  }

  ghost predicate LatchInv(s: State) {
    var n := CountedDown(s.agents);
    && s.limit >= 1
    && s.latch == (if n < s.limit then s.limit - n else 0)
    && (s.completed <==> s.waiter.Returned? || s.waiter.Noting?)
    && (s.waiter.Passed? || s.waiter == Returned(false) ==> n >= s.limit)
    && (s.waiter.TimedOut? || s.waiter.Noting? || s.waiter == Returned(true) ==> s.timeLimit > 0)
  }

  ghost predicate ReasonInv(s: State) {
    s.reasons == ReasonsOf(s.agents) + TimeNote(s)
  }

  ghost predicate Inv(s: State) {
    LatchInv(s) && ReasonInv(s)
  }

  predicate OfAgent(a: Action, i: nat) {
    a == Check(i) || a == Record(i) || a == Drop(i) || (a.Flag? && a.agent == i)
  }

  lemma AgentKeepsLatch(s: State, i: nat, a: Action)
    requires LatchInv(s) && Enabled(s, a) && OfAgent(a, i)
    ensures LatchInv(Apply(s, a))
  {
    ReplaceCount(s.agents, i, Apply(s, a).agents[i]);
  }

  lemma MoveKeepsReasons(s: State, t: State, i: nat)
    requires ReasonInv(s) && i < |s.agents| == |t.agents|
    requires t.agents == s.agents[i := t.agents[i]] && Share(t.agents[i]) == Share(s.agents[i])
    requires t.reasons == s.reasons && t.waiter == s.waiter
    ensures ReasonInv(t)
  {
    SameShares(s.agents, t.agents);
  }

  lemma AgentMoves(s: State, i: nat, a: Action)
    requires Enabled(s, a) && OfAgent(a, i) && !a.Record?
    ensures var t := Apply(s, a);
            && i < |s.agents| == |t.agents| && t.agents == s.agents[i := t.agents[i]]
            && Share(t.agents[i]) == Share(s.agents[i])
            && t.reasons == s.reasons && t.waiter == s.waiter
  {
  }

  lemma RecordAddsReason(s: State, i: nat)
    requires ReasonInv(s) && Enabled(s, Record(i))
    ensures ReasonInv(Apply(s, Record(i)))
  {
    var now := Apply(s, Record(i)).agents[i];
    ReplaceReasons(s.agents, i, now);
    Swap(ReasonsOf(s.agents), TimeNote(s), Share(now));
  }

  lemma WaiterKeepsInv(s: State, a: Action)
    requires Inv(s) && Enabled(s, a)
    requires a.Pass? || a.TimeOut? || a.Complete? || a.Note?
    ensures Inv(Apply(s, a))
  {
  }

  lemma StepKeepsInv(s: State, a: Action)
    requires Inv(s) && Enabled(s, a)
    ensures Inv(Apply(s, a))
  {
    if a.Pass? || a.TimeOut? || a.Complete? || a.Note? {
      WaiterKeepsInv(s, a);
    } else {
      AgentKeepsLatch(s, a.agent, a);
      if a.Record? {
        RecordAddsReason(s, a.agent);
      } else {
        AgentMoves(s, a.agent, a);
        MoveKeepsReasons(s, Apply(s, a), a.agent);
      }
    }
  }

  lemma {:induction false} RunKeepsInv(s: State, acts: seq<Action>)
    requires Inv(s) && Possible(s, acts)
    ensures Inv(Run(s, acts))
    decreases |acts|
  {
    if acts != [] {
      StepKeepsInv(s, acts[0]);
      RunKeepsInv(Apply(s, acts[0]), acts[1..]);
    }
  }

  lemma {:induction false} RunSplit(s: State, first: seq<Action>, a: Action)
    requires Possible(s, first) && Enabled(Run(s, first), a)
    ensures Possible(s, first + [a]) && Run(s, first + [a]) == Apply(Run(s, first), a)
    decreases |first|
  {
    if first == [] {
      assert [] + [a] == [a];
      assert [a][1..] == [];
    } else {
      assert (first + [a])[1..] == first[1..] + [a];
      RunSplit(Apply(s, first[0]), first[1..], a);
    }
  }

  /** An agent that stops, alone: as long as the run is not over, its reason is in and the latch is down by one. */
  lemma AgentStops(s: State, i: nat, reason: string) returns (acts: seq<Action>)
    requires i < |s.agents| && s.agents[i].Running?
    ensures Possible(s, acts)
    ensures Run(s, acts) ==
              if s.completed then s.(agents := s.agents[i := Ignored])
              else s.(agents := s.agents[i := Counted(reason)],
                      reasons := s.reasons + multiset{reason},
                      latch := if s.latch == 0 then 0 else s.latch - 1)
  {
    acts := [];
    RunSplit(s, acts, Flag(i, reason));
    acts := acts + [Flag(i, reason)];
    RunSplit(s, acts, Check(i));
    acts := acts + [Check(i)];
    if !s.completed {
      RunSplit(s, acts, Record(i));
      acts := acts + [Record(i)];
      RunSplit(s, acts, Drop(i));
      acts := acts + [Drop(i)];
    }
  }

  /** The wait, once the latch is down: it ends, and the run is over. */
  lemma WaitEnds(s: State) returns (acts: seq<Action>)
    requires s.waiter.Waiting? && s.latch == 0
    ensures Possible(s, acts) && Run(s, acts) == s.(completed := true, waiter := Returned(false))
  {
    RunSplit(s, [], Pass);
    acts := [] + [Pass];
    RunSplit(s, acts, Complete);
    acts := acts + [Complete];
  }

  /** The wait, when a time limit ends it: the run is over, and the time limit is a reason. */
  lemma WaitTimesOut(s: State) returns (acts: seq<Action>)
    requires s.waiter.Waiting? && s.timeLimit > 0
    ensures Possible(s, acts)
    ensures Run(s, acts)
         == s.(completed := true, waiter := Returned(true), reasons := s.reasons + multiset{"Reached time limit"})
  {
    RunSplit(s, [], TimeOut);
    acts := [] + [TimeOut];
    RunSplit(s, acts, Complete);
    acts := acts + [Complete];
    RunSplit(s, acts, Note);
    acts := acts + [Note];
  }

  /**
   * Whatever the interleaving, the wait can end by the latch exactly when `limit` distinct
   * agents have counted down, and it has ended otherwise only by a time limit.
   */
  lemma WaitEndsAfterEnoughAgents(init: State, acts: seq<Action>)
    requires Init(init) && Possible(init, acts)
    ensures var s := Run(init, acts);
            && (Enabled(s, Pass) <==> s.waiter.Waiting? && CountedDown(s.agents) >= s.limit)
            && (s.completed && s.timeLimit <= 0 ==> CountedDown(s.agents) >= s.limit)
  {
    NobodyYet(init.agents);
    RunKeepsInv(init, acts);
  }

  /**
   * The handler of a run without a time limit: the wait ends only after as many distinct
   * agents have counted down as have a limit, and one at least; and nothing but more agents
   * counting down is needed for it to end.
   */
  lemma WaitEndsAfterLimitedAgents(p: Params, agents: seq<Agent>, acts: seq<Action>)
    requires p.timeLimit <= 0 && forall i :: 0 <= i < |agents| ==> agents[i].Running?
    requires Possible(Start(p.timeLimit, Max(1, |LimitedAgents(p)|), agents), acts)
    ensures var s := Run(Start(p.timeLimit, Max(1, |LimitedAgents(p)|), agents), acts);
            var enough := |Down(s.agents)| >= 1 && |Down(s.agents)| >= |LimitedAgents(p)|;
            && (s.completed ==> enough)
            && (Enabled(s, Pass) <==> s.waiter.Waiting? && enough)
  {
    var init := Start(p.timeLimit, Max(1, |LimitedAgents(p)|), agents);
    WaitEndsAfterEnoughAgents(init, acts);
    LimitStays(init, acts);
    DownIsCounted(Run(init, acts).agents);
  }

  /** The agents that have counted down. */
  function Down(agents: seq<Agent>): set<nat> {
    set i: nat | i < |agents| && agents[i].Counted?
  }

  lemma {:induction false} DownIsCounted(agents: seq<Agent>)
    ensures |Down(agents)| == CountedDown(agents)
  {
    if agents == [] {
      assert Down(agents) == {};
    } else {
      var n := |agents| - 1;
      DownIsCounted(agents[..n]);
      assert Down(agents) == Down(agents[..n]) + if agents[n].Counted? then {n} else {};
    }
  }

  lemma {:induction false} LimitStays(s: State, acts: seq<Action>)
    requires Possible(s, acts)
    ensures Run(s, acts).limit == s.limit && Run(s, acts).timeLimit == s.timeLimit
    decreases |acts|
  {
    if acts != [] {
      LimitStays(Apply(s, acts[0]), acts[1..]);
    }
  }

  /**
   * The reasons are those of the agents past the recording, each once, and the time
   * limit's; so they are at least as many as the agents that counted down.
   */
  lemma ReasonsAreTheAgents(init: State, acts: seq<Action>)
    requires Init(init) && Possible(init, acts)
    ensures var s := Run(init, acts);
            s.reasons == ReasonsOf(s.agents) + TimeNote(s) && CountedDown(s.agents) <= |s.reasons|
  {
    NobodyYet(init.agents);
    RunKeepsInv(init, acts);
    CountedHaveReasons(Run(init, acts).agents);
  }

  /** Past the check that the run is not over. */
  predicate Admitted(a: Agent) { a.Checked? || a.Recorded? || a.Counted? }

  /** Once the run is over, only agents that had made the check before can still leave a reason. */
  lemma {:induction false} NobodyAdmittedLate(s: State, acts: seq<Action>)
    requires s.completed && Possible(s, acts)
    ensures var t := Run(s, acts);
            && t.completed && |t.agents| == |s.agents|
            && forall i :: 0 <= i < |s.agents| ==> (Admitted(t.agents[i]) <==> Admitted(s.agents[i]))
    decreases |acts|
  {
    if acts != [] {
      NobodyAdmittedLate(Apply(s, acts[0]), acts[1..]);
    }
  }

  /** A reason that has been recorded is never changed. */
  lemma {:induction false} SharesStay(s: State, acts: seq<Action>, i: nat)
    requires Possible(s, acts) && i < |s.agents| && (s.agents[i].Recorded? || s.agents[i].Counted?)
    ensures i < |Run(s, acts).agents| && Share(Run(s, acts).agents[i]) == Share(s.agents[i])
    ensures Run(s, acts).agents[i].Recorded? || Run(s, acts).agents[i].Counted?
    decreases |acts|
  {
    if acts != [] {
      SharesStay(Apply(s, acts[0]), acts[1..], i);
    }
  }

  /** The time limit's reason, if it was noted between the two states. */
  function NotedSince(s: State, t: State): multiset<string> {
    if t.waiter == Returned(true) && s.waiter != Returned(true) then multiset{TIME_LIMIT_REASON} else multiset{}
  }

  /** Whatever comes next, no reason is added but the time limit's. */
  ghost predicate ReasonsFinal(s: State) {
    forall acts :: Possible(s, acts) ==> Run(s, acts).reasons == s.reasons + NotedSince(s, Run(s, acts))
  }

  /** Once the run is over, the reasons are final exactly when nobody is between the check and the recording. */
  lemma ReasonsFinalOnceOver(init: State, before: seq<Action>)
    requires Init(init) && Possible(init, before) && Run(init, before).completed
    ensures var s := Run(init, before);
            ReasonsFinal(s) <==> forall i :: 0 <= i < |s.agents| ==> !s.agents[i].Checked?
  {
    NobodyYet(init.agents);
    RunKeepsInv(init, before);
    var s := Run(init, before);
    if i :| 0 <= i < |s.agents| && s.agents[i].Checked? {
      LateReason(s, i);
    } else {
      forall acts | Possible(s, acts) ensures Run(s, acts).reasons == s.reasons + NotedSince(s, Run(s, acts)) {
        NothingLate(s, acts);
      }
    }
  }

  lemma LateReason(s: State, i: nat)
    requires i < |s.agents| && s.agents[i].Checked?
    ensures !ReasonsFinal(s)
  {
    var late := [Record(i)];
    var recorded := Apply(s, Record(i));
    assert late[0] == Record(i) && late[1..] == [];
    assert Possible(recorded, []) && Run(recorded, []) == recorded;
    assert Possible(s, late) && Run(s, late) == recorded;
    assert |recorded.reasons| == |s.reasons| + 1;
  }

  lemma NothingLate(s: State, acts: seq<Action>)
    requires Inv(s) && s.completed && Possible(s, acts)
    requires forall i :: 0 <= i < |s.agents| ==> !s.agents[i].Checked?
    ensures Run(s, acts).reasons == s.reasons + NotedSince(s, Run(s, acts))
  {
    RunKeepsInv(s, acts);
    NobodyAdmittedLate(s, acts);
    var t := Run(s, acts);
    forall i | 0 <= i < |s.agents| ensures Share(t.agents[i]) == Share(s.agents[i]) {
      if Admitted(s.agents[i]) {
        SharesStay(s, acts, i);
      }
    }
    SameShares(t.agents, s.agents);
    ReturnedStays(s, acts);
  }

  lemma {:induction false} ReturnedStays(s: State, acts: seq<Action>)
    requires Possible(s, acts)
    ensures s.waiter.Returned? ==> Run(s, acts).waiter == s.waiter
    decreases |acts|
  {
    if acts != [] {
      ReturnedStays(Apply(s, acts[0]), acts[1..]);
    }
  }
}
