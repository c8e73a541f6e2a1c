/** Idempotent callbacks, run in the reverse order of their registration. */
module ShutdownServices {
  import opened Sequences

  /** The callbacks among the first `n` whose flag is down, last one first. */
  function NotYetRun(flags: seq<bool>, n: nat): seq<nat>
    requires n <= |flags|
  {
    if n == 0 then []
    else (if flags[n - 1] then [] else [n - 1]) + NotYetRun(flags, n - 1)
  }

  class ShutdownService {
    var flags: seq<bool>  // closingOrAlreadyClosed, by registration order
    var log: seq<nat>     // the callbacks that ran, in order

    ghost function Contents(): State
      reads this
    {
      State(flags, log)
    }

    constructor ()
      ensures Contents() == State([], [])
    {
      flags, log := [], [];
    }

    method Wrap() returns (id: nat)
      modifies this`flags
      ensures id == old(|flags|) && Contents() == Apply(old(Contents()), Register)
      ensures flags == old(flags) + [false]
    {
      id := |flags|;
      flags := flags + [false];
    }

    /** Closing one wrapped callback: it runs, and may throw, the first time only. */
    method CloseOne(id: nat, throws: nat -> bool) returns (thrown: bool)
      requires id < |flags|
      modifies this
      ensures Contents() == Apply(old(Contents()), One(id))
      ensures flags == old(flags)[id := true] && log == old(log) + if old(flags)[id] then [] else [id]
      ensures thrown <==> !old(flags)[id] && throws(id)
    {
      thrown := false;
      if !flags[id] {
        flags := flags[id := true];
        log := log + [id];
        thrown := throws(id);
      }
    }

    /** Closing all of them: a callback that throws does not keep the others from running. */
    method Close(throws: nat -> bool)
      modifies this
      ensures Contents() == Apply(old(Contents()), All)
      ensures |flags| == |old(flags)| && forall j :: 0 <= j < |flags| ==> flags[j]
      ensures log == old(log) + NotYetRun(old(flags), |old(flags)|)
    {
      var i := |flags| - 1;
      while i >= 0
        invariant -1 <= i < |flags| == |old(flags)|
        invariant forall j :: 0 <= j <= i ==> flags[j] == old(flags)[j]
        invariant forall j :: i < j < |flags| ==> flags[j]
        invariant log + NotYetRun(old(flags), i + 1) == old(log) + NotYetRun(old(flags), |old(flags)|)
      {
        var thrown := CloseOne(i, throws);
        i := i - 1;
      }
    }
  }

  // ---------- any sequence of uses ----------

  datatype Use = Register | One(id: nat) | All

  datatype State = State(flags: seq<bool>, log: seq<nat>)

  function Apply(s: State, u: Use): State {
    match u
    case Register => s.(flags := s.flags + [false])
    case One(id) =>
      if id < |s.flags| && !s.flags[id] then State(s.flags[id := true], s.log + [id]) else s
    case All => State(seq(|s.flags|, _ => true), s.log + NotYetRun(s.flags, |s.flags|))
  }

  function Run(s: State, us: seq<Use>): State
    decreases |us|
  {
    if us == [] then s else Run(Apply(s, us[0]), us[1..])
  }

  /** The flag of a callback is up exactly when the callback is in the log, which holds no repeat. */
  ghost predicate LogMatches(s: State) {
    Distinct(s.log) && forall id: nat :: id in s.log <==> id < |s.flags| && s.flags[id]
  }

  /** What is left is listed once each, in decreasing registration order. */
  lemma {:induction false} NotYetRunIs(flags: seq<bool>, n: nat)
    requires n <= |flags|
    ensures var ids := NotYetRun(flags, n);
            && (forall i, j :: 0 <= i < j < |ids| ==> ids[i] > ids[j])
            && (forall id: nat :: id in ids <==> id < n && !flags[id])
  {
    if n > 0 {
      NotYetRunIs(flags, n - 1);
      var rest := NotYetRun(flags, n - 1);
      assert forall j :: 0 <= j < |rest| ==> rest[j] in rest;
    }
  }

  lemma Joined(xs: seq<nat>, ys: seq<nat>)
    requires Distinct(xs) && Distinct(ys) && forall x :: x in xs ==> x !in ys
    ensures Distinct(xs + ys) && forall x :: x in xs + ys <==> x in xs || x in ys
  {
    assert forall i :: 0 <= i < |xs| ==> xs[i] in xs;
    assert forall j :: 0 <= j < |ys| ==> ys[j] in ys;
  }

  lemma UseKeepsLog(s: State, u: Use)
    requires LogMatches(s)
    ensures LogMatches(Apply(s, u))
  {
    if u.All? {
      NotYetRunIs(s.flags, |s.flags|);
      Joined(s.log, NotYetRun(s.flags, |s.flags|));
    } else if u.One? && u.id < |s.flags| && !s.flags[u.id] {
      Joined(s.log, [u.id]);
    }
  }

  lemma {:induction false} RunKeepsLog(s: State, us: seq<Use>)
    requires LogMatches(s)
    ensures LogMatches(Run(s, us))
    decreases |us|
  {
    if us != [] {
      UseKeepsLog(s, us[0]);
      RunKeepsLog(Apply(s, us[0]), us[1..]);
    }
  }

  /**
   * Over any uses, every callback runs at most once; and closing all of them after that
   * runs each one that has not run yet, last registered first, and nothing else.
   */
  lemma EveryCallbackOnce(us: seq<Use>)
    ensures var s := Run(State([], []), us);
            var ids := NotYetRun(s.flags, |s.flags|);
            && Distinct(s.log)
            && Run(s, [All]).log == s.log + ids
            && (forall id: nat :: id < |s.flags| ==> (id in ids <==> id !in s.log))
            && (forall i, j :: 0 <= i < j < |ids| ==> ids[i] > ids[j])
            && Distinct(Run(s, [All]).log)
  {
    RunKeepsLog(State([], []), us);
    var s := Run(State([], []), us);
    NotYetRunIs(s.flags, |s.flags|);
    assert [All][1..] == [];
    assert Run(s, [All]) == Apply(s, All);
    UseKeepsLog(s, All);
  }
}
