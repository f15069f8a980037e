/** rapid's state-machine executor (statemachine.go): `runAction` classifies
    one run of an action, `executeAction` retries skipped actions up to
    `validActionTries` times, `Repeat` interleaves steps with the invariant
    check, and `StateMachineActions` collects the action methods of a state
    machine type. Panics are values of type `Signal`; what a drawn action
    does is read from the script held by the test handle `T`. */
module StateMachine {
  import opened Wrappers
  import opened Engine

  const ActionLabel := "action"
  const ValidActionTries := 100
  const NoValidActionsMsg := "can't find a valid (non-skipped) action"

  // ---------------------------------------------------------------------
  // runAction
  // ---------------------------------------------------------------------

  /** The two results of `runAction`. */
  datatype Verdict = Verdict(invalid: bool, skipped: bool)

  /** The deferred recover of `runAction`: `raised` is the panic that reached
      it, if any; `drawsAtStart` is `t.draws` when the defer was set up and
      `drawsNow` is `t.draws` at recovery. An `invalidData` panic becomes an
      invalid verdict, skipped when no draw happened in between; any other
      panic is raised again unchanged. */
  function Recover(raised: Option<Signal>, drawsAtStart: nat, drawsNow: nat): (r: Result<Verdict, Signal>)
    ensures raised.None? ==> r == Success(Verdict(false, false))
    ensures r.Success? && r.value.invalid <==> raised.Some? && raised.value.InvalidData?
    ensures r.Success? && r.value.skipped <==>
      raised.Some? && raised.value.InvalidData? && drawsNow == drawsAtStart
    ensures r.Failure? <==> raised.Some? && !raised.value.InvalidData?
    ensures r.Failure? ==> raised == Some(r.error)
  {
    match raised
    case None => Success(Verdict(false, false))
    case Some(s) =>
      if s.InvalidData? then Success(Verdict(true, drawsNow == drawsAtStart)) else Failure(s)
  }

  /** A run that gives up as invalid before drawing anything: the only kind
      `executeAction` retries. */
  predicate Skips(run: ActionRun)
  {
    run.end.Panics? && run.end.signal.InvalidData? && run.draws == 0
  }

  /** What `runAction` yields for `run` when `failed` is the failure recorded
      on `t` beforehand: the panic that leaves the body, or else the one
      `failOnError` raises, as the recover sees it. */
  function Classify(failed: Option<string>, run: ActionRun): (r: Result<Verdict, Signal>)
    ensures r == Success(Verdict(false, false)) <==>
      run.end == Returns && Record(failed, run.reports).None?
    ensures r.Success? && r.value.skipped <==> Skips(run)
    ensures r.Success? && r.value.invalid <==> run.end.Panics? && run.end.signal.InvalidData?
    ensures r.Failure? && r.error.InvalidData? ==> false
    ensures r.Failure? && run.end.Panics? ==> r.error == run.end.signal
    ensures r.Failure? && run.end == Returns ==> r.error == Failed(Record(failed, run.reports).value)
  {
    var raised :=
      if run.end.Panics? then Some(run.end.signal)
      else if Record(failed, run.reports).Some? then Some(Failed(Record(failed, run.reports).value))
      else None;
    Recover(raised, 0, run.draws)
  }

  /** `runAction`: runs the drawn action's body, then `failOnError`, under a
      deferred recover that captured `t.draws` before the body ran. */
  method RunAction(t: T, run: ActionRun) returns (r: Result<Verdict, Signal>)
    modifies t`draws, t`failed
    ensures t.draws == old(t.draws) + run.draws
    ensures t.failed == Record(old(t.failed), run.reports)
    ensures r == Classify(old(t.failed), run)
  {
    var drawsAtStart := t.draws;
    t.Run(run);
    var raised: Option<Signal>;
    if run.end.Panics? {
      raised := Some(run.end.signal);
    } else {
      raised := t.FailOnError();
    }
    r := Recover(raised, drawsAtStart, t.draws);
  }

  // ---------------------------------------------------------------------
  // executeAction
  // ---------------------------------------------------------------------

  /** The number of runs at the head of `runs` that skip. */
  function LeadingSkips(runs: seq<ActionRun>): (k: nat)
    ensures k <= |runs|
    ensures forall j :: 0 <= j < k ==> Skips(runs[j])
    ensures k < |runs| ==> !Skips(runs[k])
  {
    if runs == [] || !Skips(runs[0]) then 0 else 1 + LeadingSkips(runs[1..])
  }

  /** The failure recorded on `t` after the bodies of `runs` ran in turn. */
  function FailedAfter(failed: Option<string>, runs: seq<ActionRun>): Option<string>
  {
    if runs == [] then failed
    else Record(FailedAfter(failed, runs[..|runs| - 1]), runs[|runs| - 1].reports)
  }

  /** The draws counted by the attempts that ran `runs`: the draw of the
      action itself and the draws of its body. */
  function DrawCost(runs: seq<ActionRun>): nat
  {
    if runs == [] then 0
    else DrawCost(runs[..|runs| - 1]) + 1 + runs[|runs| - 1].draws
  }

  /** The effect of one call of `executeAction`: its result (a panic is a
      `Failure`), the number of actions it drew, and whether the group of
      its last attempt is left open because a panic escaped. */
  datatype Execution = Execution(result: Result<bool, Signal>, attempts: nat, groupOpen: bool)

  /** `executeAction` on the upcoming `runs`, with `failed` recorded on `t`:
      the attempts that skip are retried, up to `ValidActionTries` of them;
      the first attempt that does not skip decides the result. */
  function Execute(failed: Option<string>, runs: seq<ActionRun>): (e: Execution)
    ensures e.attempts <= ValidActionTries && e.attempts <= |runs|
    ensures forall j :: 0 <= j < e.attempts - 1 ==> Skips(runs[j])
    ensures e.result.Success? ==>
      e.attempts >= 1 && !Skips(runs[e.attempts - 1]) && !e.groupOpen
    ensures e.result == Success(true) ==> runs[e.attempts - 1].end == Returns
    ensures e.result == Success(false) ==>
      runs[e.attempts - 1].end.Panics? && runs[e.attempts - 1].end.signal.InvalidData?
      && runs[e.attempts - 1].draws > 0
    ensures e.result.Failure? ==> !e.result.error.InvalidData?
    ensures e.result.Failure? && !e.groupOpen <==>
      |runs| >= ValidActionTries && forall j :: 0 <= j < ValidActionTries ==> Skips(runs[j])
    ensures e.result.Failure? && !e.groupOpen ==>
      e.result.error == StopTest(NoValidActionsMsg) && e.attempts == ValidActionTries
    ensures e.result.Failure? && e.groupOpen ==>
      || (e.result.error == Exhausted && e.attempts == |runs|)
      || (e.attempts >= 1 && runs[e.attempts - 1].end == Panics(e.result.error))
      || (e.result.error.Failed? && FailedAfter(failed, runs[..e.attempts]) == Some(e.result.error.msg))
  {
    var k := LeadingSkips(runs);
    if k >= ValidActionTries then
      Execution(Failure(StopTest(NoValidActionsMsg)), ValidActionTries, false)
    else if k == |runs| then
      Execution(Failure(Exhausted), k, true)
    else
      assert runs[..k + 1][..k] == runs[..k];
      match Classify(FailedAfter(failed, runs[..k]), runs[k])
      case Failure(s) => Execution(Failure(s), k + 1, true)
      case Success(v) => Execution(Success(!v.invalid), k + 1, false)
  }

  /** `executeAction` returns true exactly when, among the first
      `ValidActionTries` attempts, the first one that does not skip runs to
      completion (with no failure recorded). */
  lemma ExecuteCompletes(failed: Option<string>, runs: seq<ActionRun>)
    ensures Execute(failed, runs).result == Success(true) <==>
      exists k :: 0 <= k < ValidActionTries && k < |runs|
        && (forall j :: 0 <= j < k ==> Skips(runs[j]))
        && Classify(FailedAfter(failed, runs[..k]), runs[k]) == Success(Verdict(false, false))
  {
  }

  /** `executeAction` returns false exactly when, among the first
      `ValidActionTries` attempts, the first one that does not skip gives up
      as invalid after drawing: it is not retried. */
  lemma ExecuteRejects(failed: Option<string>, runs: seq<ActionRun>)
    ensures Execute(failed, runs).result == Success(false) <==>
      exists k :: 0 <= k < ValidActionTries && k < |runs|
        && (forall j :: 0 <= j < k ==> Skips(runs[j]))
        && runs[k].end.Panics? && runs[k].end.signal.InvalidData? && runs[k].draws > 0
  {
  }

  /** The result of `executeAction` from state `s` on `script`, and the state
      it leaves behind: `Execute` on the actions still to be drawn. */
  function AfterExecute(script: seq<ActionRun>, s: Snapshot): (out: (Result<bool, Signal>, Snapshot))
    requires s.pos <= |script|
    ensures s.pos <= out.1.pos <= |script| && s.draws <= out.1.draws
    ensures out.0.Success? ==> s.pos < out.1.pos && out.1.open == s.open
  {
    var runs := script[s.pos..];
    var e := Execute(s.failed, runs);
    (e.result,
     Snapshot(s.pos + e.attempts, s.draws + DrawCost(runs[..e.attempts]),
              FailedAfter(s.failed, runs[..e.attempts]),
              s.open + if e.groupOpen then [ActionLabel] else []))
  }

  /** The loop of `executeAction` from attempt `n` in state `s`, one attempt
      at a time: after `ValidActionTries` attempts it stops the test; an
      attempt that finds nothing to draw, or whose action panics with
      anything but `invalidData`, leaves its group open and ends the call;
      an attempt that skips is followed by the next one; any other attempt
      decides the result. */
  function ExecuteFrom(script: seq<ActionRun>, s: Snapshot, n: nat): (out: (Result<bool, Signal>, Snapshot))
    requires s.pos <= |script| && n <= ValidActionTries
    ensures s.pos <= out.1.pos <= |script| && s.draws <= out.1.draws
    ensures out.0.Success? ==> s.pos < out.1.pos && out.1.open == s.open
    decreases ValidActionTries - n
  {
    if n == ValidActionTries then (Failure(StopTest(NoValidActionsMsg)), s)
    else if s.pos == |script| then (Failure(Exhausted), s.(open := s.open + [ActionLabel]))
    else
      var run := script[s.pos];
      var s1 := s.(pos := s.pos + 1, draws := s.draws + 1 + run.draws, failed := Record(s.failed, run.reports));
      match Classify(s.failed, run)
      case Failure(e) => (Failure(e), s1.(open := s.open + [ActionLabel]))
      case Success(v) => if v.skipped then ExecuteFrom(script, s1, n + 1) else (Success(!v.invalid), s1)
  }

  /** The state after `n` attempts from `s0` that all skipped. */
  ghost predicate SkippedFrom(script: seq<ActionRun>, s0: Snapshot, s: Snapshot, n: nat)
  {
    && s.pos == s0.pos + n <= |script| && s.open == s0.open
    && (forall j :: s0.pos <= j < s.pos ==> Skips(script[j]))
    && s.failed == FailedAfter(s0.failed, script[s0.pos..s.pos])
    && s.draws == s0.draws + DrawCost(script[s0.pos..s.pos])
  }

  /** The attempts that skipped from `s0` to `s` are the leading skips of
      what was to be drawn at `s0`. */
  lemma SkippedRuns(script: seq<ActionRun>, s0: Snapshot, s: Snapshot, n: nat)
    requires SkippedFrom(script, s0, s, n)
    ensures var runs := script[s0.pos..];
      && runs[..n] == script[s0.pos..s.pos]
      && n <= |runs| && LeadingSkips(runs) >= n
      && (n < |runs| && !Skips(runs[n]) ==> LeadingSkips(runs) == n)
  {
    var runs := script[s0.pos..];
    forall j | 0 <= j < n
      ensures Skips(runs[j])
    {
      assert runs[j] == script[s0.pos + j];
    }
  }

  /** An attempt that skips moves on to the next attempt, one action further. */
  lemma SkipOne(script: seq<ActionRun>, s0: Snapshot, s: Snapshot, n: nat)
    requires n < ValidActionTries && SkippedFrom(script, s0, s, n)
    requires s.pos < |script| && Skips(script[s.pos])
    ensures var run := script[s.pos];
      var s1 := s.(pos := s.pos + 1, draws := s.draws + 1 + run.draws, failed := Record(s.failed, run.reports));
      && SkippedFrom(script, s0, s1, n + 1)
      && ExecuteFrom(script, s, n) == ExecuteFrom(script, s1, n + 1)
  {
    assert script[s0.pos..s.pos + 1][..n] == script[s0.pos..s.pos];
  }

  /** The first attempt that does not skip ends the loop as it ends `Execute`. */
  lemma DecideOne(script: seq<ActionRun>, s0: Snapshot, s: Snapshot, n: nat)
    requires n < ValidActionTries && SkippedFrom(script, s0, s, n)
    requires s.pos < |script| && !Skips(script[s.pos])
    ensures ExecuteFrom(script, s, n) == AfterExecute(script, s0)
  {
    var runs := script[s0.pos..];
    SkippedRuns(script, s0, s, n);
    assert runs[n] == script[s.pos];
    assert runs[..n + 1][..n] == runs[..n];
  }

  /** When the tries are used up, or nothing is left to draw, the loop ends
      as `Execute` does: with `stopTest`, or with `Exhausted` and the group
      left open. */
  lemma RunOut(script: seq<ActionRun>, s0: Snapshot, s: Snapshot, n: nat)
    requires n <= ValidActionTries && SkippedFrom(script, s0, s, n)
    requires n == ValidActionTries || s.pos == |script|
    ensures ExecuteFrom(script, s, n) == AfterExecute(script, s0)
  {
    var runs := script[s0.pos..];
    SkippedRuns(script, s0, s, n);
    if n == ValidActionTries {
      assert Execute(s0.failed, runs) == Execution(Failure(StopTest(NoValidActionsMsg)), n, false);
      assert s0.open + [] == s.open;
    } else {
      assert Execute(s0.failed, runs) == Execution(Failure(Exhausted), n, true);
    }
  }

  /** `ExecuteFrom` from the first attempt is `executeAction` as `Execute`
      describes it. */
  lemma ExecuteFromStart(script: seq<ActionRun>, s: Snapshot)
    requires s.pos <= |script|
    ensures ExecuteFrom(script, s, 0) == AfterExecute(script, s)
  {
    assert script[s.pos..s.pos] == [];
    ExecuteFromAgrees(script, s, s, 0);
  }

  /** Attempt by attempt, the loop reaches the result and the state that
      `Execute` describes: from any attempt `n` whose `n` predecessors since
      `s0` all skipped, it ends as `executeAction` from `s0` does. */
  lemma {:induction false} ExecuteFromAgrees(script: seq<ActionRun>, s0: Snapshot, s: Snapshot, n: nat)
    requires n <= ValidActionTries && SkippedFrom(script, s0, s, n)
    ensures ExecuteFrom(script, s, n) == AfterExecute(script, s0)
    decreases ValidActionTries - n
  {
    if n == ValidActionTries || s.pos == |script| {
      RunOut(script, s0, s, n);
    } else if Skips(script[s.pos]) {
      var run := script[s.pos];
      var s1 := s.(pos := s.pos + 1, draws := s.draws + 1 + run.draws, failed := Record(s.failed, run.reports));
      SkipOne(script, s0, s, n);
      ExecuteFromAgrees(script, s0, s1, n + 1);
    } else {
      DecideOne(script, s0, s, n);
    }
  }

  /** One attempt of `executeAction`, the `n`-th, from state `cur`: begins an
      "action" group, draws an action, runs it and ends the group. A panic
      that `runAction` raises again leaves the group open, as `endGroup` is
      never reached. `done` tells whether the attempt ends the call (with
      result `r`); otherwise it skipped and the call goes on from the new
      state with the next attempt. */
  method Attempt(t: T, ghost script: seq<ActionRun>, ghost cur: Snapshot, n: nat)
    returns (done: bool, r: Result<bool, Signal>)
    requires t.Valid() && t.script == script && t.State() == cur && n < ValidActionTries
    modifies t`draws, t`failed, t`open, t`pos
    ensures t.Valid() && t.script == script
    ensures done ==> (r, t.State()) == ExecuteFrom(script, cur, n)
    ensures !done ==> ExecuteFrom(script, t.State(), n + 1) == ExecuteFrom(script, cur, n)
  {
    var h := t.BeginGroup(ActionLabel);
    var drawn := t.DrawAction();
    if drawn.Failure? {
      return true, Failure(drawn.error);
    }
    assert drawn.value == script[cur.pos];
    var v := RunAction(t, drawn.value);
    if v.Failure? {
      return true, Failure(v.error);
    }
    t.EndGroup(h);
    assert t.open == cur.open;
    if !v.value.skipped {
      return true, Success(!v.value.invalid);
    }
    done, r := false, Success(false);
  }

  /** `executeAction`: attempts that skip are retried, up to
      `ValidActionTries` of them; the first attempt that does not skip ends
      the call, and so does a panic. */
  method ExecuteAction(t: T) returns (r: Result<bool, Signal>)
    requires t.Valid()
    modifies t`draws, t`failed, t`open, t`pos
    ensures t.Valid() && t.script == old(t.script)
    ensures (r, t.State()) == ExecuteFrom(t.script, old(t.State()), 0)
  {
    ghost var script, s0 := t.script, t.State();
    var n := 0;
    while n < ValidActionTries
      invariant 0 <= n <= ValidActionTries
      invariant t.Valid() && t.script == script
      invariant ExecuteFrom(script, t.State(), n) == ExecuteFrom(script, s0, 0)
    {
      var done;
      done, r := Attempt(t, script, t.State(), n);
      if done {
        return;
      }
      n := n + 1;
    }
    r := Failure(StopTest(NoValidActionsMsg));
  }

  // ---------------------------------------------------------------------
  // Repeat
  // ---------------------------------------------------------------------

  /** `steps`, halved (Go integer division, truncating toward zero) in short mode. */
  function Steps(flagSteps: int, short: bool): (s: int)
    ensures !short ==> s == flagSteps
    ensures short && flagSteps >= 0 ==> 0 <= s && 2 * s <= flagSteps <= 2 * s + 1
    ensures short && flagSteps < 0 ==> s <= 0 && 2 * s - 1 <= flagSteps <= 2 * s
  {
    if !short then flagSteps
    else if flagSteps >= 0 then flagSteps / 2
    else -((-flagSteps) / 2)
  }

  /** The number of accepted steps a repeat created for `steps` steps allows. */
  function Budget(steps: int): nat
  {
    if steps > 0 then steps else 0
  }

  /** The `repeat` object of `Repeat`, reduced to its step budget: `More`
      takes one accepted step from the budget, `Reject` gives it back. */
  class Repeater {
    var remaining: nat

    constructor (steps: int)
      ensures remaining == Budget(steps)
    {
      remaining := Budget(steps);
    }

    /** `repeat.more`: whether another step is to be made. */
    method More() returns (more: bool)
      modifies this
      ensures more <==> old(remaining) > 0
      ensures remaining == if more then old(remaining) - 1 else old(remaining)
    {
      more := remaining > 0;
      if more {
        remaining := remaining - 1;
      }
    }

    /** `repeat.reject`: the last step does not count. */
    method Reject()
      modifies this
      ensures remaining == old(remaining) + 1
    {
      remaining := remaining + 1;
    }
  }

  /** What `Repeat` does, in order: a call of the check, a step with the
      result of `executeAction`, a rejection. */
  datatype Event = Check | Step(ok: bool) | Reject

  /** The order `Repeat` promises: with a check, the check comes first and
      follows every step that returned true, and nothing else; every step
      that returned false is followed by a rejection, and every rejection
      follows such a step. */
  ghost predicate Ordered(trace: seq<Event>, hasCheck: bool)
  {
    && (hasCheck ==> |trace| > 0 && trace[0] == Check)
    && forall i :: 0 <= i < |trace| ==> OrderedAt(trace, hasCheck, i)
  }

  /** What `Ordered` asks of the event at `i`, given its neighbours. */
  ghost predicate OrderedAt(trace: seq<Event>, hasCheck: bool, i: nat)
    requires i < |trace|
  {
    match trace[i]
    case Check => hasCheck && (i == 0 || trace[i - 1] == Step(true))
    case Step(ok) =>
      if ok then hasCheck ==> i + 1 < |trace| && trace[i + 1] == Check
      else i + 1 < |trace| && trace[i + 1] == Reject
    case Reject => i > 0 && trace[i - 1] == Step(false)
  }

  /** How often `e` occurs in `trace`. */
  function Count(trace: seq<Event>, e: Event): nat
  {
    if trace == [] then 0 else (if trace[0] == e then 1 else 0) + Count(trace[1..], e)
  }

  lemma {:induction false} CountAppend(trace: seq<Event>, x: Event, e: Event)
    ensures Count(trace + [x], e) == Count(trace, e) + (if x == e then 1 else 0)
  {
    if trace != [] {
      assert (trace + [x])[1..] == trace[1..] + [x];
      CountAppend(trace[1..], x, e);
    }
  }

  lemma {:induction false} CountAbsent(trace: seq<Event>, e: Event)
    requires forall i :: 0 <= i < |trace| ==> trace[i] != e
    ensures Count(trace, e) == 0
  {
    if trace != [] {
      CountAbsent(trace[1..], e);
    }
  }

  /** When every `a` is immediately followed by a `b` and every `b` not at
      the head immediately follows an `a`, the two occur equally often. */
  lemma {:induction false} PairedCount(trace: seq<Event>, a: Event, b: Event)
    requires a != b
    requires forall i :: 0 <= i < |trace| && trace[i] == a ==> i + 1 < |trace| && trace[i + 1] == b
    requires forall i :: 0 < i < |trace| && trace[i] == b ==> trace[i - 1] == a
    requires |trace| > 0 ==> trace[0] != b
    ensures Count(trace, b) == Count(trace, a)
  {
    if trace == [] {
    } else if trace[0] == a {
      var rest := trace[2..];
      assert trace[1] == b;
      assert trace[1..][1..] == rest;
      forall i | 0 <= i < |rest| && rest[i] == a
        ensures i + 1 < |rest| && rest[i + 1] == b
      {
        assert trace[i + 2] == a;
      }
      forall i | 0 < i < |rest| && rest[i] == b
        ensures rest[i - 1] == a
      {
        assert trace[i + 2] == b;
      }
      if |rest| > 0 {
        assert trace[2] == rest[0];
      }
      PairedCount(rest, a, b);
    } else {
      var rest := trace[1..];
      forall i | 0 <= i < |rest| && rest[i] == a
        ensures i + 1 < |rest| && rest[i + 1] == b
      {
        assert trace[i + 1] == a;
      }
      forall i | 0 < i < |rest| && rest[i] == b
        ensures rest[i - 1] == a
      {
        assert trace[i + 1] == b;
      }
      if |rest| > 0 {
        assert trace[1] == rest[0];
      }
      PairedCount(rest, a, b);
    }
  }

  /** In an ordered trace the check runs once more than there are accepted
      steps (never, without a check), and there are as many rejections as
      steps that returned false. */
  lemma ChecksPairWithSteps(trace: seq<Event>, hasCheck: bool)
    requires Ordered(trace, hasCheck)
    ensures Count(trace, Check) == if hasCheck then 1 + Count(trace, Step(true)) else 0
    ensures Count(trace, Reject) == Count(trace, Step(false))
  {
    if hasCheck {
      var rest := trace[1..];
      forall i | 0 <= i < |rest| && rest[i] == Step(true)
        ensures i + 1 < |rest| && rest[i + 1] == Check
      {
        assert OrderedAt(trace, hasCheck, i + 1);
      }
      forall i | 0 < i < |rest| && rest[i] == Check
        ensures rest[i - 1] == Step(true)
      {
        assert OrderedAt(trace, hasCheck, i + 1);
      }
      if |rest| > 0 {
        assert OrderedAt(trace, hasCheck, 1);
        assert trace[1] == rest[0];
      }
      PairedCount(rest, Step(true), Check);
    } else {
      forall i | 0 <= i < |trace|
        ensures trace[i] != Check
      {
        assert OrderedAt(trace, hasCheck, i);
      }
      CountAbsent(trace, Check);
    }
    forall i | 0 <= i < |trace| && trace[i] == Step(false)
      ensures i + 1 < |trace| && trace[i + 1] == Reject
    {
      assert OrderedAt(trace, hasCheck, i);
    }
    forall i | 0 < i < |trace| && trace[i] == Reject
      ensures trace[i - 1] == Step(false)
    {
      assert OrderedAt(trace, hasCheck, i);
    }
    if |trace| > 0 {
      assert OrderedAt(trace, hasCheck, 0);
    }
    PairedCount(trace, Step(false), Reject);
  }

  /** Appending a block whose own events are ordered and begin with a step
      to an ordered trace keeps it ordered. */
  lemma OrderedConcat(trace: seq<Event>, block: seq<Event>, hasCheck: bool)
    requires Ordered(trace, hasCheck) && |block| > 0 && block[0].Step?
    requires forall i :: 0 <= i < |block| ==> OrderedAt(block, hasCheck, i)
    ensures Ordered(trace + block, hasCheck)
  {
    var all := trace + block;
    forall i | 0 <= i < |all|
      ensures OrderedAt(all, hasCheck, i)
    {
      if i < |trace| {
        assert OrderedAt(trace, hasCheck, i);
        assert all[i] == trace[i];
        if i > 0 {
          assert all[i - 1] == trace[i - 1];
        }
        if i + 1 < |trace| {
          assert all[i + 1] == trace[i + 1];
        }
      } else {
        var j := i - |trace|;
        assert all[i] == block[j];
        assert OrderedAt(block, hasCheck, j);
        if j > 0 {
          assert all[i - 1] == block[j - 1];
        }
        if j + 1 < |block| {
          assert all[i + 1] == block[j + 1];
        }
      }
    }
  }

  /** An accepted step, followed by the check if there is one, keeps the
      trace ordered, counts one more accepted step and one more check call
      (when there is a check). */
  lemma Accepted(trace: seq<Event>, hasCheck: bool)
    requires Ordered(trace, hasCheck)
    ensures var block := [Step(true)] + (if hasCheck then [Check] else []);
      && Ordered(trace + block, hasCheck)
      && Count(trace + block, Step(true)) == Count(trace, Step(true)) + 1
      && Count(trace + block, Check) == Count(trace, Check) + (if hasCheck then 1 else 0)
  {
    var block := [Step(true)] + (if hasCheck then [Check] else []);
    assert OrderedAt(block, hasCheck, 0);
    if hasCheck {
      assert OrderedAt(block, hasCheck, 1);
    }
    OrderedConcat(trace, block, hasCheck);
    CountAppend(trace, Step(true), Step(true));
    CountAppend(trace, Step(true), Check);
    if hasCheck {
      assert trace + block == trace + [Step(true)] + [Check];
      CountAppend(trace + [Step(true)], Check, Step(true));
      CountAppend(trace + [Step(true)], Check, Check);
    } else {
      assert trace + block == trace + [Step(true)];
    }
  }

  /** A rejected step, followed by its rejection, keeps the trace ordered
      and counts neither an accepted step nor a check call. */
  lemma Rejected(trace: seq<Event>, hasCheck: bool)
    requires Ordered(trace, hasCheck)
    ensures Ordered(trace + [Step(false), Reject], hasCheck)
    ensures Count(trace + [Step(false), Reject], Step(true)) == Count(trace, Step(true))
    ensures Count(trace + [Step(false), Reject], Check) == Count(trace, Check)
  {
    var block := [Step(false), Reject];
    assert OrderedAt(block, hasCheck, 0);
    assert OrderedAt(block, hasCheck, 1);
    OrderedConcat(trace, block, hasCheck);
    CountAppend(trace, Step(false), Step(true));
    CountAppend(trace, Step(false), Check);
    assert trace + [Step(false)] + [Reject] == trace + block;
    CountAppend(trace + [Step(false)], Reject, Step(true));
    CountAppend(trace + [Step(false)], Reject, Check);
  }

  /** The check, as the behaviour of each of its calls in turn. */
  type CheckFn = nat -> ActionRun

  /** `check(t)`: the check's body; its panic, if any, is not recovered. */
  method CallCheck(t: T, run: ActionRun) returns (raised: Option<Signal>)
    modifies t`draws, t`failed
    ensures t.draws == old(t.draws) + run.draws
    ensures t.failed == Record(old(t.failed), run.reports)
    ensures raised == if run.end.Panics? then Some(run.end.signal) else None
  {
    t.Run(run);
    raised := if run.end.Panics? then Some(run.end.signal) else None;
  }

  /** The state the check's body leaves behind. */
  function AfterCheck(s: Snapshot, run: ActionRun): Snapshot
  {
    s.(draws := s.draws + run.draws, failed := Record(s.failed, run.reports))
  }

  /** What a run of `Repeat` returns, what it did, and the state it leaves. */
  datatype RepeatRun = RepeatRun(result: Outcome<Signal>, trace: seq<Event>, state: Snapshot)

  /** The first `n` calls of the check, if there is one, returned. */
  predicate ChecksReturned(check: Option<CheckFn>, n: int)
  {
    check.Some? ==> forall k :: 0 <= k < n ==> !check.value(k).end.Panics?
  }

  /** The panic that ends a failed run is one of: the failure recorded on
      `t`, raised by `failOnError`; the panic of the check's last call;
      `stopTest` after the last `ValidActionTries` actions drawn all skipped;
      `Exhausted` with the script used up; or the panic of the last action
      drawn, other than `invalidData`, passed on unchanged. */
  predicate Explained(script: seq<ActionRun>, check: Option<CheckFn>, rr: RepeatRun)
    requires rr.result.Fail?
  {
    var e := rr.result.error;
    var p := rr.state.pos;
    || (e.Failed? && rr.state.failed == Some(e.msg))
    || (check.Some? && |rr.trace| > 0 && rr.trace[|rr.trace| - 1] == Check
        && Count(rr.trace, Check) > 0 && check.value(Count(rr.trace, Check) - 1).end == Panics(e))
    || (e == StopTest(NoValidActionsMsg) && ValidActionTries <= p <= |script|
        && forall j :: p - ValidActionTries <= j < p ==> Skips(script[j]))
    || (e == Exhausted && p == |script|)
    || (0 < p <= |script| && script[p - 1].end == Panics(e) && !e.InvalidData?)
  }

  /** A failing `executeAction` fails for one of the reasons `Explained` lists. */
  lemma ExecuteFailure(script: seq<ActionRun>, check: Option<CheckFn>, s: Snapshot, trace: seq<Event>)
    requires s.pos <= |script| && ExecuteFrom(script, s, 0).0.Failure?
    ensures var out := ExecuteFrom(script, s, 0);
      Explained(script, check, RepeatRun(Fail(out.0.error), trace, out.1))
  {
    ExecuteFromStart(script, s);
    var runs := script[s.pos..];
    var e := Execute(s.failed, runs);
    var p := s.pos + e.attempts;
    if !e.groupOpen {
      forall j | p - ValidActionTries <= j < p
        ensures Skips(script[j])
      {
        assert script[j] == runs[j - s.pos];
      }
    } else if e.attempts >= 1 && runs[e.attempts - 1].end == Panics(e.result.error) {
      assert script[p - 1] == runs[e.attempts - 1];
    }
  }

  /** `if check != nil { check(t) }; t.failOnError()` from state `s`, when
      `calls` calls of the check came before: the panic it raises, if any,
      and the state it leaves behind. */
  function Checked(check: Option<CheckFn>, s: Snapshot, calls: nat): (out: (Option<Signal>, Snapshot))
    ensures out.1.pos == s.pos && out.1.open == s.open && s.draws <= out.1.draws
    ensures out.0.None? <==>
      (check.None? || !check.value(calls).end.Panics?) && out.1.failed.None?
    ensures check.Some? && check.value(calls).end.Panics? ==> out.0 == Some(check.value(calls).end.signal)
    ensures out.0.Some? && (check.None? || !check.value(calls).end.Panics?) ==>
      out.1.failed.Some? && out.0 == Some(Failed(out.1.failed.value))
  {
    var s1 := if check.Some? then AfterCheck(s, check.value(calls)) else s;
    if check.Some? && check.value(calls).end.Panics? then (Some(check.value(calls).end.signal), s1)
    else if s1.failed.Some? then (Some(Failed(s1.failed.value)), s1)
    else (None, s1)
  }

  /** One turn of the loop of `Repeat`: the panic or result of the step, the
      events it adds to the trace (the step, and the check after a step that
      returned true), and the state it leaves behind. */
  datatype Turn = Turn(result: Result<bool, Signal>, events: seq<Event>, state: Snapshot)

  /** A turn of the loop from state `s`: `executeAction`, then, when it
      returned true, the check and `failOnError`. */
  function TurnFrom(script: seq<ActionRun>, check: Option<CheckFn>, s: Snapshot, calls: nat): (turn: Turn)
    requires s.pos <= |script|
    ensures s.pos <= turn.state.pos <= |script| && s.draws <= turn.state.draws
    ensures turn.result.Success? ==> s.pos < turn.state.pos && turn.state.open == s.open
  {
    var out := ExecuteFrom(script, s, 0);
    match out.0
    case Failure(e) => Turn(Failure(e), [], out.1)
    case Success(ok) =>
      if !ok then Turn(Success(false), [Step(false)], out.1)
      else
        var events := [Step(true)] + if check.Some? then [Check] else [];
        var c := Checked(check, out.1, calls);
        if c.0.Some? then Turn(Failure(c.0.value), events, c.1) else Turn(Success(true), events, c.1)
  }

  /** The loop of `Repeat` from state `s`, with `left` accepted steps still
      allowed, `calls` calls of the check made and `trace` done so far: a
      turn, then `reject` after a step that returned false; the first panic
      ends the run. */
  function RepeatFrom(script: seq<ActionRun>, check: Option<CheckFn>, s: Snapshot, left: nat, calls: nat, trace: seq<Event>): (rr: RepeatRun)
    requires s.pos <= |script|
    ensures s.pos <= rr.state.pos <= |script| && s.draws <= rr.state.draws
    ensures rr.result.Pass? ==> left == 0 || s.pos < rr.state.pos
    decreases |script| - s.pos
  {
    if left == 0 then RepeatRun(Pass, trace, s)
    else
      var turn := TurnFrom(script, check, s, calls);
      match turn.result
      case Failure(e) => RepeatRun(Fail(e), trace + turn.events, turn.state)
      case Success(ok) =>
        if ok then
          RepeatFrom(script, check, turn.state, left - 1, if check.Some? then calls + 1 else calls, trace + turn.events)
        else
          RepeatFrom(script, check, turn.state, left, calls, trace + turn.events + [Reject])
  }

  /** What `Repeat` promises about a run `rr` from state `s` with a budget of
      `budget` accepted steps: the trace is ordered; every call of the check
      but a last one that ends the run returned; a run that passes made
      exactly `budget` accepted steps, left the open groups as they were and
      has no failure recorded; a run that fails fails for a reason
      `Explained` lists. */
  ghost predicate RepeatPromise(script: seq<ActionRun>, check: Option<CheckFn>, s: Snapshot, budget: nat, rr: RepeatRun)
  {
    && s.pos <= rr.state.pos <= |script| && s.draws <= rr.state.draws
    && Ordered(rr.trace, check.Some?)
    && ChecksReturned(check, Count(rr.trace, Check) - if rr.result.Pass? then 0 else 1)
    && (rr.result.Pass? ==>
         Count(rr.trace, Step(true)) == budget && rr.state.open == s.open && rr.state.failed.None?)
    && (rr.result.Fail? ==> Explained(script, check, rr))
  }

  /** A turn that fails leaves an ordered trace, every call of the check
      before its own returned, and fails for a reason `Explained` lists. */
  lemma TurnFails(script: seq<ActionRun>, check: Option<CheckFn>, s: Snapshot, calls: nat, trace: seq<Event>)
    requires s.pos <= |script|
    requires Ordered(trace, check.Some?) && calls == Count(trace, Check) && ChecksReturned(check, calls)
    requires TurnFrom(script, check, s, calls).result.Failure?
    ensures var turn := TurnFrom(script, check, s, calls);
      var rr := RepeatRun(Fail(turn.result.error), trace + turn.events, turn.state);
      && Ordered(rr.trace, check.Some?)
      && ChecksReturned(check, Count(rr.trace, Check) - 1)
      && Explained(script, check, rr)
  {
    var turn := TurnFrom(script, check, s, calls);
    if ExecuteFrom(script, s, 0).0.Failure? {
      assert trace + turn.events == trace;
      ExecuteFailure(script, check, s, trace);
    } else {
      Accepted(trace, check.Some?);
    }
  }

  /** The loop keeps the order of the trace, counts `left` more accepted
      steps when it passes, and fails only for a reason `Explained` lists. */
  lemma {:induction false} RepeatFromKeeps(script: seq<ActionRun>, check: Option<CheckFn>, s: Snapshot, left: nat, calls: nat, trace: seq<Event>)
    requires s.pos <= |script|
    requires Ordered(trace, check.Some?) && calls == Count(trace, Check) && ChecksReturned(check, calls)
    requires left > 0 || s.failed.None?
    ensures RepeatPromise(script, check, s, Count(trace, Step(true)) + left, RepeatFrom(script, check, s, left, calls, trace))
    decreases |script| - s.pos, 1
  {
    if left > 0 {
      var turn := TurnFrom(script, check, s, calls);
      if turn.result.Failure? {
        TurnFails(script, check, s, calls, trace);
      } else if turn.result.value {
        AcceptedKeeps(script, check, s, left, calls, trace);
      } else {
        RejectedKeeps(script, check, s, left, calls, trace);
      }
    }
  }

  /** After a step that returned true and a check that returned, the rest of
      the loop keeps the promise with one accepted step fewer to go. */
  lemma {:induction false} AcceptedKeeps(script: seq<ActionRun>, check: Option<CheckFn>, s: Snapshot, left: nat, calls: nat, trace: seq<Event>)
    requires s.pos <= |script| && left > 0
    requires Ordered(trace, check.Some?) && calls == Count(trace, Check) && ChecksReturned(check, calls)
    requires TurnFrom(script, check, s, calls).result == Success(true)
    ensures RepeatPromise(script, check, s, Count(trace, Step(true)) + left, RepeatFrom(script, check, s, left, calls, trace))
    decreases |script| - s.pos, 0
  {
    var turn := TurnFrom(script, check, s, calls);
    Accepted(trace, check.Some?);
    RepeatFromKeeps(script, check, turn.state, left - 1, if check.Some? then calls + 1 else calls, trace + turn.events);
  }

  /** After a step that returned false and its rejection, the rest of the
      loop keeps the promise with the same number of accepted steps to go. */
  lemma {:induction false} RejectedKeeps(script: seq<ActionRun>, check: Option<CheckFn>, s: Snapshot, left: nat, calls: nat, trace: seq<Event>)
    requires s.pos <= |script| && left > 0
    requires Ordered(trace, check.Some?) && calls == Count(trace, Check) && ChecksReturned(check, calls)
    requires TurnFrom(script, check, s, calls).result == Success(false)
    ensures RepeatPromise(script, check, s, Count(trace, Step(true)) + left, RepeatFrom(script, check, s, left, calls, trace))
    decreases |script| - s.pos, 0
  {
    var turn := TurnFrom(script, check, s, calls);
    Rejected(trace, check.Some?);
    assert trace + turn.events + [Reject] == trace + [Step(false), Reject];
    RepeatFromKeeps(script, check, turn.state, left, calls, trace + [Step(false), Reject]);
  }

  /** `Repeat` from state `s`: the check, then `failOnError`, then the loop
      with the budget of `Steps(flagSteps, short)` accepted steps. */
  function RepeatSpec(script: seq<ActionRun>, flagSteps: int, short: bool, check: Option<CheckFn>, s: Snapshot): (rr: RepeatRun)
    requires s.pos <= |script|
    ensures s.pos <= rr.state.pos <= |script| && s.draws <= rr.state.draws
    ensures rr.result.Pass? && Budget(Steps(flagSteps, short)) > 0 ==> s.pos < rr.state.pos
  {
    var c := Checked(check, s, 0);
    var trace := if check.Some? then [Check] else [];
    if c.0.Some? then RepeatRun(Fail(c.0.value), trace, c.1)
    else RepeatFrom(script, check, c.1, Budget(Steps(flagSteps, short)), |trace|, trace)
  }

  /** Every run of `Repeat` keeps `RepeatPromise` for the budget of
      `Steps(flagSteps, short)` accepted steps. */
  lemma RepeatKeeps(script: seq<ActionRun>, flagSteps: int, short: bool, check: Option<CheckFn>, s: Snapshot)
    requires s.pos <= |script|
    ensures RepeatPromise(script, check, s, Budget(Steps(flagSteps, short)), RepeatSpec(script, flagSteps, short, check, s))
  {
    var c := Checked(check, s, 0);
    var trace := if check.Some? then [Check] else [];
    if check.Some? {
      assert OrderedAt(trace, true, 0);
      assert trace == [Check] && trace[1..] == [];
      assert Count(trace, Check) == 1 + Count([], Check);
      assert Count(trace, Step(true)) == Count([], Step(true));
    }
    if c.0.None? {
      RepeatFromKeeps(script, check, c.1, Budget(Steps(flagSteps, short)), |trace|, trace);
    }
  }

  /** A check whose call number `k` (counting from 0) panics stops the run
      there: at most `k` steps are accepted, and a run that makes that call
      fails. */
  lemma CheckPanicStops(script: seq<ActionRun>, flagSteps: int, short: bool, check: Option<CheckFn>, s: Snapshot, k: nat)
    requires s.pos <= |script| && check.Some? && check.value(k).end.Panics?
    ensures var rr := RepeatSpec(script, flagSteps, short, check, s);
      && Count(rr.trace, Step(true)) <= k
      && (Count(rr.trace, Check) == k + 1 ==> rr.result.Fail?)
  {
    var rr := RepeatSpec(script, flagSteps, short, check, s);
    RepeatKeeps(script, flagSteps, short, check, s);
    ChecksPairWithSteps(rr.trace, true);
  }

  /** `if check != nil { check(t) }; t.failOnError()`, where `calls` calls
      of the check came before. */
  method CheckThenFailOnError(t: T, check: Option<CheckFn>, calls: nat) returns (raised: Option<Signal>)
    modifies t`draws, t`failed
    ensures (raised, t.State()) == Checked(check, old(t.State()), calls)
  {
    if check.Some? {
      raised := CallCheck(t, check.value(calls));
      if raised.Some? {
        return;
      }
    }
    raised := t.FailOnError();
  }

  /** A turn of the loop of `Repeat` from state `cur`: `executeAction`;
      after a step that returned true, the check and `failOnError`; after one
      that returned false, `repeat.reject()`. `left` accepted steps are still
      allowed, `calls` calls of the check were made and `trace` was done
      before it; `left'`, `calls'` and `trace'` are their values after it,
      and `next` the new state. The rest of the run is what the rest of the
      loop does from there. */
  method RepeatTurn(t: T, check: Option<CheckFn>, repeat: Repeater, ghost script: seq<ActionRun>,
                    ghost cur: Snapshot, ghost left: nat, calls: nat, trace: seq<Event>)
    returns (r: Result<bool, Signal>, ghost next: Snapshot, ghost left': nat, calls': nat, trace': seq<Event>)
    requires t.Valid() && t.script == script && t.State() == cur && left > 0
    modifies t`draws, t`failed, t`open, t`pos, repeat
    ensures t.Valid() && t.script == script && t.State() == next
    ensures r.Failure? ==>
      RepeatFrom(script, check, cur, left, calls, trace) == RepeatRun(Fail(r.error), trace', next)
    ensures r.Success? ==>
      && left' == (if r.value then left - 1 else left)
      && RepeatFrom(script, check, cur, left, calls, trace) == RepeatFrom(script, check, next, left', calls', trace')
    ensures r.Success? ==> next.pos > cur.pos
    ensures r.Success? ==> repeat.remaining == old(repeat.remaining) + (if r.value then 0 else 1)
  {
    r := ExecuteAction(t);
    calls', trace', left' := calls, trace, left;
    if r.Success? {
      if r.value {
        trace' := trace + ([Step(true)] + if check.Some? then [Check] else []);
        left' := left - 1;
        var raised := CheckThenFailOnError(t, check, calls);
        if raised.Some? {
          r := Failure(raised.value);
        } else if check.Some? {
          calls' := calls + 1;
        }
      } else {
        repeat.Reject();
        trace' := trace + [Step(false)] + [Reject];
      }
    }
    next := t.State();
  }

  /** `Repeat`: runs the check, then steps while the repeat allows more; an
      accepted step is followed by the check, a rejected one by
      `repeat.reject()`. A panic ends it at once (`Fail`); `trace` is what
      it did up to then. */
  method Repeat(t: T, flagSteps: int, short: bool, check: Option<CheckFn>)
    returns (r: Outcome<Signal>, trace: seq<Event>)
    requires t.Valid()
    modifies t
    ensures t.Valid() && t.script == old(t.script)
    ensures RepeatRun(r, trace, t.State()) == RepeatSpec(t.script, flagSteps, short, check, old(t.State()))
    ensures t.draws >= old(t.draws)
    ensures Ordered(trace, check.Some?)
    ensures ChecksReturned(check, Count(trace, Check) - if r.Pass? then 0 else 1)
    ensures r.Pass? ==>
      Count(trace, Step(true)) == Budget(Steps(flagSteps, short)) && t.open == old(t.open) && t.failed.None?
    ensures r.Fail? ==> Explained(t.script, check, RepeatRun(r, trace, t.State()))
  {
    ghost var s0, script := t.State(), t.script;
    ghost var spec := RepeatSpec(script, flagSteps, short, check, s0);
    RepeatKeeps(script, flagSteps, short, check, s0);
    var steps := Steps(flagSteps, short);
    var repeat := new Repeater(steps);
    trace := if check.Some? then [Check] else [];
    assert t.State() == s0;
    var raised := CheckThenFailOnError(t, check, 0);
    if raised.Some? {
      return Fail(raised.value), trace;
    }
    var calls: nat := |trace|;
    ghost var cur := t.State();
    ghost var left := Budget(steps);
    assert spec == RepeatFrom(script, check, cur, left, calls, trace);
    var more := repeat.More();
    while more
      invariant t.Valid() && t.script == script && t.State() == cur
      invariant left == repeat.remaining + (if more then 1 else 0)
      invariant !more ==> repeat.remaining == 0
      invariant spec == RepeatFrom(script, check, cur, left, calls, trace)
      decreases |script| - cur.pos
    {
      var ok;
      ok, cur, left, calls, trace := RepeatTurn(t, check, repeat, script, cur, left, calls, trace);
      if ok.Failure? {
        return Fail(ok.error), trace;
      }
      more := repeat.More();
    }
    r := Pass;
  }

  // ---------------------------------------------------------------------
  // StateMachineActions
  // ---------------------------------------------------------------------

  /** A method of the state machine's type: its name, and whether its value
      has type `func(*T)`. */
  datatype MethodInfo = MethodInfo(name: string, isAction: bool)

  /** An action: its name and the index of the method it calls. */
  datatype StateMachineAction = StateMachineAction(name: string, index: nat)

  /** The actions among the first `n` methods: those of type `func(*T)`, in
      method order, each under its method's name. */
  function ActionsAmong(methods: seq<MethodInfo>, n: nat): (actions: seq<StateMachineAction>)
    requires n <= |methods|
    ensures |actions| <= n
    ensures forall j :: 0 <= j < |actions| ==>
      actions[j].index < n && methods[actions[j].index].isAction
      && actions[j].name == methods[actions[j].index].name
    ensures forall j, k :: 0 <= j < k < |actions| ==> actions[j].index < actions[k].index
  {
    if n == 0 then []
    else if methods[n - 1].isAction then
      ActionsAmong(methods, n - 1) + [StateMachineAction(methods[n - 1].name, n - 1)]
    else ActionsAmong(methods, n - 1)
  }

  /** No action method is dropped. */
  lemma {:induction false} ActionsAmongComplete(methods: seq<MethodInfo>, n: nat, i: nat)
    requires i < n <= |methods| && methods[i].isAction
    ensures exists j :: 0 <= j < |ActionsAmong(methods, n)| && ActionsAmong(methods, n)[j].index == i
  {
    var actions := ActionsAmong(methods, n);
    if i == n - 1 {
      assert actions[|actions| - 1].index == i;
    } else {
      ActionsAmongComplete(methods, n - 1, i);
      var j :| 0 <= j < |ActionsAmong(methods, n - 1)| && ActionsAmong(methods, n - 1)[j].index == i;
      assert actions[j] == ActionsAmong(methods, n - 1)[j];
    }
  }

  function NoActionsMsg(typeName: string): string
  {
    "state machine of type " + typeName + " has no actions specified"
  }

  /** `StateMachineActions`: the methods of type `func(*T)`, in order; a type
      without any is refused with the message of the `assertf`. */
  method StateMachineActions(typeName: string, methods: seq<MethodInfo>)
    returns (r: Result<seq<StateMachineAction>, string>)
    ensures r.Success? ==> r.value == ActionsAmong(methods, |methods|) && |r.value| > 0
    ensures r.Failure? <==> forall i :: 0 <= i < |methods| ==> !methods[i].isAction
    ensures r.Failure? ==> r.error == NoActionsMsg(typeName)
  {
    var actions: seq<StateMachineAction> := [];
    for i := 0 to |methods|
      invariant actions == ActionsAmong(methods, i)
    {
      if methods[i].isAction {
        actions := actions + [StateMachineAction(methods[i].name, i)];
      }
    }
    if |actions| == 0 {
      forall i | 0 <= i < |methods|
        ensures !methods[i].isAction
      {
        if methods[i].isAction {
          ActionsAmongComplete(methods, |methods|, i);
        }
      }
      return Failure(NoActionsMsg(typeName));
    }
    assert methods[actions[0].index].isAction;
    return Success(actions);
  }
}
