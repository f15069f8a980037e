/** The part of rapid's test handle `*T` and of its data source `t.s` that the
    state-machine executor touches: the draw counter `t.draws`, the failure
    recorded on `t` (raised by `failOnError`), the stack of open draw groups,
    and the sequence of actions the data source will make the action
    generator draw. Random generation and shrinking are not modelled: what the
    engine draws, and what the drawn action's body then does, is a script. */
module Engine {
  import opened Wrappers

  /** The values a panic can carry, as far as this core tells them apart. */
  datatype Signal =
    | InvalidData(msg: string)  // rapid's `invalidData`: the test case is not valid
    | StopTest(msg: string)     // rapid's `stopTest`: end the test with a message
    | Failed(msg: string)       // the failure recorded on `t`, raised by `failOnError`
    | Exhausted                 // the data source has no further action to draw
    | Other(msg: string)        // any other panic: a failed assertion, a runtime error

  /** How a call of an action body (or of the invariant check) ends: it
      returns, or it panics with a signal. */
  datatype BodyEnd = Returns | Panics(signal: Signal)

  /** What one call of an action body or check does in the state it runs in:
      how many values it draws, which failure it records on `t` (through
      `t.Error` and friends), if any, and how it ends. */
  datatype ActionRun = ActionRun(draws: nat, reports: Option<string>, end: BodyEnd)

  /** The failure recorded on `t` once a body that reports `reports` has run:
      a failure already recorded stays. */
  function Record(failed: Option<string>, reports: Option<string>): Option<string>
  {
    if failed.Some? then failed else reports
  }

  /** The parts of `T` that running a test changes, as a value. */
  datatype Snapshot = Snapshot(pos: nat, draws: nat, failed: Option<string>, open: seq<string>)

  /** The test handle `*T` with the bookkeeping of its data source. */
  class T {
    var draws: nat              // t.draws: number of values drawn so far
    var failed: Option<string>  // the failure recorded on t, if any
    var open: seq<string>       // labels of the draw groups begun and not yet ended
    var script: seq<ActionRun>  // the actions the data source makes the action generator draw
    var pos: nat                // how many of them have been drawn

    ghost predicate Valid()
      reads this
    {
      pos <= |script|
    }

    /** The actions still to be drawn. */
    function Upcoming(): (runs: seq<ActionRun>)
      reads this
      requires Valid()
      ensures |runs| == |script| - pos
    {
      script[pos..]
    }

    /** The current position, draw count, recorded failure and open groups. */
    function State(): Snapshot
      reads this
    {
      Snapshot(pos, draws, failed, open)
    }

    constructor (script: seq<ActionRun>, failed: Option<string>)
      ensures Valid() && this.script == script && Upcoming() == script
      ensures draws == 0 && this.failed == failed && open == []
    {
      this.script := script;
      this.failed := failed;
      pos := 0;
      draws := 0;
      open := [];
    }

    /** `t.s.beginGroup(name, false)`: opens a draw group and returns its handle. */
    method BeginGroup(name: string) returns (h: nat)
      modifies this`open
      ensures h == |old(open)| && open == old(open) + [name]
    {
      h := |open|;
      open := open + [name];
    }

    /** `t.s.endGroup(h, false)`: closes the innermost group, the one `h` names. */
    method EndGroup(h: nat)
      requires |open| == h + 1
      modifies this`open
      ensures open == old(open)[..h]
    {
      open := open[..h];
    }

    /** `Draw` on the actions generator: the next scripted action, counted as
        one draw; with nothing left to draw, the draw raises `Exhausted`. */
    method DrawAction() returns (r: Result<ActionRun, Signal>)
      requires Valid()
      modifies this`pos, this`draws
      ensures Valid()
      ensures old(pos) < |script| ==>
        r == Success(script[old(pos)]) && pos == old(pos) + 1 && draws == old(draws) + 1
      ensures old(pos) == |script| ==>
        r == Failure(Exhausted) && pos == old(pos) && draws == old(draws)
    {
      if pos < |script| {
        r := Success(script[pos]);
        pos := pos + 1;
        draws := draws + 1;
      } else {
        r := Failure(Exhausted);
      }
    }

    /** The effect on `t` of running a body: its draws and the failure it reports. */
    method Run(run: ActionRun)
      modifies this`draws, this`failed
      ensures draws == old(draws) + run.draws
      ensures failed == Record(old(failed), run.reports)
    {
      draws := draws + run.draws;
      failed := Record(failed, run.reports);
    }

    /** `t.failOnError()`: raises the recorded failure, if there is one. */
    method FailOnError() returns (raised: Option<Signal>)
      ensures raised.None? <==> failed.None?
      ensures failed.Some? ==> raised == Some(Failed(failed.value))
    {
      raised := if failed.Some? then Some(Failed(failed.value)) else None;
    }
  }
}
