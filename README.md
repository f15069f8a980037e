# rapid state-machine executor, modelled in Dafny

This project models the state-machine executor of the Go property-testing
library rapid (`statemachine.go`). `Repeat` runs a random sequence of actions
against a system under test and calls an optional invariant check before the
first step and after each accepted step. Each step goes through
`executeAction`. It opens an `"action"` draw group on the data source, draws
an action, runs it through `runAction` and closes the group.

`runAction` turns the action's outcome into the pair `(invalid, skipped)`:

- an action that returns, with no failure recorded, gives `(false, false)`;
- an `invalidData` panic gives `invalid = true`, and `skipped` is true when
  the draw counter `t.draws` did not move during the action;
- any other panic is raised again.

`executeAction` retries skipped attempts, up to `validActionTries = 100`.
If all 100 attempts skip, it stops the test with "can't find a valid
(non-skipped) action". `StateMachineActions` builds the action list from the
methods of a state-machine type that have type `func(*T)`.

Files:

- `wrappers.dfy`: `Option`, `Result`, `Outcome`.
- `engine.dfy`: the test handle `*T` as the class `Engine.T`. It holds the
  draw counter, the failure recorded on `t`, the stack of open draw groups
  and the script of actions that the data source makes the action generator
  draw. `Signal` lists the panic values the core tells apart.
- `statemachine.dfy`: `runAction`, `executeAction`, `Repeat` and
  `StateMachineActions`.

A Go panic becomes a value. `runAction` returns `Result<Verdict, Signal>`.
`executeAction` returns `Result<bool, Signal>`. `Repeat` returns
`Outcome<Signal>` together with the trace of what it did (`Check`,
`Step(ok)`, `Reject`), so that the order of checks, steps and rejections can
be stated.

The engine chooses the action, and what the chosen action then does depends
on the system under test. Both are inputs to the model. `T.script` lists, in
order, what each drawn action does: how many values it draws, which failure
it records on `t`, and whether it returns or panics. The invariant check is
given the same way, as the behaviour of its k-th call.

The model follows the code, including where it reads differently from the
code's own comments or from what one might expect:

- The doc comment of `Repeat` (statemachine.go:23) says that the check "is
  ran initially once and after every action". The loop at
  statemachine.go:47-55 runs it only after a step whose `executeAction`
  returned true. After a step that returned false, only `repeat.reject()`
  runs. The model runs the check as the loop does.
- Only attempts that give up as invalid *without drawing* are retried, and
  only they use up the 100 tries (statemachine.go:115-116). An attempt that
  gives up as invalid *after drawing* ends `executeAction` at once with
  `false`, which `Repeat` handles as a rejection (statemachine.go:54).
- When `runAction` raises a panic again, `t.s.endGroup` at
  statemachine.go:113 is never reached, so the attempt's group stays open.
  The model leaves that group open.

`executeAction` is modelled twice and the two are proved to agree.
`ExecuteFrom` follows the loop one attempt at a time, and `ExecuteAction` is
proved equal to it. `Execute` describes the whole call at once. `Repeat` is
proved equal to `RepeatSpec`, which is built from `ExecuteFrom` and the
check's calls. Its result, its trace and the new state of `t` are therefore
fixed by the script and the check. The lemmas about `RepeatSpec` give the
order of events, the accepted-step count and the reason for a failure.

## Model

| member | source | states |
|---|---|---|
| StateMachine.Recover | statemachine.go:126-135 | The deferred recover. With no panic the verdict is (false, false). The verdict is invalid iff the panic is `invalidData`. It is skipped iff the panic is `invalidData` and the draw count at recovery equals the count captured at the defer. Any other panic comes back out unchanged as the error. |
| StateMachine.Classify | statemachine.go:125-141 | What `runAction` yields for one run. The verdict is (false, false) iff the body returns and no failure is recorded, so `failOnError` does not raise. It is skipped iff the run panics with `invalidData` having drawn nothing. It is invalid iff the body panics with `invalidData`. `invalidData` never escapes. Any other panic of the body, or the failure raised by `failOnError`, is the error. |
| StateMachine.RunAction | statemachine.go:125-141 | The method captures `t.draws` before the body runs, runs the body and then `failOnError`, and recovers. The result is `Classify` of the failure recorded beforehand. The draw counter grows by the body's draws. The body's reported failure is recorded. |
| StateMachine.LeadingSkips | statemachine.go:109-117 | The number of attempts at the head of the script that skip. All runs before it skip, and the run at that index, if any, does not. |
| StateMachine.Execute | statemachine.go:106-123 | `executeAction` on the upcoming runs. It makes at most 100 attempts, and every attempt but the last skipped. A true or false result comes from a non-skipping attempt whose group was closed. True means that attempt returned. False means it panicked with `invalidData` after drawing. `invalidData` raised by an action body never escapes. The result is an error with every group closed iff the first 100 attempts all skip, and then the error is `stopTest("can't find a valid (non-skipped) action")` after exactly 100 attempts. |
| StateMachine.ExecuteCompletes | statemachine.go:115-119 | Both directions: the result is true iff some attempt k < 100 has only skipping attempts before it and runs to completion with no failure recorded. |
| StateMachine.ExecuteRejects | statemachine.go:115-119 | Both directions: the result is false iff some attempt k < 100 has only skipping attempts before it and panics with `invalidData` after drawing. Such an attempt is not retried. |
| StateMachine.AfterExecute | statemachine.go:106-123 | `executeAction` from a state of `t`, as `Execute` on the actions still to be drawn. The position and the draw count never go back. A true or false result has drawn at least one action and leaves the open groups as they were. |
| StateMachine.ExecuteFrom | statemachine.go:109-122 | The loop from attempt `n`, one attempt at a time. After 100 attempts it stops the test. An attempt with nothing to draw, or whose action panics with anything but `invalidData`, ends the call with its group open. A skipping attempt moves on to the next. Its contract: the position and the draw count never go back, and a true or false result has drawn an action and leaves the open groups as they were. |
| StateMachine.SkipOne | statemachine.go:115-116 | An attempt that skips leads to the next attempt from the state one action further on, and the run of skipped attempts grows by one. |
| StateMachine.DecideOne | statemachine.go:111-119 | The first attempt that does not skip ends the loop with the result and state that `Execute` gives. |
| StateMachine.RunOut | statemachine.go:110-122 | After 100 skipping attempts the loop ends with `stopTest` as `Execute` does. With nothing left to draw, it ends with `Exhausted` and the group left open, as `Execute` does. |
| StateMachine.ExecuteFromAgrees | statemachine.go:106-123 | From any attempt `n` whose predecessors all skipped, the loop ends exactly as `Execute` from the start of the call. The result, position, draw count, recorded failure and open groups all agree. |
| StateMachine.ExecuteFromStart | statemachine.go:106-123 | The loop from its first attempt equals `AfterExecute`, that is `Execute` on the upcoming actions. |
| StateMachine.Attempt | statemachine.go:110-119 | One attempt: begin the group, draw, run, end the group. An attempt that ends the call returns the result and state of the loop. A skipped attempt leaves a state from which the next attempt gives the same end as the loop. A re-raised panic leaves the group open. |
| StateMachine.ExecuteAction | statemachine.go:106-123 | The result and the new position, draw count, recorded failure and open groups equal `ExecuteFrom` from the old state. By `ExecuteFromStart` they equal `Execute` on the upcoming script. The script is unchanged. |
| StateMachine.Steps | statemachine.go:32-35 | The step count is `flags.steps`, or half of it in short mode, rounded toward zero as Go's integer division does. |
| StateMachine.Repeater.constructor | statemachine.go:37 | `newRepeat` starts with a budget of `steps` accepted steps, none when `steps` is not positive. |
| StateMachine.Repeater.More | statemachine.go:46 | `repeat.more` is true iff budget remains, and a true answer takes one step from it. |
| StateMachine.Repeater.Reject | statemachine.go:54 | `repeat.reject` gives the step back to the budget. |
| StateMachine.CallCheck | statemachine.go:42-44 | `check(t)` draws and records failures like a body. Its panic is returned unrecovered. |
| StateMachine.Checked | statemachine.go:42-45 | `if check != nil { check(t) }; t.failOnError()` from a state, as a value. The same code runs after an accepted step at :49-52. The position and open groups stay as they were and the draw count never goes back. When the check's call panics, that panic is the result. Otherwise the result is `Failed(msg)` for the failure recorded after the check, if any. Nothing is raised iff the check returned and no failure is recorded. |
| StateMachine.CheckThenFailOnError | statemachine.go:42-45 | `if check != nil { check(t) }; t.failOnError()` ends as `Checked` says. A panic of the check is returned and `failOnError` is not reached. Otherwise the failure recorded after the check is raised as `Failed(msg)`. The check's draws and reports land on `t`. |
| StateMachine.ExecuteFailure | statemachine.go:106-123 | A failing `executeAction` fails for a reason `Explained` lists. It raises `stopTest` after the last 100 actions drawn all skipped, or `Exhausted` with the script used up. Otherwise it passes on the last action's panic, or the recorded failure as `Failed(msg)`, and never `invalidData`. |
| StateMachine.TurnFrom | statemachine.go:47-55 | A turn from state `s`: `executeAction`, then after true the check and `failOnError`. The position and draw count never go back. A turn that does not panic has drawn an action and leaves the open groups as they were. |
| StateMachine.TurnFails | statemachine.go:47-52 | A turn that panics leaves an ordered trace. Every earlier call of the check returned. The panic is one `Explained` lists. |
| StateMachine.RepeatFrom | statemachine.go:46-56 | The `for repeat.more` loop from a state, as a value. It passes when no budget is left. A turn that panics ends the run with `Fail`, that panic, and the trace and state reached. A step that returned true uses one unit of budget and, with a check, one check call. A step that returned false appends `Reject` and keeps the budget. Its contract: the position and draw count never go back, and a run that passes with budget left has drawn at least one action. |
| StateMachine.RepeatFromKeeps | statemachine.go:46-56 | For every run of the loop from an ordered trace, the trace stays ordered. Every call of the check but a last one that ends the run returned. A run that fails does so for a reason `Explained` lists. Under the model's step budget (see Left out), a run that passes accepted exactly `left` more steps, left the open groups as they were and has no failure recorded. |
| StateMachine.AcceptedKeeps | statemachine.go:47-52 | After a step that returned true and a check that returned, the rest of the loop keeps the same promise with one accepted step fewer to go. |
| StateMachine.RejectedKeeps | statemachine.go:53-55 | After a step that returned false and its `reject`, the rest of the loop keeps the same promise with as many accepted steps to go. |
| StateMachine.RepeatSpec | statemachine.go:29-57 | All of `Repeat` from a state, as a value. It halves the steps in short mode and runs the initial check and `failOnError`, then the loop with the budget of `Steps(flagSteps, short)` accepted steps. A panic of the initial check or failure ends it with `Fail`. Its contract: the position and draw count never go back, and a run that passes with a positive budget has drawn at least one action. |
| StateMachine.RepeatKeeps | statemachine.go:29-57 | Every run of `RepeatSpec` keeps the promise of `RepeatFromKeeps` for the budget of `Steps(flagSteps, short)` accepted steps, with the initial check and `failOnError` first. |
| StateMachine.CheckPanicStops | statemachine.go:42-52 | When call number `k` of the check panics, at most `k` steps are accepted. A run that makes that call fails. |
| StateMachine.RepeatTurn | statemachine.go:47-55 | One turn of the loop from state `cur`. The turn runs `executeAction`, then the check and `failOnError` after true, or `repeat.reject()` after false. A panic ends the run as `RepeatFrom` says, with the panic, the trace and the new state. Otherwise the rest of the run from before the turn equals the rest of the loop from after it. The budget is given back after false. The position moves forward. |
| StateMachine.Repeat | statemachine.go:29-57 | The result, the trace and the new position, draw count, recorded failure and open groups equal `RepeatSpec` of the script, the steps flag, short mode and the check from the old state. The trace is `Ordered`. Every call of the check returned, except a last one that ends the run. On a normal return the open groups are as before. Under the model's step budget (see Left out), exactly `Budget(Steps(...))` steps were accepted and no failure is recorded. On `Fail`, the error is one `Explained` lists: `Failed(msg)` for the recorded failure, the check's own panic, `stopTest` after 100 skipping attempts, `Exhausted`, or the action's panic unchanged. |
| StateMachine.Accepted | statemachine.go:47-52 | An accepted step, followed by the check when there is one, keeps the trace ordered. It adds one accepted step and one call of the check (none without a check). |
| StateMachine.Rejected | statemachine.go:53-55 | A step that returned false, followed by `reject`, keeps the trace ordered. It adds neither an accepted step nor a call of the check. |
| StateMachine.ChecksPairWithSteps | statemachine.go:42-56 | In any ordered trace, the check runs exactly once more than the number of accepted steps (never without a check), and rejections equal the steps that returned false. |
| StateMachine.ActionsAmong | statemachine.go:85-95 | Every collected action comes from a method of type `func(*T)` and carries that method's name. The actions are in strictly increasing method order. |
| StateMachine.ActionsAmongComplete | statemachine.go:86-95 | No method of type `func(*T)` is left out of the collected actions. |
| StateMachine.StateMachineActions | statemachine.go:78-100 | On success the result is exactly the `func(*T)` methods, in order and under their names, and it is non-empty. The call fails iff no method has type `func(*T)`, and then it fails with the message of the `assertf`. |
| Engine.T.BeginGroup | statemachine.go:110 | Opens an `"action"` group on top of the open groups and returns its handle. |
| Engine.T.EndGroup | statemachine.go:113 | Closes the group that the handle names, which is the innermost one. |
| Engine.T.DrawAction | statemachine.go:111 | Draws the next scripted action and counts one draw. With the script used up it raises `Exhausted` and changes nothing. |
| Engine.T.Run | statemachine.go:137 | Running a body adds its draws to `t.draws` and records its failure unless one is already recorded. |
| Engine.T.FailOnError | statemachine.go:138 | Raises the recorded failure iff one is recorded. |

## Left out

- Reflection (`reflect.ValueOf`, `Method(i).Interface()`): `StateMachineActions` takes the list of methods as `(name, has type func(*T))` pairs, and an action records the index of its method instead of the bound function value.
- `SampledFrom` and the generator `Draw` are not modelled. The draw of an action at statemachine.go:111 is the next entry of the script and counts as one draw of `t.draws`. The engine's own panics during that draw (such as running out of data) are modelled by the single signal `Exhausted` when the script is used up.
- The data source's recording and shrinking are not modelled. Only the stack of open groups and the draw counter are kept.
- `newRepeat`, `repeat.more` and `repeat.reject` take a floating-point average step count and use rejection-rate heuristics that are not part of this model. `Repeater` keeps only a budget of accepted steps: `more` takes one step, `reject` gives it back. A step count that is not positive gives no steps.
- StateMachine.Repeater.Reject: does not model the "too many rejections" limit of the real `repeat`. In the model, rejected steps are bounded only by the length of the script.
- StateMachine.Repeat: the `Pass` clauses "exactly `Budget(Steps(...))` steps were accepted" and "no failure is recorded" hold only under the model's step budget. In the model, `reject` gives the step back, so the loop never stops right after a rejection, and it stops only after an accepted step whose `failOnError` found nothing, or at once when the budget is zero, after the initial `failOnError`. The real `repeat.more` works from an average step count and a rejection limit, so the real loop can stop right after `repeat.reject()` (statemachine.go:54). A rejected step can leave a failure recorded: a body that records a failure, draws and then gives up as invalid. `Repeat` then returns normally with that failure still recorded, and only a later `failOnError` outside this core raises it. The accepted-step count can also be lower than the budget.
- StateMachine.RepeatFromKeeps: the same limit applies to its `Pass` clauses, and through it to `StateMachine.RepeatKeeps`.
- `testing.Short()` and `flags.steps` are parameters of `Repeat`.
- `t.Helper()`, `GoString`, `ActionName` and the `fmt` formatting are not modelled. The `%v` of the type in the `assertf` message is the type name given as a parameter. `assertf` is modelled as returning the failure message instead of panicking.
- The internals of `failOnError` and of `t.Error` and its relatives are not part of this model. A recorded failure is an `Option<string>`: the first recorded failure is kept, and `failOnError` raises it as `Failed(msg)`.
- Concurrency is not modelled: a test runs its steps one after another on one test handle.
