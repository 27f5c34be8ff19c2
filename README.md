# Adaptive population seeding in dynamic software project scheduling

This project models the control part of a rescheduling engine for the
Dynamic Software Project Scheduling Problem. Each time an employee leaves or
returns, the project is re-optimised. The engine then decides how the next
initial population is mixed from historical, repaired and random
individuals.

The model covers three parts:

- **The six-armed bandit** (`MAB`, module `Bandit`, file `bandit.dfy`).
  - It holds the historical and repaired shares.
  - Each arm moves one step of 0.05 between two of the three shares. A guard
    refuses the move when the donor share is at 0.10 or below.
  - It keeps a pull count and an accumulated reward per arm, plus a trial
    counter.
  - It has three policies: a random redraw, UCB1 and epsilon-greedy
    (epsilon = 0.5). The two pulling policies pull arms 0..5 in order during
    cold start. After cold start UCB1 pulls the arm with the best UCB score;
    epsilon-greedy pulls the drawn arm when its coin is below 0.5 and the arm
    with the best mean otherwise.
  - Shares are counted in twentieths, so every value the controller can
    reach from an on-grid start is exact.
  - The pure functions on `BanditState` are the specification. Each `MAB`
    method is proved to move `State()` exactly as the matching function does.
- **The experiment runner's control loop** (`ExperimentRunner`, module
  `Experiment`, file `experiment.dfy`).
  - It counts reschedulings and stops on a finished project or on the
    rescheduling limit.
  - It picks a repair strategy by event type.
  - Its seeding gate admits only the second and later reschedulings of
    identifiers containing "DYNAMIC" in any case.
  - It dispatches on the identifier prefix (`NSGAIIDynamic_RANDOM`,
    `NSGAIIDynamic_UCB1`, `NSGAIIDynamic_EPSILON_GREEDY`).
  - When the gate is open, it runs the selected policy and copies the
    bandit's weights into the settings (also when no prefix matches).
  - It credits the hypervolume reward to the bandit whenever the project is
    still unfinished after the rescheduling, gate open or not.
  - It records every front in the scheduling history.
  - Each run starts from a fresh bandit.
  - The optimiser, project, decision maker and hypervolume are collaborators.
    What the loop learns from them arrives as one `Outcome` per event. The
    random draws and the UCB exploration terms arrive in that same record.
- **The task record** (`Task`, module `Project`, file `task.dfy`): the
  constructors, accessors and `isTaskRunning`.

`text.dfy` holds the upper-casing and substring search that the gate uses.
`options.dfy` holds the `Option` type.

Two points where the code is looser than one might expect, modelled as written:

- Nothing in `Task.java` keeps `start <= finish`: the setters store any
  value, and `Project.RunningInterval` states what that means for
  `IsTaskRunning`.
- The rescheduling limit is its own test in the loop, made after the counter
  is bumped (`ExperimentRunner.java`, lines 122-124); the project's
  `isFinished` is an input.

## Model

| member | source | states |
|---|---|---|
| Bandit.Step | src/main/java/net/rodrigoamaral/dspsp/experiment/MAB.java:58-85 | a pull keeps every share at or above 0.05 once all are, and raises hist + repaired by at most one step |
| Bandit.StepIsGuardedTransfer | src/main/java/net/rodrigoamaral/dspsp/experiment/MAB.java:60-82 | each arm moves one step from its donor share to a different recipient share; the move is refused exactly when the donor holds 0.10 or less; the third share never moves |
| Bandit.Initial | src/main/java/net/rodrigoamaral/dspsp/experiment/MAB.java:21-34 | a new controller has the given weights, all counts and rewards zero, time 0, last arm 0, and satisfies the invariant |
| Bandit.Pull | src/main/java/net/rodrigoamaral/dspsp/experiment/MAB.java:58-86 | pulling an arm keeps the controller invariant (counts non-negative, every arm below `time` pulled) |
| Bandit.PullCountsExactlyOne | src/main/java/net/rodrigoamaral/dspsp/experiment/MAB.java:58-66 | a pull adds exactly one to the pulled arm's count and nothing to the others, even when the move is refused; a refused move keeps weights and last arm |
| Bandit.FirstBestIsFirstMaximum | src/main/java/net/rodrigoamaral/dspsp/experiment/MAB.java:113-122 | the scan (start at -1, strict `>`) chooses exactly the lowest-index arm of maximal score, or arm 0 when no score exceeds -1 |
| Bandit.ScanBest | src/main/java/net/rodrigoamaral/dspsp/experiment/MAB.java:143-151 | the exploitation loop returns the arm `FirstBest` specifies |
| Bandit.Redraw | src/main/java/net/rodrigoamaral/dspsp/experiment/MAB.java:94-99 | a random redraw keeps the controller invariant |
| Bandit.UCB1Arm | src/main/java/net/rodrigoamaral/dspsp/experiment/MAB.java:108-123 | UCB1 always chooses an existing arm |
| Bandit.GreedyArm | src/main/java/net/rodrigoamaral/dspsp/experiment/MAB.java:136-152 | epsilon-greedy always chooses an existing arm |
| Bandit.UCB1 | src/main/java/net/rodrigoamaral/dspsp/experiment/MAB.java:107-127 | a UCB1 call keeps the invariant, so every mean it divides by has a positive count |
| Bandit.EpsilonGreedy | src/main/java/net/rodrigoamaral/dspsp/experiment/MAB.java:135-156 | an epsilon-greedy call keeps the invariant, so every mean it divides by has a positive count |
| Bandit.Credit | src/main/java/net/rodrigoamaral/dspsp/experiment/MAB.java:158-160 | inserting a reward keeps the invariant |
| Bandit.Apply | src/main/java/net/rodrigoamaral/dspsp/experiment/MAB.java:94-156 | every policy call keeps the invariant and the rewards; pulling policies tick `time` once, a redraw does not; the 0.05 floor survives every call, and a redraw always restores it with both shares at most 0.90 |
| Bandit.PolicyPullsChosenArm | src/main/java/net/rodrigoamaral/dspsp/experiment/MAB.java:107-156 | a pulling policy call is one pull of its chosen arm followed by a tick; during cold start the chosen arm is `time` |
| Bandit.ColdStartStep | src/main/java/net/rodrigoamaral/dspsp/experiment/MAB.java:110-111 | with arms 0..k-1 pulled once, the next cold-start call pulls arm k |
| Bandit.ColdStartPullsInOrder | src/main/java/net/rodrigoamaral/dspsp/experiment/MAB.java:108-126 | from a fresh controller, the first six pulling calls pull arms 0..5 in order, whatever is drawn |
| Bandit.TrialsMatchPulls | src/main/java/net/rodrigoamaral/dspsp/experiment/MAB.java:59-156 | from a fresh controller the pull counts always add up to `time` |
| Bandit.FloorKept | src/main/java/net/rodrigoamaral/dspsp/experiment/MAB.java:88-106 | every share keeps at least 0.05 over any sequence of calls once it does (a redraw establishes it) |
| Bandit.RewardGoesToLastAcceptedArm | src/main/java/net/rodrigoamaral/dspsp/experiment/MAB.java:85-159 | a reward after a pull is added to the pulled arm if its move was accepted, otherwise to the previously credited arm, and to no other arm |
| Bandit.MAB.constructor | src/main/java/net/rodrigoamaral/dspsp/experiment/MAB.java:21-34 | the object's state is `Initial` of the given weights, in fresh arrays |
| Bandit.MAB.GetHist | src/main/java/net/rodrigoamaral/dspsp/experiment/MAB.java:40-42 | the historical share as a fraction: 20 times it is the share in twentieths |
| Bandit.MAB.GetRepaired | src/main/java/net/rodrigoamaral/dspsp/experiment/MAB.java:36-38 | the repaired share as a fraction: 20 times it is the share in twentieths |
| Bandit.MAB.PullArm | src/main/java/net/rodrigoamaral/dspsp/experiment/MAB.java:58-86 | the in-place pull (early returns on the guards) moves the state as `Pull` does |
| Bandit.MAB.UpdWeightsRandom | src/main/java/net/rodrigoamaral/dspsp/experiment/MAB.java:94-99 | the new weights are (1 + first)/20 and (1 + second)/20, as `Redraw` says |
| Bandit.MAB.UpdWeightsUCB1 | src/main/java/net/rodrigoamaral/dspsp/experiment/MAB.java:107-127 | cold-start arm or scan over mean + exploration, then pull and tick, as `UCB1` says |
| Bandit.MAB.UpdWeightsEpsilonGreedy | src/main/java/net/rodrigoamaral/dspsp/experiment/MAB.java:135-156 | cold-start arm, random arm below epsilon, or scan over the means, then pull and tick, as `EpsilonGreedy` says |
| Bandit.MAB.InsertReward | src/main/java/net/rodrigoamaral/dspsp/experiment/MAB.java:158-160 | the reward is added in place to the last arm's total, as `Credit` says |
| Text.ToUpper | src/main/java/net/rodrigoamaral/dspsp/experiment/ExperimentRunner.java:187 | upper-casing keeps the length and maps each character on its own |
| Text.ContainsIffOccurs | src/main/java/net/rodrigoamaral/dspsp/experiment/ExperimentRunner.java:187 | the substring search is true exactly when the pattern occurs at some position |
| Project.Task.constructor | src/main/java/net/rodrigoamaral/spsp/project/Task.java:19-23 | id and effort as given, an empty skill list, duration/start/finish 0, running at instant 0 |
| Project.Task.WithId | src/main/java/net/rodrigoamaral/spsp/project/Task.java:25-27 | id as given, effort and times 0, no skill list |
| Project.Task.GetId | src/main/java/net/rodrigoamaral/spsp/project/Task.java:29-31 | returns the stored id; after `SetId`, the value last set |
| Project.Task.GetEffort | src/main/java/net/rodrigoamaral/spsp/project/Task.java:37-39 | returns the stored effort; after `SetEffort`, the value last set |
| Project.Task.GetDuration | src/main/java/net/rodrigoamaral/spsp/project/Task.java:45-47 | returns the stored duration; after `SetDuration`, the value last set |
| Project.Task.GetStart | src/main/java/net/rodrigoamaral/spsp/project/Task.java:53-55 | returns the stored start; after `SetStart`, the value last set |
| Project.Task.GetFinish | src/main/java/net/rodrigoamaral/spsp/project/Task.java:61-63 | returns the stored finish; after `SetFinish`, the value last set |
| Project.Task.GetSkills | src/main/java/net/rodrigoamaral/spsp/project/Task.java:69-71 | returns the stored skill list (absent for a task built from an id only); after `SetSkills`, the value last set |
| Project.Task.SetId | src/main/java/net/rodrigoamaral/spsp/project/Task.java:33-35 | the getter returns the new id; no other field changes |
| Project.Task.SetEffort | src/main/java/net/rodrigoamaral/spsp/project/Task.java:41-43 | the getter returns the new effort; no other field changes |
| Project.Task.SetDuration | src/main/java/net/rodrigoamaral/spsp/project/Task.java:49-51 | the getter returns the new duration; no other field changes |
| Project.Task.SetStart | src/main/java/net/rodrigoamaral/spsp/project/Task.java:57-59 | the getter returns the new start; no other field changes |
| Project.Task.SetFinish | src/main/java/net/rodrigoamaral/spsp/project/Task.java:65-67 | the getter returns the new finish; no other field changes |
| Project.Task.SetSkills | src/main/java/net/rodrigoamaral/spsp/project/Task.java:73-75 | the getter returns the new skill list; no other field changes |
| Project.Task.IsTaskRunning | src/main/java/net/rodrigoamaral/spsp/project/Task.java:84-86 | a running task has start <= instant <= finish |
| Project.RunningInterval | src/main/java/net/rodrigoamaral/spsp/project/Task.java:84-86 | a task with start after finish runs at no instant; otherwise it runs at every instant between them, both ends included |
| Experiment.RepairStrategyFor | src/main/java/net/rodrigoamaral/dspsp/experiment/ExperimentRunner.java:167-177 | leave events get the leave strategy and return events the return strategy, each for the event's employee, each iff; other events get none |
| Experiment.PrefixesExclusive | src/main/java/net/rodrigoamaral/dspsp/experiment/ExperimentRunner.java:189-194 | no identifier starts with two of the policy prefixes |
| Experiment.PolicyFor | src/main/java/net/rodrigoamaral/dspsp/experiment/ExperimentRunner.java:189-194 | the dispatch selects a policy iff the identifier starts with that policy's prefix, so the test order does not matter |
| Experiment.PrefixNamesDynamic | src/main/java/net/rodrigoamaral/dspsp/experiment/ExperimentRunner.java:189-193 | every policy prefix carries "Dynamic", which upper-cases to the gate's tag |
| Experiment.PolicyPassesGate | src/main/java/net/rodrigoamaral/dspsp/experiment/ExperimentRunner.java:187-194 | every identifier that selects a policy passes the "DYNAMIC" test |
| Experiment.SeedingEnabled | src/main/java/net/rodrigoamaral/dspsp/experiment/ExperimentRunner.java:187 | the gate is open exactly when the counter is at least 2 and the upper-cased identifier contains "DYNAMIC" at some position |
| Experiment.Stops | src/main/java/net/rodrigoamaral/dspsp/experiment/ExperimentRunner.java:124 | the loop stops when the project was already finished, or when a limit is present and the bumped counter exceeds it; without a limit only a finished project stops it, and an unfinished project within the limit never does |
| Experiment.LimitStopsLater | src/main/java/net/rodrigoamaral/dspsp/experiment/ExperimentRunner.java:122-124 | once the counter has passed the limit, every later event stops the loop, whatever its outcome |
| Experiment.CompletedFrom | src/main/java/net/rodrigoamaral/dspsp/experiment/ExperimentRunner.java:120-126 | the loop continues past every event before the returned index and stops at it |
| Experiment.Completed | src/main/java/net/rodrigoamaral/dspsp/experiment/ExperimentRunner.java:120-126 | the number of completed reschedulings is the first stopping event's index; it never exceeds the limit |
| Experiment.Feedback | src/main/java/net/rodrigoamaral/dspsp/experiment/ExperimentRunner.java:133-134 | one rescheduling's effect on the bandit keeps its invariant |
| Experiment.BanditAfter | src/main/java/net/rodrigoamaral/dspsp/experiment/ExperimentRunner.java:120-157 | the bandit after k reschedulings keeps its invariant |
| Experiment.HistoryGapless | src/main/java/net/rodrigoamaral/dspsp/experiment/ExperimentRunner.java:95-136 | after k reschedulings the history has key 0 (initial front) and keys 1..k (each rescheduling's front); other keys keep their old entries |
| Experiment.FirstRewardLandsOnArmZero | src/main/java/net/rodrigoamaral/dspsp/experiment/ExperimentRunner.java:133-134 | the first rescheduling pulls nothing but still credits its reward, to arm 0 |
| Experiment.LoopColdStart | src/main/java/net/rodrigoamaral/dspsp/experiment/ExperimentRunner.java:120-134 | with UCB1 or epsilon-greedy, reschedulings 2..7 pull arms 0..5 in order |
| Experiment.LoopKeepsFloor | src/main/java/net/rodrigoamaral/dspsp/experiment/ExperimentRunner.java:187-197 | the 0.05 floor on every share holds through any number of reschedulings |
| Experiment.NoPolicyNoMove | src/main/java/net/rodrigoamaral/dspsp/experiment/ExperimentRunner.java:187-197 | an identifier that matches no prefix never moves the weights, counts or time, gate open or not |
| Experiment.ExperimentRunner.constructor | src/main/java/net/rodrigoamaral/dspsp/experiment/ExperimentRunner.java:49-58 | captures the configured weights, creates the bandit from them, starts an empty history, no limit |
| Experiment.ExperimentRunner.WithLimit | src/main/java/net/rodrigoamaral/dspsp/experiment/ExperimentRunner.java:44-47 | as the plain constructor, with the given limit |
| Experiment.ExperimentRunner.Reschedule | src/main/java/net/rodrigoamaral/dspsp/experiment/ExperimentRunner.java:165-212 | builds the event's strategy; when the gate is open, applies the prefix-selected policy and copies the bandit's weights into the settings; otherwise leaves bandit and settings alone |
| Experiment.ExperimentRunner.RescheduleAndReward | src/main/java/net/rodrigoamaral/dspsp/experiment/ExperimentRunner.java:130-134 | one rescheduling followed by the reward when unfinished moves the bandit as `Feedback` says |
| Experiment.ExperimentRunner.Advance | src/main/java/net/rodrigoamaral/dspsp/experiment/ExperimentRunner.java:128-136 | one pass of the loop body past the stop test keeps the loop's invariant one step further |
| Experiment.ExperimentRunner.RunInstance | src/main/java/net/rodrigoamaral/dspsp/experiment/ExperimentRunner.java:78-163 | one run: completes exactly `Completed` reschedulings, records each one's strategy and gate decision, leaves the counter one past the last completed rescheduling when it stopped early, and ends with the history, bandit and settings the step functions give |
| Experiment.ExperimentRunner.RunOnce | src/main/java/net/rodrigoamaral/dspsp/experiment/ExperimentRunner.java:233-239 | a repetition starts a fresh bandit from the captured weights, so the bandit it leaves depends on its own inputs only; it completes exactly `Completed` reschedulings with the same records, counter and settings as `RunInstance`, and the history gets this run's keys 0..k on top of the old one, never losing a key |
| Experiment.ExperimentRunner.RunRepetitions | src/main/java/net/rodrigoamaral/dspsp/experiment/ExperimentRunner.java:232-240 | after runs 1..n the bandit is the one of run n alone; the history only gains keys |
| Experiment.ExperimentRunner.RunAlgorithms | src/main/java/net/rodrigoamaral/dspsp/experiment/ExperimentRunner.java:231-241 | after all algorithms on an instance the bandit is that of the last algorithm's last run; the history only gains keys |
| Experiment.ExperimentRunner.Run | src/main/java/net/rodrigoamaral/dspsp/experiment/ExperimentRunner.java:228-243 | after the whole experiment the bandit is that of the last instance, last algorithm and last run; with nothing to run it is unchanged; the history is never pruned, only gains keys |

## Left out

- Floating point:
  - The weights are modelled exactly, in twentieths. `round(value, 4)` and its BigDecimal rounding are not modelled; on the twentieths grid they change nothing.
  - The double comparisons in `pullArm` are not modelled bit for bit. In IEEE doubles, `1.0 - hist - repaired` comes out slightly above 0.1 at five grid points where the random share is exactly 0.10: (hist, repaired) = (0.20, 0.70), (0.45, 0.45), (0.60, 0.30), (0.70, 0.20) and (0.85, 0.05). At those points the source accepts arms 1 and 3, and the model refuses them. The 0.05 floor holds either way.
  - Rewards and means are exact reals.
- Bandit.MAB.constructor: weights off the twentieths grid are not modelled, because the model counts every share in twentieths.
- The exploration term `sqrt(2 log10(time) / pulls)` is an input: UCB1 takes one non-negative real per arm. `Math.sqrt` and `Math.log10` are not modelled. Epsilon-greedy takes the nextDouble coin and the nextInt(6) choice.
- `java.util.Random` is not modelled. Its draws are inputs with their ranges (`ValidDraw`).
- Text.ToUpper: only ASCII letters are upper-cased. Java's locale- and Unicode-aware `toUpperCase` is not modelled. That matters for the gate. Under a Turkish or Azeri default locale, Java upper-cases the `i` of "Dynamic" to `İ` (U+0130), so `"NSGAIIDynamic_UCB1".toUpperCase()` does not contain "DYNAMIC" and the gate at `ExperimentRunner.java` line 187 never opens. In that setting `Experiment.PolicyPassesGate` and `Experiment.LoopColdStart` describe the model, not the program.
- Logging, the solution file writers and the computing-time totals are output only and are left out.
- `loadProblemInstance` and its `System.exit` on a missing file are left out; they are I/O.
- These collaborators are not modelled; their results arrive as inputs (`Outcome`):
  - the optimiser and algorithm assembler;
  - the decision maker;
  - the population creator;
  - the repair strategies' own work;
  - `project.update`;
  - the hypervolume calculation.
- `isFinished` before and after each rescheduling are independent inputs. The model does not derive one from the other.
- The current schedule chosen by the decision maker is not modelled. It only flows into the collaborators.
- The experiment settings object is reduced to the two seeding proportions the runner writes.
- Experiment.ExperimentRunner.WithLimit: the limit is fixed at construction, as the source never reassigns it after the constructors.
- The application entry point and the NSGA-II runner are not part of this model.
- Task's `toString` is not modelled; it is output only.
- Project.Task.SetSkills: the skill list is a value here. Java shares the list by reference: `getSkills()` returns the task's own list and `setSkills` stores the caller's list without copying it. A change made through either list also changes the task, and the model does not capture that aliasing.
