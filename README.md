# Multi-armed bandit agents and regret experiments

This project models a small Python library of multi-armed bandit agents in
Dafny:

- **the agents** — upper confidence bound (UCB1, AOUCB, MOSS, ADA), ε-greedy
  and Bernoulli Thompson sampling. Each keeps:
  - an action list `1..nactions`;
  - a history of times, actions and rewards;
  - per-action parameters: a running count and mean, or Beta pseudo-counts.
- **the experiment drivers** — they run the agents against an environment
  and fill one cumulative-regret matrix per learner (one row per time step,
  one column per iteration), then average it over the iterations.

The library exists in two generations, and both are modelled:

- `agents.py`: an agent samples one reward per step and updates its
  parameters one step at a time (module `Agents`).
- `agents/` and `agent.py`: the environment returns a feedback dictionary
  `{'time', 'action', 'reward'}` of parallel lists. The agent folds every row
  into its parameters (modules `AgentsUcb`, `AgentsEg`, `AgentsTs`). The root
  `agent.py` instead writes the rewards into a NaN-filled array of
  `nsamples` slots (module `AgentSlots`).

How the model is built:

- **Agents are classes.** Each agent is a `class` whose methods update its
  fields in place, exactly where the Python methods do.
- **Ghost state records what was seen.** Every class carries a ghost map
  `observed` from each action to the rewards seen for it. `Valid()` says the
  parameters *track* those observations:
  - `n` is the number of observations and `mu` their average;
  - for Thompson sampling, `a - 1` is the sum of the rewards seen and
    `b - 1` their number minus that sum. These are the numbers of ones and of
    zeros only when every reward is 0 or 1 (`Binary`), which neither the
    agents nor the model impose on the environment.
- **The contracts are proved against that state.** Each update method keeps
  the tracking invariant and states its new state. Each policy is proved to
  pick the first action of highest score. Each `run` is proved to produce a
  history of `nsamples` valid steps at times `1..nsamples`, each step's
  action being the one the policy picks from what had been observed before
  that step (and the step's random draws).
- **Shared modules.** `Selection` proves the argmax scans correct and exact
  (the first maximum and only it). `Confidence` holds the four exploration
  bonuses with the logarithm and square root as parameters. `Regret` holds
  the regret bookkeeping of `experiment.py` and `experiments.py` on
  `array2<real>` matrices.

Files:

| file | module | models |
|---|---|---|
| `optional.dfy` | `Optional` | `Option` and a `Float` that may be NaN |
| `histories.dfy` | `Histories` | history and feedback dictionaries |
| `estimates.dfy` | `Estimates` | running means, Beta counts, per-action observations |
| `selection.dfy` | `Selection` | the first-maximum scans of every `policy` |
| `confidence.dfy` | `Confidence` | `bonus`, `f`, `plus` of UCB1, AOUCB, MOSS, ADA |
| `agents.dfy` | `Agents` | `agents.py` |
| `agents_ucb.dfy` | `AgentsUcb` | `agents/ucb.py` with `agents/agent.py` |
| `agents_eg.dfy` | `AgentsEg` | `agents/eg.py` with `agents/agent.py` |
| `agents_ts.dfy` | `AgentsTs` | `agents/ts.py` with `agents/agent.py` |
| `agent_slots.dfy` | `AgentSlots` | the root `agent.py` |
| `regret.dfy` | `Regret` | regret matrices and their averages |
| `experiment.dfy` | `Experiment` | `experiment.py` |
| `experiments.dfy` | `Experiments` | `experiments.py` |

The nondeterministic draws are parameters of the model:

| Python draw | model parameter |
|---|---|
| environment samples | `sample(time, action)` or `reward(time, action)` |
| ε-greedy's uniform draw and random action | `explore`/`uniform` and `pick`/`choice` |
| Thompson sampling's Beta draws | `draws` |
| the complete action sequence of a learner's run (in the drivers) | `play(learner, iteration)` |

Where the code and its documentation disagree, the model follows the code:

- **Out-of-range times in the root `agent.py`.** Its `update_history`
  writes `reward[time - 1]`. Python's negative indexing means times
  `1 - nsamples .. 0` land in the slots at the end rather than raising
  `IndexError`. `AgentSlots.PyIndex` and `AgentSlots.SlotOfTime` state this
  wrap-around; only times outside `1 - nsamples .. nsamples` fail.
- **`run()` in `experiment.py`.** In `agents.py`, `run()` returns `None`,
  yet `experiment.py:30` indexes the result as a history. The driver is
  therefore modelled over the action sequence each run plays (`play`), not
  over a particular agent class.
- **ε-greedy's random action.** `agents.py` draws it with
  `randint(1, nactions)`, which is inclusive at both ends, so it is an
  action `1..nactions`. `agents/eg.py` picks it with `np.random.choice` from
  the action list, modelled as an index `0..nactions-1` into that list.

## Model

| member | source | states |
|---|---|---|
| Histories.StepsSnoc | agents/agent.py:33-38 | the times of a run grow by the next time at each step |
| Histories.RewardsOfSnoc | agents.py:35-48 | appending one step to the history adds its reward to the rewards recorded for its own action, in order, and to no other action |
| Histories.FeedbacksStep | agents/agent.py:33-38 | the feedback gathered over a run grows by exactly the feedback of the next step, in order |
| Histories.ExtendedStep | agents/agent.py:54-65 | recording one more step with a valid action at the next time extends a run by one step and leaves the reward list alone |
| Histories.RewardedStep | agents.py:66-70 | recording one more step with a valid action and its sampled reward extends a run by one step, leaving earlier rows unchanged |
| Estimates.NextMeanAddsReward | agents.py:96-102 | the incremental mean `mu + (r - mu)/(n + 1)` times `n + 1` is the old total `mu * n` plus the new reward |
| Estimates.UpdateMeanTracks | agents/ucb.py:85-91 | if `(n, mu)` is the count and exact average of a list of rewards, one update gives the count and exact average of that list plus the new reward |
| Estimates.TracksMeanTotal | agents.py:99-102 | a tracking `(n, mu)` has `mu * n` equal to the sum of the observed rewards |
| Estimates.SeedTracks | agents.py:110-113 | the seed parameters `n = 1, mu = rwd` track the single sampled reward |
| Estimates.MeansTrackCounts | agents/ucb.py:71-73 | when every action's parameters track a non-empty list of observations, every count is at least 1, so every bonus divides by a positive `n` |
| Estimates.MeansTrackViews | agents/ucb.py:48-50 | the means and counts the policy reads from the parameters are exactly the averages and lengths of each action's observations |
| Estimates.AbsorbMean | agents/ucb.py:85-91 | folding one feedback row into its action's mean keeps every action's parameters tracking its observations, with the row's reward added to its own action's list |
| Estimates.UpdateBetaTracks | agents/ts.py:71-74 | `a += r; b += 1 - r` keeps `a = 1 + sum` and `b = 1 + count - sum` of the rewards seen, for any reward |
| Estimates.UpdateBetaCounts | agents.py:339-341 | one Thompson update adds the reward to `a` and exactly 1 to `a + b`, and a binary reward keeps both counts at least 1 |
| Estimates.BinaryCounts | agents/ts.py:71-74 | over 0/1 rewards the sum counts the ones and the length minus the sum counts the zeros |
| Estimates.BetaCounts | agents/ts.py:57-59 | tracking Beta parameters started from `a = b = 1` are `1 +` the number of ones and `1 +` the number of zeros, with `a + b` two more than the number of observations |
| Estimates.AbsorbBeta | agents/ts.py:71-74 | folding one feedback row, whatever its reward, into its action's Beta counts keeps every action's counts tracking its observations |
| Estimates.RecordAppends | agents/ucb.py:85-91 | after processing a feedback dictionary row by row, each action's observations are the old ones followed by exactly the rewards of that action's rows, in order |
| Estimates.RewardsForAbsent | agents/ucb.py:85-91 | an action with no row in the feedback receives no reward from it |
| Estimates.RecordConcat | agents/ucb.py:85-91 | processing two feedback dictionaries one after the other is the same as processing their concatenation |
| Estimates.ObservedBeforeSnoc | agents/agent.py:33-38 | what had been observed before step `t` does not depend on the actions of step `t` and later |
| Estimates.ObservedBeforeNext | agents/agent.py:33-38 | at the step after a recorded run, what had been observed is exactly that run's record |
| Estimates.MeanTotals | agents/ucb.py:85-91 | after `update_parameters`, each action's count grows by the number of its rows and its total `mu * n` by the sum of their rewards |
| Estimates.BetaTotals | agents/ts.py:61-74 | after `update_parameters`, each action's `a` grows by the sum of its rows' rewards and `b` by their number minus that sum |
| Estimates.MeanUntouched | agents/eg.py:76-82 | an action with no row in the feedback keeps exactly its count and mean |
| Estimates.BetaUntouched | agents/ts.py:71-74 | an action with no row in the feedback keeps exactly its Beta counts |
| Selection.Scan | agents/ucb.py:45-54 | the scan yields a leader exactly when there is at least one action, and the leader is an action `1..K` whose score is the one recorded |
| Selection.ScanIsFirstMax | agents/ucb.py:45-54 | the strict `highest < score` scan returns an action whose score is the maximum, and no earlier action reaches that maximum |
| Selection.FirstMaxIsScan | agents/ucb.py:45-54 | conversely, the first action of maximal score is the one the scan returns, so the choice is determined by the scores |
| Selection.DrawsChosenStep | agents/ts.py:35-39 | playing the first maximal draw at the next step keeps every action of a run the first maximal draw of its own step |
| Confidence.Plus | agents/ucb.py:176-177 | `max(1, x)` is at least 1 and at least `x`, and is one of the two |
| Confidence.Ucb1LogArgument | agents/ucb.py:116-120 | UCB1 takes the logarithm of `1/delta` with `delta = 1/nsamples^2`, that is of `nsamples^2`, which is at least 1 |
| Confidence.AoucbF | agents/ucb.py:145-146 | `f(t) = 1 + t * log(t)^2` is at least 1 at every positive time |
| Confidence.MossLogArgument | agents/ucb.py:179-182 | MOSS's argument `plus(nsamples/(nactions * n))` is at least 1 and equals the quotient once the quotient reaches 1 |
| Confidence.AdaTermBounds | agents/ucb.py:209-215 | each term `min(n, sqrt(n * m))` lies in `[0, n]`, and the action's own term is `n` |
| Confidence.AdaNormaliserBounds | agents/ucb.py:209-215 | ADA's normaliser `d` is non-negative, and at least `n` because the action counts itself |
| Confidence.AdaNormaliserAtMost | agents/ucb.py:209-215 | `d` is at most `nactions * n` |
| Confidence.AdaLogArgument | agents/ucb.py:209-215 | ADA takes the logarithm of `plus(nsamples/d)`, which is at least 1 and equals `nsamples/d` once that quotient reaches 1 |
| Confidence.AdaSum | agents/ucb.py:209-215 | the loop `d += min(n, sqrt(n * nt[a]))` over all actions computes the normaliser `d` |
| Confidence.LogArgument | agents/ucb.py:116-215 | every variant's logarithm is taken of a number at least 1 |
| Confidence.ComputeBonus | agents/ucb.py:116-215 | the bonus computed for an action is the variant's bonus at that action's count and the current time |
| AgentsUcb.UCB.constructor | agents/agent.py:2-18 | a new agent stores `nactions`, has no `nsamples` yet and is initialised: empty history, `n = 1, mu = 1.00` for every action, tracking one pseudo-observation `1.00` |
| AgentsUcb.OptimisticStep | agents/agent.py:33-38 | playing the first action of maximal upper bound over the current observations keeps every action of a run the policy's pick at its step |
| AgentsUcb.UCB.Initialise | agents/ucb.py:56-73 | actions `1..nactions`, an empty history and, for every action, `n = 1, mu = 1.00` |
| AgentsUcb.UCB.UpdateHistory | agents/agent.py:54-65 | the time and action are appended and the reward list is left as it is |
| AgentsUcb.UCB.SortHistory | agents/agent.py:46-52 | sorting the history changes nothing |
| AgentsUcb.UCB.Absorb | agents/ucb.py:86-91 | one feedback row updates only its action's count and mean, keeping all parameters tracking their observations |
| AgentsUcb.UCB.UpdateParameters | agents/ucb.py:75-91 | after folding in the feedback, every action's parameters track its old observations followed by exactly its rows' rewards, its count grows by their number and its total by their sum |
| AgentsUcb.UCB.UpperBound | agents/ucb.py:49-50 | an action's upper confidence bound is its mean plus the variant's bonus |
| AgentsUcb.UCB.Policy | agents/ucb.py:35-54 | returns an action exactly when there is one, and then the first action of highest upper confidence bound |
| AgentsUcb.UCB.Step | agents/agent.py:33-38 | one step plays the first action of maximal upper bound over the observations so far, appends the time and action and folds that step's feedback into the parameters |
| AgentsUcb.UCB.Run | agents/agent.py:20-43 | `nsamples` steps at times `1..nsamples`, each with a valid action, namely the first action of maximal upper bound over what the run had observed before that step; all feedback is absorbed in order; with `reset` it returns that history and reinitialises, otherwise it returns nothing |
| AgentsEg.EG.constructor | agents/eg.py:5-21 | a new agent stores `epsilon` and starts initialised with its actions `1..nactions` |
| AgentsEg.GreedyStep | agents/agent.py:33-38 | playing the ε-greedy pick at the next step keeps every action of a run the pick of its own step |
| AgentsEg.EG.Initialise | agents/eg.py:47-64 | actions `1..nactions`, an empty history and, for every action, `n = 1, mu = 1.00` |
| AgentsEg.EG.UpdateHistory | agents/agent.py:54-65 | the time and action are appended and the reward list is left as it is |
| AgentsEg.EG.SortHistory | agents/agent.py:46-52 | sorting the history changes nothing |
| AgentsEg.EG.Absorb | agents/eg.py:77-82 | one feedback row updates only its action's count and mean, keeping all parameters tracking their observations |
| AgentsEg.EG.UpdateParameters | agents/eg.py:66-82 | after folding in the feedback, every action's parameters track its old observations followed by exactly its rows' rewards |
| AgentsEg.EG.Policy | agents/eg.py:23-45 | below `epsilon` the randomly chosen action is returned; otherwise an action is returned exactly when there is one, and it is the first action of highest estimated mean |
| AgentsEg.EG.Step | agents/agent.py:33-38 | one step plays the ε-greedy choice (the random action below `epsilon`, otherwise the first action of maximal average observation), appends the time and action and folds that step's feedback into the parameters |
| AgentsEg.EG.Run | agents/agent.py:20-43 | `nsamples` steps at times `1..nsamples` with valid actions, each the random action when that step's uniform draw is below `epsilon` and otherwise the first action of maximal average over what the run had observed before it; all feedback is absorbed in order; with `reset` the history is returned and the agent reinitialised |
| AgentsTs.BTS.constructor | agents/agent.py:2-18 | a new agent starts initialised with its actions `1..nactions` and no `nsamples` |
| AgentsTs.BTS.Initialise | agents/ts.py:41-59 | actions `1..nactions`, an empty history and, for every action, `a = b = 1` |
| AgentsTs.BTS.UpdateHistory | agents/agent.py:54-65 | the time and action are appended and the reward list is left as it is |
| AgentsTs.BTS.SortHistory | agents/agent.py:46-52 | sorting the history changes nothing |
| AgentsTs.BTS.Absorb | agents/ts.py:72-74 | one feedback row updates only its action's Beta counts, keeping all counts tracking their observations |
| AgentsTs.BTS.UpdateParameters | agents/ts.py:61-74 | after folding in the feedback, every action's `a` grows by its rows' rewards and `b` by their number minus their sum, and the counts track the observations |
| AgentsTs.BTS.Policy | agents/ts.py:21-39 | returns an action exactly when there is one, and then the first action of highest Beta draw |
| AgentsTs.BTS.Step | agents/agent.py:33-38 | one step plays the action of highest draw, appends the time and action and folds that step's feedback into the counts |
| AgentsTs.BTS.Run | agents/agent.py:20-43 | `nsamples` steps at times `1..nsamples` with valid actions, each the first action of maximal draw at its step; all feedback is absorbed in order; with `reset` the history is returned and the agent reinitialised |
| Agents.ExplainsStep | agents.py:35-48 | after appending a step to the history and its reward to its action's observations, each action's observations are still its seed followed by the rewards the history records for it |
| Agents.PrefixSnoc | agents.py:35-48 | appending a row to the history leaves its earlier prefixes unchanged |
| Agents.ExplainsReplay | agents.py:86-102 | observations the history explains are its replay: each action's seed followed by its recorded rewards |
| Agents.OptimisticStep | agents.py:66-70 | recording the first action of maximal upper bound over the current observations keeps every recorded action the policy's pick at its time |
| Agents.GreedyStep | agents.py:132-136 | recording the ε-greedy pick keeps every recorded action the pick at its time |
| Agents.SampledStep | agents.py:308-312 | recording the first maximal draw keeps every recorded action the first maximal draw at its time |
| Agents.UCB.constructor | agents.py:51-64 | a new agent has an empty history and every action seeded with `n = 1` and one sampled reward as its mean |
| Agents.UCB.Initialise | agents.py:104-113 | every action gets `n = 1` and the reward sampled for it as `mu`, and the parameters track that one reward |
| Agents.UCB.Reset | agents.py:29-32 | the history is emptied and every action is seeded afresh with one sampled reward |
| Agents.UCB.UpdateHistory | agents.py:35-48 | the time, action and reward are appended to the three lists |
| Agents.UCB.Update | agents.py:86-102 | the step is appended to the history and only the played action's `(n, mu)` changes, by the incremental mean; each action's mean stays the exact average of its seed and the rewards the history records for it |
| Agents.UCB.UpperBound | agents.py:81-82 | an action's upper confidence bound is its mean plus the variant's bonus |
| Agents.UCB.Policy | agents.py:72-84 | returns an action exactly when there is one, and then the first action of highest upper confidence bound |
| Agents.UCB.Step | agents.py:67-70 | one step plays the first action of highest upper bound over the observations so far, records the sampled reward in the history and updates that action's mean |
| Agents.UCB.Run | agents.py:66-70 | `nsamples` steps at times `1..nsamples`, each with a valid action and the reward sampled for it, appended after the earlier history; each action is the first of maximal upper bound over the seeds and the rewards recorded before it |
| Agents.EGreedy.constructor | agents.py:116-129 | a new agent stores `epsilon`, has an empty history and every action seeded with one sampled reward |
| Agents.EGreedy.Initialise | agents.py:175-184 | every action gets `n = 1` and the reward sampled for it as `mu` |
| Agents.EGreedy.Reset | agents.py:29-32 | the history is emptied and every action is seeded afresh |
| Agents.EGreedy.UpdateHistory | agents.py:35-48 | the time, action and reward are appended to the three lists |
| Agents.EGreedy.Update | agents.py:157-173 | the step is appended and only the played action's `(n, mu)` changes; all means stay exact averages of the seed and recorded rewards |
| Agents.EGreedy.Policy | agents.py:138-155 | below `epsilon` the uniformly drawn action is returned; otherwise an action exactly when there is one, the first of highest estimated mean |
| Agents.EGreedy.Step | agents.py:133-136 | one step plays the ε-greedy choice (`pick` below `epsilon`, otherwise the first action of maximal average observation), records its sampled reward and updates that action's mean |
| Agents.EGreedy.Run | agents.py:132-136 | `nsamples` steps at times `1..nsamples`, each with a valid action and its sampled reward; each action is `pick(time)` when `explore(time)` is below `epsilon`, and otherwise the first of maximal average over the seeds and the rewards recorded before it |
| Agents.TS.constructor | agents.py:290-306 | a new agent has an empty history and `a = b = 1` for every action |
| Agents.TS.Initialise | agents.py:343-349 | every action gets `a = b = 1`, tracking no observations |
| Agents.TS.Reset | agents.py:29-32 | the history is emptied and every action's counts return to `a = b = 1` |
| Agents.TS.UpdateHistory | agents.py:35-48 | the time, action and reward are appended to the three lists |
| Agents.TS.Update | agents.py:329-341 | the step is appended and only the played action's counts change, by `a += r, b += 1 - r`; the counts keep tracking the rewards the history records |
| Agents.TS.Policy | agents.py:314-327 | returns an action exactly when there is one, and then the first action of highest Beta draw |
| Agents.TS.Step | agents.py:309-312 | one step plays the action of highest draw, records its sampled reward and updates that action's counts |
| Agents.TS.Run | agents.py:308-312 | `nsamples` steps at times `1..nsamples`, each with a valid action and its sampled reward, and each the first action of maximal draw at its time |
| AgentSlots.PyIndex | agent.py:91-93 | a Python index `i` into a list of length `n` is valid exactly for `-n <= i < n` and reaches slot `i mod n` |
| AgentSlots.SlotOfTime | agent.py:91-93 | times `1..n` write slot `t - 1`, times `1-n..0` wrap to slot `n + t - 1`, and exactly the other times fail |
| AgentSlots.FirstOut | agent.py:91-93 | the first feedback row whose time has no slot, all earlier rows having one |
| AgentSlots.WrittenUntouched | agent.py:91-93 | a slot no feedback row's time reaches keeps its value |
| AgentSlots.WrittenLastWins | agent.py:91-93 | a slot holds the reward of the last row written to it |
| AgentSlots.WrittenConcat | agent.py:63-68 | writing two feedback dictionaries one after the other equals writing their concatenation |
| AgentSlots.UnwrittenStaysNaN | agent.py:61-93 | after a complete run, a slot no feedback row reaches is still NaN |
| AgentSlots.OwnTimeFills | agent.py:61-93 | when each step's feedback is one row at its own time, after `m` steps slots `0..m-1` hold those steps' rewards and the rest are NaN |
| AgentSlots.Agent.constructor | agent.py:2-18 | a new agent stores `nactions`, has no `nsamples` and an empty history |
| AgentSlots.Agent.Initialise | agent.py:32-38 | the history is emptied |
| AgentSlots.Agent.UpdateHistory | agent.py:77-93 | appends the time and action; succeeds exactly when every row's time has a slot, and then the reward slots hold every row written in order; otherwise the rows before the first bad one are written |
| AgentSlots.Agent.Step | agent.py:63-68 | one step succeeds exactly when its feedback's times all have slots, and then the run so far is extended by that step |
| AgentSlots.Agent.Run | agent.py:48-75 | `nsamples` is set; the run completes exactly when no feedback row falls outside the slots; then the result holds times `1..n`, the chosen actions and the NaN slots overwritten by all feedback, and the agent's history is emptied if `reset` or is that result otherwise |
| Regret.Optimal | experiment.py:23 | `max(mu, key = mu.get)` is the first action of highest expectation |
| Regret.Gap | experiment.py:37 | the regret of one play is non-negative and zero exactly when the action's expectation is optimal |
| Regret.TrajectoryStep | experiment.py:32-38 | the cumulative regret at time `t` is the one at `t - 1` (0 before the first step) plus the gap of the action played at `t` |
| Regret.TrajectoryMonotone | experiment.py:32-38 | cumulative regret never decreases along a run |
| Regret.CumulativeNonNegative | experiment.py:32-38 | cumulative regret is never negative |
| Regret.ZeroRegret | experiment.py:32-38 | cumulative regret is zero exactly when every action played has the optimal expectation |
| Regret.FillColumn | experiment.py:32-38 | the iteration's column holds the cumulative regret of the run at every time; all other columns are unchanged |
| Regret.Round | experiment.py:28-40 | in one iteration, every learner's column is filled from its own run, and all other columns stay as they were |
| Regret.Simulate | experiment.py:27-40 | after all iterations, every column of every learner's matrix holds the cumulative regret of that iteration's run |
| Regret.Zeros | experiment.py:25 | one fresh, distinct, all-zero `nsamples × iterations` matrix per learner |
| Regret.MeanRegretMonotone | experiment.py:42-44 | the mean cumulative regret over the iterations is non-negative and never decreases from one time step to the next |
| Experiment.Experiment | experiment.py:7-47 | fills per learner a fresh matrix whose every column is the cumulative regret of that iteration's run, and returns the mean of each matrix's rows |
| Experiments.Experiment | experiments.py:4-38 | fills per learner a fresh `nsamples × niterations` matrix whose every column is the cumulative regret of that iteration's run, and returns the mean of each matrix's rows |

The contracts above are stated in terms of the following definitions. Each
is the source's formula written out, so it has no row of its own:

- `Histories.Steps` (agents/agent.py:33): `range(lo, hi)`.
- `Estimates.NextMean`, `Estimates.UpdateMean` (agents.py:101-102, agents/ucb.py:90-91): `n += 1` and `mu += (r - mu)/n`.
- `Estimates.UpdateBeta` (agents.py:340-341, agents/ts.py:73-74): `a += r` and `b += 1 - r`.
- `Estimates.Record` (agents/ucb.py:85-91): each feedback row's reward appended to its action's observations, row by row.
- `Estimates.Seen`, `Estimates.CountsOf`, `Estimates.MeansOf`: every action has observations, and their numbers and averages in action order.
- `Estimates.ObservedBefore` (agents/agent.py:33-38): the observations a run had made before its step `t`.
- `Selection.DrawsChosen`: every action of a run is the first maximal draw of its step.
- `Confidence.Bonus` (agents/ucb.py:116-215): `sqrt(c * log(x) / n)` with each variant's factor `c` and argument `x`.
- `Confidence.UpperBounds`, `Confidence.UpperBoundsOf` (agents/ucb.py:48-50): `mu + bonus` for each action in order, from the parameters or from the observations.
- `AgentsUcb.Optimistic`, `AgentsEg.Greedy`: every action of a run is the policy's pick over what had been observed before its step.
- `Agents.Prefix`, `Agents.Replay`: the first rows of a history, and the observations the seeds and a history determine.
- `Agents.Optimistic`, `Agents.Greedy`, `Agents.Sampled`: every action recorded from a given row on is the policy's pick at its time.
- `AgentSlots.Nans` (agent.py:61): `[nan] * n`.
- `AgentSlots.Written` (agent.py:91-93): each row's reward written into the slot of its time, row by row.
- `Regret.Cumulative`, `Regret.Trajectory` (experiment.py:32-38): the running sum of the gaps of the actions played.
- `Regret.RowMeans`, `Regret.Summaries` (experiment.py:43, experiments.py:36): `np.mean(performance[l], axis = 1)` for each learner.

## Left out

- Environments (`environments.py`, `environments/bernoulli.py`): modelled as the functions `sample(time, action)` / `reward(time, action)`. Their randomness and their Bernoulli distribution are not modelled.
- Random draws: passed in as parameters. This covers the uniform draw and random action of ε-greedy and the Beta draws of Thompson sampling. `agents.py:145` draws a uniform `p` that is never used; the model has no counterpart for it.
- AgentsTs.BTS.Policy: the draws are not tied to `Beta(a, b)` (`agents/ts.py:35`). Dafny has no probability distributions, so only the choice among the given draws is proved.
- Agents.TS.Policy: the draws are not tied to `Beta(a, b)` (`agents.py:324`), for the same reason.
- Logarithm and square root: uninterpreted parameters (`Maths`). The only assumed property is that `sqrt` is a square root (`IsSqrt`), and only for ADA's bounds. Floating-point rounding is not modelled; all arithmetic is over exact reals.
- `np.std` in the output of `experiment.py` and `experiments.py`: not modelled, since it needs a square root over floats. Only the mean is computed.
- `plot` in `experiment.py` and `experiments.py`: left out (plotting I/O).
- The base `bonus`: in `agents/ucb.py:22-33` it is a placeholder with no result, and the base `UCB` of `agents.py` (50-113) has no `bonus` method at all. In both, the model requires one of the four concrete variants.
- AgentSlots.Agent.constructor, AgentSlots.Agent.Initialise, AgentSlots.Agent.Run: the root `agent.py`'s `initialise` (32-38) is a placeholder (`pass`) and its constructor (2-18) never sets `history`. The model reads the placeholder as emptying the history, so the constructor and `Initialise` state an empty history that the base class itself does not create, and `Run` with `reset` (72) states that the history is emptied.
- The root `agent.py`'s `policy` and `update_parameters` (20-46): placeholders. `policy` becomes the parameter `choose`. `update_parameters` changes nothing, so it is not modelled and its place in the step order is not observable.
- AgentSlots.Agent.Run: when an `IndexError` ends the run early, the result is `None` and the partial history left behind is not described.
- AgentSlots.Agent.Run: the returned history is a value, a snapshot. In Python, `agent.py:75` returns the live `self.history` dictionary, which a later `run` changes under its caller: it replaces the `reward` list (`agent.py:61`) and extends the time and action lists. No caller in the source keeps a result across runs.
- AgentSlots.Agent.Run: learner-specific state of subclasses is not modelled, since the root class has none.
- `nsamples`: modelled as a natural number. Negative values give an empty range in Python and are not modelled.
- Missing keys: a key missing from a parameter dictionary raises `KeyError` in Python. The model makes this a precondition: feedback actions are in `1..nactions`.
- No actions: every `Run` requires `nactions >= 1` when it takes at least one step. With `nactions = 0` the exploring branch raises `ValueError` in Python, from `np.random.choice([])` (`agents/eg.py:35`) or `random.randint(1, 0)` (`agents.py:147`), and the greedy branches return `inf`, which is no action. Those failures are not modelled.
- Experiment.Experiment: each learner's run is given as the action sequence `play(learner, iteration)` rather than a call to an agent's `run()`. The `agents.py` agents that `experiment.py` is written for return `None` from `run()`.
- Experiment.Experiment: `reset()` between iterations is left to `play`. The agents' own `reset` is proved separately.
- Experiments.Experiment: each learner's run is given as `play(learner, iteration)`. Here `agent.run(nsamples, reset = True)` does return the history (`experiments.py:26`), but the learners are agents of different classes with no common interface in the model, so the driver takes their action sequences instead. That each iteration starts from a freshly initialised agent is proved for the agents' `Run` with `reset`, not at the driver level.
- Experiment.Experiment, Experiments.Experiment: the Python functions return only `{'mean', 'std'}` per learner. The model also returns the `performance` matrices, so that the contract can say what the means are the means of.
- Estimates.TracksBeta: `a - 1` and `b - 1` count ones and zeros only for 0/1 rewards (`Estimates.BetaCounts` requires `Binary`). Nothing in the agents restricts rewards to 0/1, so for other rewards only the sums are stated.
- Ties in `max(mu, key = mu.get)`: resolved by dictionary order, modelled as the first action of highest expectation.
