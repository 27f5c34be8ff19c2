/**
 * The control slice of the experiment runner: the rescheduling loop over a
 * project's dynamic events, the choice of repair strategy, the gate that
 * decides whether the bandit runs and which policy it uses, and when a
 * reward is fed back to it.
 *
 * The optimiser, the project, the decision maker, the population creator and
 * the hypervolume indicator are not modelled; what the loop learns from them
 * arrives as one `Outcome` per event: whether the project is finished when
 * the event is reached, the front the re-optimisation produces, whether the
 * project is finished afterwards, the hypervolume of that front, and the
 * draws the bandit policy makes.
 */
module Experiment {
  import opened Options
  import opened Text
  import opened Bandit

  // ---------------------------------------------------------------------------
  // Events and repair strategies

  /** The dispatch distinguishes the two employee events; any other kind falls to the default. */
  datatype EventType = EmployeeLeave | EmployeeReturn | OtherEvent

  /** A dynamic event and the employee it concerns. */
  datatype Event = Event(kind: EventType, subject: int)

  /** The repair strategy built for an event, bound to the affected employee. */
  datatype Strategy = LeaveStrategy(employee: int) | ReturnStrategy(employee: int)

  /**
   * The switch of `reschedule`: a leave event gets the leave strategy, a
   * return event the return strategy, both for the event's employee, and any
   * other event gets none.
   */
  function RepairStrategyFor(e: Event): (s: Option<Strategy>)
    ensures s.Some? <==> e.kind != OtherEvent
    ensures s == Some(LeaveStrategy(e.subject)) <==> e.kind == EmployeeLeave
    ensures s == Some(ReturnStrategy(e.subject)) <==> e.kind == EmployeeReturn
  {
    match e.kind
    case EmployeeLeave => Some(LeaveStrategy(e.subject))
    case EmployeeReturn => Some(ReturnStrategy(e.subject))
    case OtherEvent => None
  }

  // ---------------------------------------------------------------------------
  // Algorithm identifiers

  /** A population: one objective vector per solution. */
  type Population = seq<seq<real>>

  const DynamicTag: string := "DYNAMIC"
  const RandomPrefix: string := "NSGAIIDynamic_RANDOM"
  const UCB1Prefix: string := "NSGAIIDynamic_UCB1"
  const GreedyPrefix: string := "NSGAIIDynamic_EPSILON_GREEDY"

  /** The identifier prefix that selects each policy. */
  function PrefixOf(p: Policy): string
  {
    match p
    case RandomPolicy => RandomPrefix
    case UCB1Policy => UCB1Prefix
    case EpsilonGreedyPolicy => GreedyPrefix
  }

  /** No identifier starts with two of the policy prefixes: they differ right after "NSGAIIDynamic_". */
  lemma PrefixesExclusive(id: string)
    ensures forall p, q :: PrefixOf(p) <= id && PrefixOf(q) <= id ==> p == q
  {
    forall p, q | PrefixOf(p) <= id && PrefixOf(q) <= id ensures p == q {
      assert PrefixOf(p)[14] == id[14] == PrefixOf(q)[14];
    }
  }

  /**
   * The policy dispatch: the prefixes are tested in the order RANDOM, UCB1,
   * EPSILON_GREEDY, case-sensitively. Because no identifier can start with
   * two of them, the policy chosen is exactly the one whose prefix the
   * identifier starts with, and there is none when no prefix matches.
   */
  function PolicyFor(id: string): (p: Option<Policy>)
    ensures forall q :: p == Some(q) <==> PrefixOf(q) <= id
  {
    PrefixesExclusive(id);
    if PrefixOf(RandomPolicy) <= id then Some(RandomPolicy)
    else if PrefixOf(UCB1Policy) <= id then Some(UCB1Policy)
    else if PrefixOf(EpsilonGreedyPolicy) <= id then Some(EpsilonGreedyPolicy)
    else None
  }

  /**
   * The gate on seeding: only from the second rescheduling on, and only for
   * identifiers that contain "DYNAMIC" once upper-cased.
   */
  predicate SeedingEnabled(reschedulings: int, id: string)
    ensures SeedingEnabled(reschedulings, id) ==> reschedulings >= 2
    ensures SeedingEnabled(reschedulings, id) ==> exists i :: OccursAt(ToUpper(id), DynamicTag, i)
    ensures reschedulings >= 2 && (exists i :: OccursAt(ToUpper(id), DynamicTag, i)) ==> SeedingEnabled(reschedulings, id)
  {
    var upper := ToUpper(id);
    ContainsIffOccurs(upper, DynamicTag);
    reschedulings > 1 && Contains(upper, DynamicTag)
  }

  /** Every policy prefix carries "Dynamic" at positions 6 to 12, which upper-case to the tag. */
  lemma PrefixNamesDynamic(p: Policy, id: string)
    requires PrefixOf(p) <= id
    ensures |id| >= 13 && forall i :: 6 <= i < 13 ==> UpperChar(id[i]) == DynamicTag[i - 6]
  {
    forall i | 6 <= i < 13 ensures UpperChar(id[i]) == DynamicTag[i - 6] {
      assert id[i] == PrefixOf(p)[i];
    }
  }

  /** Every identifier that selects a policy passes the "DYNAMIC" test of the gate. */
  lemma PolicyPassesGate(id: string)
    requires PolicyFor(id).Some?
    ensures Contains(ToUpper(id), DynamicTag)
  {
    PrefixNamesDynamic(PolicyFor(id).value, id);
    assert ToUpper(id)[6..13] == DynamicTag;
    assert OccursAt(ToUpper(id), DynamicTag, 6);
    ContainsIffOccurs(ToUpper(id), DynamicTag);
  }

  // ---------------------------------------------------------------------------
  // The loop over events, as functions of its inputs

  /** What the collaborators report for one event. */
  datatype Outcome = Outcome(
    finishedBefore: bool,   // the project is finished when the event is reached
    front: Population,      // the front the re-optimisation produces
    finishedAfter: bool,    // the project is finished after the re-optimisation
    hypervolume: real,      // the hypervolume of that front
    draw: Draw)             // what the bandit policy draws at this rescheduling

  ghost predicate ValidOutcomes(obs: seq<Outcome>)
  {
    forall i :: 0 <= i < |obs| ==> ValidDraw(obs[i].draw)
  }

  /** The stop test of the loop, made after the counter has become `n`. */
  predicate Stops(o: Outcome, limit: Option<int>, n: int)
    ensures o.finishedBefore ==> Stops(o, limit, n)
    ensures limit.None? ==> (Stops(o, limit, n) <==> o.finishedBefore)
    ensures limit.Some? && n > limit.value ==> Stops(o, limit, n)
    ensures !o.finishedBefore && limit.Some? && n <= limit.value ==> !Stops(o, limit, n)
  {
    o.finishedBefore || (limit.Some? && n > limit.value)
  }

  /** Once the counter has passed the limit, every later event stops the loop, whatever its outcome. */
  lemma LimitStopsLater(o: Outcome, o': Outcome, limit: Option<int>, n: int, m: int)
    requires Stops(o, limit, n) && !o.finishedBefore && m >= n
    ensures Stops(o', limit, m)
  {
  }

  function CompletedFrom(obs: seq<Outcome>, limit: Option<int>, i: nat): (k: nat)
    requires i <= |obs|
    ensures i <= k <= |obs|
    ensures forall j :: i <= j < k ==> !Stops(obs[j], limit, j + 1)
    ensures k < |obs| ==> Stops(obs[k], limit, k + 1)
    decreases |obs| - i
  {
    if i == |obs| || Stops(obs[i], limit, i + 1) then i else CompletedFrom(obs, limit, i + 1)
  }

  /**
   * The number of reschedulings the loop completes: the index of the first
   * event at which it stops, or every event. With a limit it never exceeds
   * the limit (and is 0 for a negative limit).
   */
  function Completed(obs: seq<Outcome>, limit: Option<int>): (k: nat)
    ensures k <= |obs|
    ensures forall j :: 0 <= j < k ==> !Stops(obs[j], limit, j + 1)
    ensures k < |obs| ==> Stops(obs[k], limit, k + 1)
    ensures limit.Some? ==> k == 0 || k <= limit.value
  {
    var k := CompletedFrom(obs, limit, 0);
    assert k == 0 || !Stops(obs[k - 1], limit, k);
    k
  }

  /**
   * The bandit's part of the `n`-th rescheduling: the selected policy runs
   * when the gate is open, then the hypervolume is credited when the project
   * is not finished.
   */
  function Feedback(b: BanditState, id: string, n: int, o: Outcome): (r: BanditState)
    requires Inv(b) && ValidDraw(o.draw)
    ensures Inv(r)
  {
    var seeded := if SeedingEnabled(n, id) && PolicyFor(id).Some? then Apply(b, PolicyFor(id).value, o.draw) else b;
    if o.finishedAfter then seeded else Credit(seeded, o.hypervolume)
  }

  /** The bandit after the first `k` reschedulings of a run. */
  function BanditAfter(b: BanditState, id: string, obs: seq<Outcome>, k: nat): (r: BanditState)
    requires Inv(b) && ValidOutcomes(obs) && k <= |obs|
    ensures Inv(r)
  {
    if k == 0 then b else Feedback(BanditAfter(b, id, obs, k - 1), id, k, obs[k - 1])
  }

  /** The history after the initial front and `k` reschedulings. */
  function Recorded(h: map<int, Population>, initial: Population, obs: seq<Outcome>, k: nat): map<int, Population>
    requires k <= |obs|
  {
    if k == 0 then h[0 := initial] else Recorded(h, initial, obs, k - 1)[k := obs[k - 1].front]
  }

  /**
   * The history keys of a run are 0, 1, ..., k without gaps: key 0 holds the
   * initial front, key j the front of rescheduling j; keys outside 0..k keep
   * whatever they held before the run.
   */
  lemma {:induction false} HistoryGapless(h: map<int, Population>, initial: Population, obs: seq<Outcome>, k: nat)
    requires k <= |obs|
    ensures forall j :: j in Recorded(h, initial, obs, k) <==> j in h || 0 <= j <= k
    ensures Recorded(h, initial, obs, k)[0] == initial
    ensures forall j :: 1 <= j <= k ==> Recorded(h, initial, obs, k)[j] == obs[j - 1].front
    ensures forall j :: j in h && !(0 <= j <= k) ==> Recorded(h, initial, obs, k)[j] == h[j]
  {
    if k > 0 {
      HistoryGapless(h, initial, obs, k - 1);
    }
  }

  /**
   * The first rescheduling never runs a policy, yet its reward is credited:
   * on a fresh controller it lands on arm 0, which no pull has selected.
   */
  lemma FirstRewardLandsOnArmZero(hist: int, repaired: int, id: string, obs: seq<Outcome>)
    requires ValidOutcomes(obs) && |obs| >= 1 && !obs[0].finishedAfter
    ensures BanditAfter(Initial(hist, repaired), id, obs, 1).rewards[0] == obs[0].hypervolume
    ensures BanditAfter(Initial(hist, repaired), id, obs, 1).pulls == ColdCounts(0)
    ensures BanditAfter(Initial(hist, repaired), id, obs, 1).weights == Weights(hist, repaired)
  {
  }

  /**
   * Cold start through the loop: with UCB1 or epsilon-greedy, rescheduling 1
   * pulls nothing and reschedulings 2..7 pull arms 0..5 in order, so after k
   * reschedulings (1 <= k <= 7) arms 0..k-2 have one pull each.
   */
  lemma {:induction false} LoopColdStart(hist: int, repaired: int, id: string, obs: seq<Outcome>, k: nat)
    requires PolicyFor(id) == Some(UCB1Policy) || PolicyFor(id) == Some(EpsilonGreedyPolicy)
    requires ValidOutcomes(obs) && 1 <= k <= |obs| && k <= NumArms + 1
    ensures BanditAfter(Initial(hist, repaired), id, obs, k).pulls == ColdCounts(k - 1)
    ensures BanditAfter(Initial(hist, repaired), id, obs, k).time == k - 1
  {
    if k > 1 {
      LoopColdStart(hist, repaired, id, obs, k - 1);
      PolicyPassesGate(id);
      var b := BanditAfter(Initial(hist, repaired), id, obs, k - 1);
      ColdStartStep(b, PolicyFor(id).value, obs[k - 1].draw);
    }
  }

  /** Through the loop, the floor of 0.05 per share is kept once it holds. */
  lemma {:induction false} LoopKeepsFloor(b: BanditState, id: string, obs: seq<Outcome>, k: nat)
    requires Inv(b) && ValidOutcomes(obs) && k <= |obs| && Floor(b.weights)
    ensures Floor(BanditAfter(b, id, obs, k).weights)
  {
    if k > 0 {
      LoopKeepsFloor(b, id, obs, k - 1);
    }
  }

  /**
   * An identifier that selects no policy leaves weights, counts and `time`
   * as they were, whatever the gate says; only rewards accumulate.
   */
  lemma {:induction false} NoPolicyNoMove(b: BanditState, id: string, obs: seq<Outcome>, k: nat)
    requires Inv(b) && ValidOutcomes(obs) && k <= |obs| && PolicyFor(id) == None
    ensures BanditAfter(b, id, obs, k).weights == b.weights
    ensures BanditAfter(b, id, obs, k).pulls == b.pulls
    ensures BanditAfter(b, id, obs, k).time == b.time
  {
    if k > 0 {
      NoPolicyNoMove(b, id, obs, k - 1);
    }
  }

  // ---------------------------------------------------------------------------
  // The runner object

  /** What one completed rescheduling did: its number, the strategy built, whether it seeded, whether it rewarded. */
  datatype Rescheduling = Rescheduling(index: int, strategy: Option<Strategy>, seeded: bool, rewarded: bool)

  /** What one run receives: the initial front, the project's events and one outcome per event. */
  datatype RunInput = RunInput(initial: Population, events: seq<Event>, obs: seq<Outcome>)

  ghost predicate ValidInput(ri: RunInput)
  {
    |ri.obs| == |ri.events| && ValidOutcomes(ri.obs)
  }

  class ExperimentRunner {
    var reschedulings: int
    const reschedulingsLimit: Option<int>
    var mab: MAB
    const originalHist: int
    const originalRepaired: int
    var history: map<int, Population>
    /** The two seeding proportions held in the experiment settings. */
    var settingsHist: real
    var settingsRepaired: real

    ghost predicate Valid()
      reads this, mab, mab.pullMachine, mab.rewards
    {
      mab.Valid()
    }

    /** Captures the configured weights (in twentieths) and runs without a rescheduling limit. */
    constructor (hist: int, repaired: int)
      ensures Valid() && fresh(mab) && mab.State() == Initial(hist, repaired)
      ensures originalHist == hist && originalRepaired == repaired && reschedulingsLimit == None
      ensures history == map[] && reschedulings == 0
      ensures settingsHist * (Scale as real) == hist as real
      ensures settingsRepaired * (Scale as real) == repaired as real
    {
      originalHist := hist;
      originalRepaired := repaired;
      reschedulingsLimit := None;
      mab := new MAB(hist, repaired);
      history := map[];
      reschedulings := 0;
      settingsHist := hist as real / Scale as real;
      settingsRepaired := repaired as real / Scale as real;
    }

    /** As the plain constructor, with a (possibly absent) rescheduling limit. */
    constructor WithLimit(hist: int, repaired: int, limit: Option<int>)
      ensures Valid() && fresh(mab) && mab.State() == Initial(hist, repaired)
      ensures originalHist == hist && originalRepaired == repaired && reschedulingsLimit == limit
      ensures history == map[] && reschedulings == 0
      ensures settingsHist * (Scale as real) == hist as real
      ensures settingsRepaired * (Scale as real) == repaired as real
    {
      originalHist := hist;
      originalRepaired := repaired;
      reschedulingsLimit := limit;
      mab := new MAB(hist, repaired);
      history := map[];
      reschedulings := 0;
      settingsHist := hist as real / Scale as real;
      settingsRepaired := repaired as real / Scale as real;
    }

    /**
     * One rescheduling: builds the repair strategy for the event and, when the
     * gate is open, runs the selected policy and copies the bandit's weights
     * into the settings (also when no policy matched). Returns the strategy
     * and whether the seeded assembler was used.
     */
    method Reschedule(event: Event, id: string, draw: Draw) returns (strategy: Option<Strategy>, seeded: bool)
      requires Valid() && ValidDraw(draw)
      modifies this`settingsHist, this`settingsRepaired, mab, mab.pullMachine
      ensures Valid()
      ensures strategy == RepairStrategyFor(event)
      ensures seeded == SeedingEnabled(reschedulings, id)
      ensures mab.State() ==
        if seeded && PolicyFor(id).Some? then Apply(old(mab.State()), PolicyFor(id).value, draw)
        else old(mab.State())
      ensures seeded ==> settingsHist == mab.GetHist() && settingsRepaired == mab.GetRepaired()
      ensures !seeded ==> settingsHist == old(settingsHist) && settingsRepaired == old(settingsRepaired)
    {
      strategy := RepairStrategyFor(event);
      seeded := reschedulings > 1 && Contains(ToUpper(id), DynamicTag);
      if seeded {
        if RandomPrefix <= id {
          mab.UpdWeightsRandom(draw.first, draw.second);
        } else if UCB1Prefix <= id {
          mab.UpdWeightsUCB1(draw.explore);
        } else if GreedyPrefix <= id {
          mab.UpdWeightsEpsilonGreedy(draw.coin, draw.choice);
        }
        settingsRepaired := mab.GetRepaired();
        settingsHist := mab.GetHist();
      }
    }

    /**
     * The body of the event loop once the stop test has passed: reschedule,
     * then credit the hypervolume when the project is still unfinished.
     */
    method RescheduleAndReward(event: Event, id: string, o: Outcome) returns (record: Rescheduling)
      requires Valid() && ValidDraw(o.draw)
      modifies this`settingsHist, this`settingsRepaired, mab, mab.pullMachine, mab.rewards
      ensures Valid()
      ensures record == Rescheduling(reschedulings, RepairStrategyFor(event),
                                     SeedingEnabled(reschedulings, id), !o.finishedAfter)
      ensures mab.State() == Feedback(old(mab.State()), id, reschedulings, o)
      ensures SeedingEnabled(reschedulings, id) ==>
        settingsHist == mab.GetHist() && settingsRepaired == mab.GetRepaired()
      ensures !SeedingEnabled(reschedulings, id) ==>
        settingsHist == old(settingsHist) && settingsRepaired == old(settingsRepaired)
    {
      var strategy, seeded := Reschedule(event, id, o.draw);
      if !o.finishedAfter {
        mab.InsertReward(o.hypervolume);
      }
      record := Rescheduling(reschedulings, strategy, seeded, !o.finishedAfter);
    }

    /**
     * What holds after the first `i` reschedulings of a run, the counter
     * reading `n`, when the run started with
     * history `h0`, bandit `b0` and settings (`sh0`, `sr0`), `records` being
     * what has been recorded so far.
     */
    ghost predicate Progress(i: nat, n: int, id: string, input: RunInput, b0: BanditState,
                             h0: map<int, Population>, sh0: real, sr0: real, records: seq<Rescheduling>)
      reads this, mab, mab.pullMachine, mab.rewards
    {
      ValidInput(input) && Inv(b0) && i <= |input.obs| && Valid() &&
      reschedulings == n && |records| == i &&
      (forall j :: 0 <= j < i ==> !Stops(input.obs[j], reschedulingsLimit, j + 1)) &&
      (forall j :: 0 <= j < i ==>
         records[j] == Rescheduling(j + 1, RepairStrategyFor(input.events[j]),
                                    SeedingEnabled(j + 1, id), !input.obs[j].finishedAfter)) &&
      history == Recorded(h0, input.initial, input.obs, i) &&
      mab.State() == BanditAfter(b0, id, input.obs, i) &&
      (SeedingEnabled(i, id) ==> settingsHist == mab.GetHist() && settingsRepaired == mab.GetRepaired()) &&
      (!SeedingEnabled(i, id) ==> settingsHist == sh0 && settingsRepaired == sr0)
    }

    /** One pass of the event loop past the stop test. */
    method Advance(i: nat, id: string, input: RunInput, ghost b0: BanditState,
                   ghost h0: map<int, Population>, ghost sh0: real, ghost sr0: real,
                   records: seq<Rescheduling>) returns (records': seq<Rescheduling>)
      requires Progress(i, i + 1, id, input, b0, h0, sh0, sr0, records)
      requires i < |input.events| && !Stops(input.obs[i], reschedulingsLimit, i + 1)
      modifies this, mab, mab.pullMachine, mab.rewards
      ensures mab == old(mab)
      ensures Progress(i + 1, i + 1, id, input, b0, h0, sh0, sr0, records')
    {
      var record := RescheduleAndReward(input.events[i], id, input.obs[i]);
      history := history[reschedulings := input.obs[i].front];
      records' := records + [record];
    }

    /**
     * One run on one instance: the history starts with the initial front
     * under key 0; each event first bumps the counter, then stops the run
     * when the project was already finished or the counter exceeds the
     * limit, and otherwise reschedules, credits the reward when the project
     * is still unfinished and records the new front under the counter.
     */
    method RunInstance(id: string, input: RunInput) returns (records: seq<Rescheduling>)
      requires Valid() && ValidInput(input)
      modifies this, mab, mab.pullMachine, mab.rewards
      ensures Valid() && mab == old(mab)
      ensures |records| == Completed(input.obs, reschedulingsLimit)
      ensures forall j :: 0 <= j < |records| ==>
        records[j] == Rescheduling(j + 1, RepairStrategyFor(input.events[j]),
                                   SeedingEnabled(j + 1, id), !input.obs[j].finishedAfter)
      ensures reschedulings == if |records| < |input.obs| then |records| + 1 else |records|
      ensures history == Recorded(old(history), input.initial, input.obs, |records|)
      ensures mab.State() == BanditAfter(old(mab.State()), id, input.obs, |records|)
      ensures SeedingEnabled(|records|, id) ==>
        settingsHist == mab.GetHist() && settingsRepaired == mab.GetRepaired()
      ensures !SeedingEnabled(|records|, id) ==>
        settingsHist == old(settingsHist) && settingsRepaired == old(settingsRepaired)
    {
      reschedulings := 0;
      history := history[reschedulings := input.initial];
      records := [];
      var i := 0;
      while i < |input.events|
        invariant Progress(i, i, id, input, old(mab.State()), old(history), old(settingsHist), old(settingsRepaired), records)
        invariant mab == old(mab)
      {
        reschedulings := reschedulings + 1;
        if input.obs[i].finishedBefore || (reschedulingsLimit.Some? && reschedulings > reschedulingsLimit.value) {
          break;
        }
        records := Advance(i, id, input, old(mab.State()), old(history), old(settingsHist), old(settingsRepaired), records);
        i := i + 1;
      }
    }

    /** The bandit at the end of a run that started from a fresh controller. */
    ghost function AfterRun(id: string, ri: RunInput): BanditState
      requires ValidInput(ri)
    {
      BanditAfter(Initial(originalHist, originalRepaired), id, ri.obs, Completed(ri.obs, reschedulingsLimit))
    }

    /**
     * One repetition: a fresh controller from the weights captured at
     * construction, then the run. The bandit depends on this run's inputs
     * only; nothing of an earlier run's counts or rewards carries over. The
     * history and the settings proportions are not reset: keys an earlier,
     * longer run left behind survive, and the settings keep their old values
     * until the gate first opens.
     */
    method RunOnce(id: string, input: RunInput) returns (records: seq<Rescheduling>)
      requires ValidInput(input)
      modifies this
      ensures Valid() && fresh(mab)
      ensures mab.State() == AfterRun(id, input)
      ensures |records| == Completed(input.obs, reschedulingsLimit)
      ensures forall j :: 0 <= j < |records| ==>
        records[j] == Rescheduling(j + 1, RepairStrategyFor(input.events[j]),
                                   SeedingEnabled(j + 1, id), !input.obs[j].finishedAfter)
      ensures reschedulings == if |records| < |input.obs| then |records| + 1 else |records|
      ensures history == Recorded(old(history), input.initial, input.obs, |records|)
      ensures forall j :: j in old(history) ==> j in history
      ensures SeedingEnabled(|records|, id) ==>
        settingsHist == mab.GetHist() && settingsRepaired == mab.GetRepaired()
      ensures !SeedingEnabled(|records|, id) ==>
        settingsHist == old(settingsHist) && settingsRepaired == old(settingsRepaired)
    {
      mab := new MAB(originalHist, originalRepaired);
      records := RunInstance(id, input);
      HistoryGapless(old(history), input.initial, input.obs, |records|);
    }

    /** The runs of one algorithm on one instance, numbered 1 to `numberOfRuns`. */
    method RunRepetitions(file: string, id: string, numberOfRuns: int,
                          input: (string, string, int) -> RunInput)
      requires forall n :: ValidInput(input(file, id, n))
      modifies this
      ensures numberOfRuns >= 1 ==> fresh(mab) && mab.State() == AfterRun(id, input(file, id, numberOfRuns))
      ensures numberOfRuns < 1 ==> mab == old(mab)
      ensures forall j :: j in old(history) ==> j in history
    {
      var run := 1;
      while run <= numberOfRuns
        invariant run == 1 || 1 < run <= numberOfRuns + 1
        invariant run > 1 ==> fresh(mab) && mab.State() == AfterRun(id, input(file, id, run - 1))
        invariant run == 1 ==> mab == old(mab)
        invariant forall j :: j in old(history) ==> j in history
      {
        var records := RunOnce(id, input(file, id, run));
        run := run + 1;
      }
    }

    /** Every algorithm on one instance, in order. */
    method RunAlgorithms(file: string, algorithms: seq<string>, numberOfRuns: int,
                         input: (string, string, int) -> RunInput)
      requires forall a, n :: ValidInput(input(file, a, n))
      modifies this
      ensures |algorithms| > 0 && numberOfRuns >= 1 ==>
        var id := algorithms[|algorithms| - 1];
        fresh(mab) && mab.State() == AfterRun(id, input(file, id, numberOfRuns))
      ensures !(|algorithms| > 0 && numberOfRuns >= 1) ==> mab == old(mab)
      ensures forall j :: j in old(history) ==> j in history
    {
      var a := 0;
      while a < |algorithms|
        invariant 0 <= a <= |algorithms|
        invariant a > 0 && numberOfRuns >= 1 ==>
          fresh(mab) && mab.State() == AfterRun(algorithms[a - 1], input(file, algorithms[a - 1], numberOfRuns))
        invariant !(a > 0 && numberOfRuns >= 1) ==> mab == old(mab)
        invariant forall j :: j in old(history) ==> j in history
      {
        RunRepetitions(file, algorithms[a], numberOfRuns, input);
        a := a + 1;
      }
    }

    /**
     * Every algorithm on every instance, `numberOfRuns` times; `input` gives
     * what the collaborators report for a given instance, algorithm and run.
     * The controller left at the end is the one of the last run alone.
     */
    method Run(instanceFiles: seq<string>, algorithms: seq<string>, numberOfRuns: int,
               input: (string, string, int) -> RunInput)
      requires forall f, a, n :: ValidInput(input(f, a, n))
      modifies this
      ensures |instanceFiles| > 0 && |algorithms| > 0 && numberOfRuns >= 1 ==>
        var id := algorithms[|algorithms| - 1];
        fresh(mab) && mab.State() == AfterRun(id, input(instanceFiles[|instanceFiles| - 1], id, numberOfRuns))
      ensures !(|instanceFiles| > 0 && |algorithms| > 0 && numberOfRuns >= 1) ==> mab == old(mab)
      ensures forall j :: j in old(history) ==> j in history
    {
      var f := 0;
      while f < |instanceFiles|
        invariant 0 <= f <= |instanceFiles|
        invariant f > 0 && |algorithms| > 0 && numberOfRuns >= 1 ==>
          var id := algorithms[|algorithms| - 1];
          fresh(mab) && mab.State() == AfterRun(id, input(instanceFiles[f - 1], id, numberOfRuns))
        invariant !(f > 0 && |algorithms| > 0 && numberOfRuns >= 1) ==> mab == old(mab)
        invariant forall j :: j in old(history) ==> j in history
      {
        RunAlgorithms(instanceFiles[f], algorithms, numberOfRuns, input);
        f := f + 1;
      }
    }
  }

}
