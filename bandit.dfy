/**
 * The adaptive population-seeding controller: a six-armed bandit that moves
 * the shares of historical, repaired and random individuals used to seed
 * each re-optimisation.
 *
 * Shares are counted in twentieths, so the step delta = 0.05 is one unit and
 * the three shares always add up to `Scale`. The random draws and the UCB
 * exploration terms, which the controller takes from `java.util.Random` and
 * from `Math.sqrt`/`Math.log10`, are inputs of the operations here.
 *
 * The pure part (`BanditState` and the functions on it) is the specification;
 * the class `MAB` keeps the same state in fields and arrays and each of its
 * methods is proved to move `State()` exactly as the matching function does.
 */
module Bandit {

  /** One unit of weight is one twentieth of the population. */
  const Scale: int := 20
  /** The step of every arm, 0.05, in twentieths. */
  const Delta: int := 1
  const NumArms: nat := 6
  /** Probability of a random arm in the epsilon-greedy policy. */
  const Epsilon: real := 0.5

  /** The two configurable shares; the random share is what they leave over. */
  datatype Weights = Weights(hist: int, repaired: int)
  {
    function RandomShare(): int
    {
      Scale - hist - repaired
    }
  }

  /** The three sources of seed individuals. */
  datatype Share = Historical | Repaired | Random

  function ShareOf(w: Weights, s: Share): int
  {
    match s
    case Historical => w.hist
    case Repaired => w.repaired
    case Random => w.RandomShare()
  }

  /** Every share holds at least one step (0.05). */
  predicate Floor(w: Weights)
  {
    w.hist >= Delta && w.repaired >= Delta && w.RandomShare() >= Delta
  }

  // ---------------------------------------------------------------------------
  // Arms

  /**
   * The guards of `pullArm`: arms 0 and 4 are refused when hist <= 2 delta,
   * arms 2 and 5 when repaired <= 2 delta, arms 1 and 3 when the random share
   * <= 2 delta.
   */
  predicate Accepted(w: Weights, arm: int)
  {
    !(w.hist <= 2 * Delta && (arm == 0 || arm == 4)) &&
    !(w.repaired <= 2 * Delta && (arm == 2 || arm == 5)) &&
    !(w.RandomShare() <= 2 * Delta && (arm == 1 || arm == 3))
  }

  /** The weight move of `pullArm`: a refused arm leaves the weights alone. */
  function Step(w: Weights, arm: int): (r: Weights)
    requires 0 <= arm < NumArms
    ensures Floor(w) ==> Floor(r)
    ensures r.hist + r.repaired <= w.hist + w.repaired + Delta
  {
    if !Accepted(w, arm) then w
    else if arm == 0 then w.(hist := w.hist - Delta)
    else if arm == 1 then w.(hist := w.hist + Delta)
    else if arm == 2 then w.(repaired := w.repaired - Delta)
    else if arm == 3 then w.(repaired := w.repaired + Delta)
    else if arm == 4 then Weights(w.hist - Delta, w.repaired + Delta)
    else Weights(w.hist + Delta, w.repaired - Delta)
  }

  /** The share each arm takes a step from. */
  function Donor(arm: int): Share
    requires 0 <= arm < NumArms
  {
    [Historical, Random, Repaired, Random, Historical, Repaired][arm]
  }

  /** The share each arm gives that step to. */
  function Recipient(arm: int): Share
    requires 0 <= arm < NumArms
  {
    [Random, Historical, Random, Repaired, Repaired, Historical][arm]
  }

  /**
   * Every arm is a transfer of one step from its donor share to its recipient
   * share, refused exactly when the donor holds 2 delta or less; the third
   * share never moves.
   */
  lemma StepIsGuardedTransfer(w: Weights, arm: int, s: Share)
    requires 0 <= arm < NumArms
    ensures Donor(arm) != Recipient(arm)
    ensures Accepted(w, arm) <==> ShareOf(w, Donor(arm)) > 2 * Delta
    ensures ShareOf(Step(w, arm), s) ==
      ShareOf(w, s) +
      (if !Accepted(w, arm) then 0
       else if s == Recipient(arm) then Delta
       else if s == Donor(arm) then -Delta
       else 0)
  {
  }

  // ---------------------------------------------------------------------------
  // Controller state

  datatype BanditState = BanditState(
    weights: Weights,
    pulls: seq<int>,     // pullMachine: how often each arm was pulled
    rewards: seq<real>,  // accumulated reward of each arm
    time: int,           // number of policy calls so far
    lastArm: int)        // the last arm whose move was accepted

  /**
   * What every reachable state satisfies: six arms, counts never negative,
   * and every arm below `time` pulled at least once. Once `time` reaches
   * `NumArms`, every count is positive, so mean rewards are defined.
   */
  ghost predicate Inv(b: BanditState)
  {
    |b.pulls| == NumArms && |b.rewards| == NumArms &&
    0 <= b.lastArm < NumArms && 0 <= b.time &&
    forall i :: 0 <= i < NumArms ==> 0 <= b.pulls[i] && (i < b.time ==> 1 <= b.pulls[i])
  }

  /** Pull counts after the first `k` cold-start calls: arms 0..k-1 once each. */
  function ColdCounts(k: int): seq<int>
  {
    seq(NumArms, i => if i < k then 1 else 0)
  }

  /** The controller as the constructor leaves it. */
  function Initial(hist: int, repaired: int): (b: BanditState)
    ensures Inv(b) && b.weights == Weights(hist, repaired)
    ensures b.pulls == ColdCounts(0) && b.time == 0 && b.lastArm == 0
    ensures forall i :: 0 <= i < NumArms ==> b.rewards[i] == 0.0
  {
    BanditState(Weights(hist, repaired), seq(NumArms, _ => 0), seq(NumArms, _ => 0.0), 0, 0)
  }

  /** `pullArm`: count the pull, then move the weights unless a guard refuses. */
  function Pull(b: BanditState, arm: int): (r: BanditState)
    requires Inv(b) && 0 <= arm < NumArms
    ensures Inv(r)
  {
    b.(weights := Step(b.weights, arm),
       pulls := b.pulls[arm := b.pulls[arm] + 1],
       lastArm := if Accepted(b.weights, arm) then arm else b.lastArm)
  }

  /** Sum of the pull counts. */
  function Total(s: seq<int>): int
  {
    if s == [] then 0 else Total(s[..|s| - 1]) + s[|s| - 1]
  }

  lemma {:induction false} TotalOfZeros(s: seq<int>)
    requires forall i :: 0 <= i < |s| ==> s[i] == 0
    ensures Total(s) == 0
  {
    if s != [] {
      TotalOfZeros(s[..|s| - 1]);
    }
  }

  lemma {:induction false} TotalBump(s: seq<int>, i: int)
    requires 0 <= i < |s|
    ensures Total(s[i := s[i] + 1]) == Total(s) + 1
  {
    var n := |s| - 1;
    var t := s[i := s[i] + 1];
    assert t[..n] == if i < n then s[..n][i := s[i] + 1] else s[..n];
    if i < n {
      TotalBump(s[..n], i);
    }
  }

  /**
   * `pullArm` counts exactly one pull, on `arm` and no other arm, whether or
   * not the move is accepted; a refused move changes neither the weights nor
   * `lastArm`; rewards and `time` never change.
   */
  lemma {:induction false} PullCountsExactlyOne(b: BanditState, arm: int)
    requires Inv(b) && 0 <= arm < NumArms
    ensures Pull(b, arm).pulls[arm] == b.pulls[arm] + 1
    ensures forall j :: 0 <= j < NumArms && j != arm ==> Pull(b, arm).pulls[j] == b.pulls[j]
    ensures Total(Pull(b, arm).pulls) == Total(b.pulls) + 1
    ensures !Accepted(b.weights, arm) ==>
      Pull(b, arm).weights == b.weights && Pull(b, arm).lastArm == b.lastArm
    ensures Pull(b, arm).rewards == b.rewards && Pull(b, arm).time == b.time
  {
    TotalBump(b.pulls, arm);
  }

  // ---------------------------------------------------------------------------
  // Exploitation: the scan over the arms' scores

  /** The running best of the scan after the scores in `s`: -1 or the largest score above it. */
  function Top(s: seq<real>): real
  {
    if s == [] then -1.0
    else if s[|s| - 1] > Top(s[..|s| - 1]) then s[|s| - 1]
    else Top(s[..|s| - 1])
  }

  /** The arm the scan settles on: updated only on a strictly better score. */
  function FirstBest(s: seq<real>): (r: nat)
    ensures s == [] || r < |s|
  {
    if s == [] then 0
    else if s[|s| - 1] > Top(s[..|s| - 1]) then |s| - 1
    else FirstBest(s[..|s| - 1])
  }

  /**
   * The independent reading of the scan: when some score exceeds -1, the
   * chosen arm has the maximal score and every arm before it scores strictly
   * less; otherwise arm 0 is chosen.
   */
  ghost predicate IsFirstBest(s: seq<real>, arm: int)
  {
    if exists j :: 0 <= j < |s| && s[j] > -1.0 then
      0 <= arm < |s| &&
      (forall j :: 0 <= j < |s| ==> s[j] <= s[arm]) &&
      (forall j :: 0 <= j < arm ==> s[j] < s[arm])
    else arm == 0
  }

  lemma {:induction false} TopFacts(s: seq<real>)
    ensures Top(s) >= -1.0
    ensures forall j :: 0 <= j < |s| ==> s[j] <= Top(s)
    ensures Top(s) > -1.0 ==>
      |s| > 0 && s[FirstBest(s)] == Top(s) &&
      forall j :: 0 <= j < FirstBest(s) ==> s[j] < Top(s)
    ensures Top(s) == -1.0 ==> FirstBest(s) == 0
  {
    if s != [] {
      var p := s[..|s| - 1];
      TopFacts(p);
      assert forall j :: 0 <= j < |p| ==> s[j] == p[j];
    }
  }

  /** The scan picks the lowest-index arm among those with the maximal score, and only that arm. */
  lemma FirstBestIsFirstMaximum(s: seq<real>, arm: int)
    ensures IsFirstBest(s, arm) <==> arm == FirstBest(s)
  {
    TopFacts(s);
  }

  /** The exploitation loop of `updWeightsUCB1`/`updWeightsEpsilonGreedy`: `bst` starts at -1, strict `>`. */
  method ScanBest(scores: seq<real>) returns (arm: nat)
    ensures arm == FirstBest(scores)
  {
    arm := 0;
    var bst := -1.0;
    for i := 0 to |scores|
      invariant bst == Top(scores[..i])
      invariant arm == FirstBest(scores[..i])
    {
      assert scores[..i + 1][..i] == scores[..i];
      if scores[i] > bst {
        bst := scores[i];
        arm := i;
      }
    }
    assert scores[..|scores|] == scores;
  }

  // ---------------------------------------------------------------------------
  // Policies

  /** Mean reward of every arm; defined once every arm has been pulled. */
  function Means(b: BanditState): (m: seq<real>)
    requires Inv(b) && b.time >= NumArms
    ensures |m| == NumArms
  {
    seq(NumArms, i requires 0 <= i < NumArms => b.rewards[i] / (b.pulls[i] as real))
  }

  /** UCB1 scores: the mean plus the exploration term supplied for each arm. */
  function UCBScores(b: BanditState, explore: seq<real>): (m: seq<real>)
    requires Inv(b) && b.time >= NumArms && |explore| == NumArms
    ensures |m| == NumArms
  {
    var means := Means(b);
    seq(NumArms, i requires 0 <= i < NumArms => means[i] + explore[i])
  }

  /** `updWeightsRandom`: hist := (1 + first)/20, repaired := (1 + second)/20. */
  function Redraw(b: BanditState, first: int, second: int): (r: BanditState)
    requires Inv(b) && 0 <= first < 18 && 0 <= second < 18 - first
    ensures Inv(r)
  {
    b.(weights := Weights(1 + first, 1 + second))
  }

  /** The arm UCB1 pulls: arm `time` during cold start, then the best UCB score. */
  function UCB1Arm(b: BanditState, explore: seq<real>): (arm: int)
    requires Inv(b) && |explore| == NumArms
    ensures 0 <= arm < NumArms
  {
    if b.time < NumArms then b.time else FirstBest(UCBScores(b, explore))
  }

  /** The arm epsilon-greedy pulls: arm `time` during cold start, then a random arm or the best mean. */
  function GreedyArm(b: BanditState, coin: real, choice: int): (arm: int)
    requires Inv(b) && 0 <= choice < NumArms
    ensures 0 <= arm < NumArms
  {
    if b.time < NumArms then b.time
    else if coin < Epsilon then choice
    else FirstBest(Means(b))
  }

  function UCB1(b: BanditState, explore: seq<real>): (r: BanditState)
    requires Inv(b) && |explore| == NumArms
    ensures Inv(r)
  {
    Pull(b, UCB1Arm(b, explore)).(time := b.time + 1)
  }

  function EpsilonGreedy(b: BanditState, coin: real, choice: int): (r: BanditState)
    requires Inv(b) && 0 <= choice < NumArms
    ensures Inv(r)
  {
    Pull(b, GreedyArm(b, coin, choice)).(time := b.time + 1)
  }

  /** `insertReward`: the reward goes to the last accepted arm. */
  function Credit(b: BanditState, reward: real): (r: BanditState)
    requires Inv(b)
    ensures Inv(r)
  {
    b.(rewards := b.rewards[b.lastArm := b.rewards[b.lastArm] + reward])
  }

  /** The values a policy call draws from the random generator and the UCB formula. */
  datatype Draw = Draw(explore: seq<real>, coin: real, choice: int, first: int, second: int)

  /**
   * The ranges of those values: a square root is never negative, nextDouble
   * lies in [0, 1), nextInt(6) in [0, 6), nextInt(18) in [0, 18) and
   * nextInt(19 - hist) in [0, 18 - first).
   */
  predicate ValidDraw(d: Draw)
  {
    |d.explore| == NumArms && (forall i :: 0 <= i < NumArms ==> 0.0 <= d.explore[i]) &&
    0.0 <= d.coin < 1.0 && 0 <= d.choice < NumArms &&
    0 <= d.first < 18 && 0 <= d.second < 18 - d.first
  }

  datatype Policy = RandomPolicy | UCB1Policy | EpsilonGreedyPolicy

  /** One call of the selected policy. */
  function Apply(b: BanditState, p: Policy, d: Draw): (r: BanditState)
    requires Inv(b) && ValidDraw(d)
    ensures Inv(r)
    ensures r.rewards == b.rewards
    ensures r.time == if p == RandomPolicy then b.time else b.time + 1
    ensures Floor(b.weights) || p == RandomPolicy ==> Floor(r.weights)
    ensures p == RandomPolicy ==> r.weights.hist <= 18 && r.weights.repaired <= 18
  {
    match p
    case RandomPolicy => Redraw(b, d.first, d.second)
    case UCB1Policy => UCB1(b, d.explore)
    case EpsilonGreedyPolicy => EpsilonGreedy(b, d.coin, d.choice)
  }

  /** The arm a pulling policy chooses for the next call. */
  function ChosenArm(b: BanditState, p: Policy, d: Draw): (arm: int)
    requires Inv(b) && ValidDraw(d) && p != RandomPolicy
    ensures 0 <= arm < NumArms
  {
    if p == UCB1Policy then UCB1Arm(b, d.explore) else GreedyArm(b, d.coin, d.choice)
  }

  /** A pulling policy call is a pull of its chosen arm followed by a tick of `time`. */
  lemma PolicyPullsChosenArm(b: BanditState, p: Policy, d: Draw)
    requires Inv(b) && ValidDraw(d) && p != RandomPolicy
    ensures Apply(b, p, d) == Pull(b, ChosenArm(b, p, d)).(time := b.time + 1)
    ensures b.time < NumArms ==> ChosenArm(b, p, d) == b.time
  {
  }

  /** The controller after one call of policy `p` per draw. */
  function Repeat(b: BanditState, p: Policy, ds: seq<Draw>): (r: BanditState)
    requires Inv(b) && forall i :: 0 <= i < |ds| ==> ValidDraw(ds[i])
    ensures Inv(r)
  {
    if ds == [] then b else Apply(Repeat(b, p, ds[..|ds| - 1]), p, ds[|ds| - 1])
  }

  /**
   * Cold start: from a fresh controller, UCB1 and epsilon-greedy pull arms
   * 0, 1, ..., 5 in that order, whatever they draw; after k <= 6 calls arms
   * 0..k-1 have been pulled once each and `time` is k.
   */
  lemma {:induction false} ColdStartPullsInOrder(hist: int, repaired: int, p: Policy, ds: seq<Draw>)
    requires p != RandomPolicy && |ds| <= NumArms
    requires forall i :: 0 <= i < |ds| ==> ValidDraw(ds[i])
    ensures Repeat(Initial(hist, repaired), p, ds).pulls == ColdCounts(|ds|)
    ensures Repeat(Initial(hist, repaired), p, ds).time == |ds|
    ensures |ds| > 0 ==>
      ChosenArm(Repeat(Initial(hist, repaired), p, ds[..|ds| - 1]), p, ds[|ds| - 1]) == |ds| - 1
  {
    if ds != [] {
      var k := |ds| - 1;
      var prefix := ds[..k];
      assert forall i :: 0 <= i < |prefix| ==> prefix[i] == ds[i];
      ColdStartPullsInOrder(hist, repaired, p, prefix);
      ColdStartStep(Repeat(Initial(hist, repaired), p, prefix), p, ds[k]);
    }
  }

  /** One cold-start call with `k` arms already pulled pulls arm `k`. */
  lemma ColdStartStep(b: BanditState, p: Policy, d: Draw)
    requires Inv(b) && ValidDraw(d) && p != RandomPolicy
    requires b.time < NumArms && b.pulls == ColdCounts(b.time)
    ensures ChosenArm(b, p, d) == b.time
    ensures Apply(b, p, d).pulls == ColdCounts(b.time + 1)
    ensures Apply(b, p, d).time == b.time + 1
  {
    var k := b.time;
    PolicyPullsChosenArm(b, p, d);
    assert ColdCounts(k)[k := ColdCounts(k)[k] + 1] == ColdCounts(k + 1);
  }

  /**
   * From a fresh controller the pull counts always add up to `time`: every
   * pulling call counts one pull and one trial, a random redraw neither.
   */
  lemma {:induction false} TrialsMatchPulls(hist: int, repaired: int, p: Policy, ds: seq<Draw>)
    requires forall i :: 0 <= i < |ds| ==> ValidDraw(ds[i])
    ensures Total(Repeat(Initial(hist, repaired), p, ds).pulls) == Repeat(Initial(hist, repaired), p, ds).time
  {
    if ds == [] {
      TotalOfZeros(ColdCounts(0));
    } else {
      var k := |ds| - 1;
      var prefix := ds[..k];
      assert forall i :: 0 <= i < |prefix| ==> prefix[i] == ds[i];
      TrialsMatchPulls(hist, repaired, p, prefix);
      var b := Repeat(Initial(hist, repaired), p, prefix);
      if p != RandomPolicy {
        PolicyPullsChosenArm(b, p, ds[k]);
        PullCountsExactlyOne(b, ChosenArm(b, p, ds[k]));
      }
    }
  }

  /**
   * The floor survives any sequence of calls: once every share holds at least
   * 0.05, it keeps holding at least 0.05 (and a random redraw restores it).
   */
  lemma {:induction false} FloorKept(b: BanditState, p: Policy, ds: seq<Draw>)
    requires Inv(b) && forall i :: 0 <= i < |ds| ==> ValidDraw(ds[i])
    requires Floor(b.weights) || (p == RandomPolicy && ds != [])
    ensures Floor(Repeat(b, p, ds).weights)
  {
    if ds != [] {
      var prefix := ds[..|ds| - 1];
      assert forall i :: 0 <= i < |prefix| ==> prefix[i] == ds[i];
      if Floor(b.weights) {
        FloorKept(b, p, prefix);
      }
    }
  }

  /**
   * A reward inserted right after a pull goes to the pulled arm if its move
   * was accepted, and otherwise to the arm credited before; no other arm's
   * reward changes.
   */
  lemma RewardGoesToLastAcceptedArm(b: BanditState, arm: int, reward: real)
    requires Inv(b) && 0 <= arm < NumArms
    ensures var credited := if Accepted(b.weights, arm) then arm else b.lastArm;
      var r := Credit(Pull(b, arm), reward);
      r.rewards[credited] == b.rewards[credited] + reward &&
      forall j :: 0 <= j < NumArms && j != credited ==> r.rewards[j] == b.rewards[j]
  {
  }

  // ---------------------------------------------------------------------------
  // The controller object

  class MAB {
    var hist: int
    var repaired: int
    const pullMachine: array<int>
    const rewards: array<real>
    var time: int
    var lastArm: int

    /** The abstract value of the object. */
    function State(): BanditState
      reads this, pullMachine, rewards
    {
      BanditState(Weights(hist, repaired), pullMachine[..], rewards[..], time, lastArm)
    }

    ghost predicate Valid()
      reads this, pullMachine, rewards
    {
      pullMachine.Length == NumArms && rewards.Length == NumArms && Inv(State())
    }

    constructor (hist: int, repaired: int)
      ensures Valid() && State() == Initial(hist, repaired)
      ensures fresh(pullMachine) && fresh(rewards)
    {
      this.hist := hist;
      this.repaired := repaired;
      pullMachine := new int[NumArms];
      rewards := new real[NumArms];
      time := 0;
      lastArm := 0;
      new;
      for i := 0 to NumArms
        invariant forall j :: 0 <= j < i ==> pullMachine[j] == 0 && rewards[j] == 0.0
        modifies pullMachine, rewards
      {
        pullMachine[i] := 0;
        rewards[i] := 0.0;
      }
    }

    /** The historical share as a fraction of the population. */
    function GetHist(): (h: real)
      reads this
      ensures h * (Scale as real) == hist as real
    {
      hist as real / Scale as real
    }

    /** The repaired share as a fraction of the population. */
    function GetRepaired(): (r: real)
      reads this
      ensures r * (Scale as real) == repaired as real
    {
      repaired as real / Scale as real
    }

    method PullArm(arm: int)
      requires Valid() && 0 <= arm < NumArms
      modifies this, pullMachine
      ensures Valid() && State() == Pull(old(State()), arm)
    {
      pullMachine[arm] := pullMachine[arm] + 1;
      if hist <= 2 * Delta && (arm == 0 || arm == 4) {
        return;
      }
      if repaired <= 2 * Delta && (arm == 2 || arm == 5) {
        return;
      }
      if Scale - hist - repaired <= 2 * Delta && (arm == 1 || arm == 3) {
        return;
      }
      if arm == 0 {
        hist := hist - Delta;
      } else if arm == 1 {
        hist := hist + Delta;
      } else if arm == 2 {
        repaired := repaired - Delta;
      } else if arm == 3 {
        repaired := repaired + Delta;
      } else if arm == 4 {
        hist := hist - Delta;
        repaired := repaired + Delta;
      } else {
        hist := hist + Delta;
        repaired := repaired - Delta;
      }
      lastArm := arm;
    }

    /** `first` and `second` are the two nextInt draws. */
    method UpdWeightsRandom(first: int, second: int)
      requires Valid() && 0 <= first < 18 && 0 <= second < 18 - first
      modifies this
      ensures Valid() && State() == Redraw(old(State()), first, second)
    {
      var h := 1 + first;
      var r := 1 + second;
      hist := h;
      repaired := r;
    }

    /** `explore[i]` is the UCB exploration term of arm i. */
    method UpdWeightsUCB1(explore: seq<real>)
      requires Valid() && |explore| == NumArms
      modifies this, pullMachine
      ensures Valid() && State() == UCB1(old(State()), explore)
    {
      var arm := 0;
      if time < NumArms {
        arm := time;
      } else {
        arm := ScanBest(UCBScores(State(), explore));
      }
      PullArm(arm);
      time := time + 1;
    }

    /** `coin` is the nextDouble draw and `choice` the nextInt(6) draw. */
    method UpdWeightsEpsilonGreedy(coin: real, choice: int)
      requires Valid() && 0 <= choice < NumArms
      modifies this, pullMachine
      ensures Valid() && State() == EpsilonGreedy(old(State()), coin, choice)
    {
      var arm := 0;
      if time < NumArms {
        arm := time;
      } else if coin < Epsilon {
        arm := choice;
      } else {
        arm := ScanBest(Means(State()));
      }
      PullArm(arm);
      time := time + 1;
    }

    method InsertReward(reward: real)
      requires Valid()
      modifies rewards
      ensures Valid() && State() == Credit(old(State()), reward)
    {
      rewards[lastArm] := rewards[lastArm] + reward;
    }
  }

}
