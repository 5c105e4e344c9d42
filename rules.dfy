/**
 * The rules of the AI work-force simulation, on values.
 *
 * Each agent kind has a deterministic update rule once its random draws are
 * given: a worker reskills or loses its job under the automation threat, a
 * corporation automates or augments depending on how many workers are still
 * employed, and the government picks a policy from the employment rate and,
 * on the pro-worker branch, reskills every unemployed worker.
 *
 * A `World` is the whole simulation state (all workers, all corporations, the
 * government's policy and the shared automation level).  Agents are numbered
 * as the simulation numbers them: workers 0 .. n-1, corporations n .. n+c-1,
 * the government n+c.  `Round` steps the agents in a caller-given order,
 * each agent reading the state left by the agents before it.
 */
module Rules {

  /** A result of `random.random()`. */
  type Draw = r: real | 0.0 <= r < 1.0

  /**
   * The draws a worker step may consume: `reskill` is compared against the
   * worker's adaptability, and `layoff`, drawn only when the worker does not
   * reskill, against the gap between automation level and skill.  A draw the
   * step does not consume is ignored.
   */
  datatype Draws = Draws(reskill: Draw, layoff: Draw)

  datatype WorkerState = WorkerState(skillLevel: real, adaptability: real, employed: bool, wellBeing: real)

  datatype CorporationState = CorporationState(automationInvestment: real, competitiveness: real, profit: real)

  /** The government's stance: "balanced", "pro-worker" or "pro-business". */
  datatype Policy = Balanced | ProWorker | ProBusiness

  datatype World = World(workers: seq<WorkerState>, corporations: seq<CorporationState>, policy: Policy, automationLevel: real)

  /** One row of the metrics time series. */
  datatype Record = Record(employment: real, averageSkill: real, workerWellbeing: real, corporateProfit: real, automationLevel: real)

  function Min(a: real, b: real): real { if a <= b then a else b }

  function Max(a: real, b: real): real { if a >= b then a else b }

  // ---------------------------------------------------------------- workers

  /**
   * One worker step under the shared automation level.  Only a threatened
   * worker (automation level above its skill) reskills or loses its job; the
   * well-being update afterwards always runs, capped at 1.0 for the employed
   * and floored at 0.1 for the unemployed.
   */
  function WorkerRule(w: WorkerState, automationLevel: real, d: Draws): (r: WorkerState)
    // unemployment is permanent
    ensures r.employed ==> w.employed
    // without a threat, only well-being changes
    ensures automationLevel <= w.skillLevel ==> r.skillLevel == w.skillLevel && r.employed == w.employed
    // the worker reskills exactly when threatened and the first draw is below its adaptability
    ensures r.skillLevel == w.skillLevel + 0.1 <==> automationLevel > w.skillLevel && d.reskill < w.adaptability
    ensures r.skillLevel != w.skillLevel + 0.1 ==> r.skillLevel == w.skillLevel
    // an employed worker is laid off exactly when threatened, not reskilling, and the second draw falls below the gap
    ensures w.employed && !r.employed <==>
              w.employed && automationLevel > w.skillLevel && d.reskill >= w.adaptability
              && d.layoff < automationLevel - w.skillLevel
    ensures r.adaptability == w.adaptability
    ensures r.employed ==> r.wellBeing <= 1.0
    ensures !r.employed ==> r.wellBeing >= 0.1
    ensures w.wellBeing <= 1.0 ==> r.wellBeing <= 1.0
  {
    var threatened := automationLevel > w.skillLevel;
    var reskills := threatened && d.reskill < w.adaptability;
    var laidOff := threatened && !reskills && d.layoff < automationLevel - w.skillLevel;
    var w1 :=
      if reskills then w.(skillLevel := w.skillLevel + 0.1, wellBeing := w.wellBeing - 0.05)
      else if laidOff then w.(employed := false, wellBeing := w.wellBeing - 0.2)
      else w;
    if w1.employed then w1.(wellBeing := Min(1.0, w1.wellBeing + 0.02))
    else w1.(wellBeing := Max(0.1, w1.wellBeing - 0.05))
  }

  /**
   * The floor of 0.1 applies to unemployed workers only: an employed worker
   * who reskills loses 0.05 and regains only 0.02, ending below 0.1 here.
   * The worker is reachable: skill 0.3 after twenty reskills, still employed.
   */
  lemma EmployedWellBeingCanFallBelowFloor()
    ensures var r := WorkerRule(WorkerState(2.3, 0.5, true, 0.1), 5.0, Draws(0.0, 0.0));
            r.employed && r.wellBeing < 0.1
  {
  }

  /** Number of employed workers, as the population-wide comprehension counts them. */
  function CountEmployed(ws: seq<WorkerState>): (k: nat)
    ensures k <= |ws|
  {
    if ws == [] then 0 else (if ws[0].employed then 1 else 0) + CountEmployed(ws[1..])
  }

  /** Fewer (pointwise) employment flags give no larger count. */
  lemma {:induction false} CountEmployedMonotone(before: seq<WorkerState>, after: seq<WorkerState>)
    requires |before| == |after|
    requires forall i :: 0 <= i < |after| && after[i].employed ==> before[i].employed
    ensures CountEmployed(after) <= CountEmployed(before)
  {
    if after != [] {
      CountEmployedMonotone(before[1..], after[1..]);
    }
  }

  // ----------------------------------------------------------- corporations

  datatype CorporationOutcome = CorporationOutcome(corporation: CorporationState, automationLevel: real)

  /** The automate branch is taken when more than 70% of the workforce is employed. */
  predicate AutomationBranch(employedWorkers: nat, numWorkers: nat)
  {
    employedWorkers as real > numWorkers as real * 0.7
  }

  /**
   * One corporation step, given the live employed count.  The automate branch
   * invests (and raises the shared automation level by 0.02) only when profit
   * exceeds 0.8; the augment branch shifts 0.05 out of automation investment
   * and gains 0.02 competitiveness.  The profit update always runs, on the
   * values the branch left.
   */
  function CorporationRule(c: CorporationState, employedWorkers: nat, numWorkers: nat, automationLevel: real): (r: CorporationOutcome)
    ensures r.automationLevel == automationLevel || r.automationLevel == automationLevel + 0.02
    ensures r.automationLevel == automationLevel + 0.02 <==> AutomationBranch(employedWorkers, numWorkers) && c.profit > 0.8
    ensures !AutomationBranch(employedWorkers, numWorkers) ==>
              r.corporation.automationInvestment == c.automationInvestment - 0.05
              && r.corporation.competitiveness == c.competitiveness + 0.02
    ensures AutomationBranch(employedWorkers, numWorkers) ==>
              r.corporation.competitiveness == c.competitiveness
              && r.corporation.automationInvestment == c.automationInvestment + (if c.profit > 0.8 then 0.1 else 0.0)
    ensures r.corporation.profit
              == (if r.automationLevel > automationLevel then c.profit - 0.2 else c.profit)
                 + r.corporation.competitiveness * 0.1 - r.corporation.automationInvestment * 0.05
  {
    var automates := AutomationBranch(employedWorkers, numWorkers);
    var invests := automates && c.profit > 0.8;
    var c1 :=
      if invests then c.(automationInvestment := c.automationInvestment + 0.1, profit := c.profit - 0.2)
      else if automates then c
      else c.(automationInvestment := c.automationInvestment - 0.05, competitiveness := c.competitiveness + 0.02);
    var c2 := c1.(profit := c1.profit + c1.competitiveness * 0.1 - c1.automationInvestment * 0.05);
    CorporationOutcome(c2, if invests then automationLevel + 0.02 else automationLevel)
  }

  // ------------------------------------------------------------- government

  function EmploymentRate(employedWorkers: nat, numWorkers: nat): real
    requires numWorkers > 0
  {
    employedWorkers as real / numWorkers as real
  }

  /** The policy for the current employment rate; the three cases are exhaustive and exclusive. */
  function PolicyFor(employedWorkers: nat, numWorkers: nat): (p: Policy)
    requires numWorkers > 0
    ensures p == ProWorker <==> EmploymentRate(employedWorkers, numWorkers) < 0.7
    ensures p == ProBusiness <==> EmploymentRate(employedWorkers, numWorkers) > 0.9
    ensures p == Balanced <==> 0.7 <= EmploymentRate(employedWorkers, numWorkers) <= 0.9
  {
    var rate := EmploymentRate(employedWorkers, numWorkers);
    if rate < 0.7 then ProWorker
    else if rate > 0.9 then ProBusiness
    else Balanced
  }

  /** The reskilling program's effect on one worker: only an unemployed worker gains skill and adaptability. */
  function Reskilled(w: WorkerState): WorkerState
  {
    if w.employed then w else w.(skillLevel := w.skillLevel + 0.1, adaptability := w.adaptability + 0.05)
  }

  /** The reskilling program applied to every worker in population order. */
  function ReskillAll(ws: seq<WorkerState>): (r: seq<WorkerState>)
    ensures |r| == |ws|
    ensures forall i :: 0 <= i < |ws| && ws[i].employed ==> r[i] == ws[i]
    ensures forall i :: 0 <= i < |ws| && !ws[i].employed ==>
              r[i].skillLevel == ws[i].skillLevel + 0.1 && r[i].adaptability == ws[i].adaptability + 0.05
              && !r[i].employed && r[i].wellBeing == ws[i].wellBeing
    ensures forall i :: 0 <= i < |ws| ==> r[i] == Reskilled(ws[i])
    ensures CountEmployed(r) == CountEmployed(ws)
  {
    if ws == [] then [] else [Reskilled(ws[0])] + ReskillAll(ws[1..])
  }

  /**
   * One government step: choose the policy from the live employment rate and
   * reskill the unemployed on the pro-worker branch only.
   */
  function GovernmentRule(w: World): (r: World)
    requires |w.workers| > 0
    ensures r.policy == PolicyFor(CountEmployed(w.workers), |w.workers|)
    ensures r.policy == ProWorker <==> EmploymentRate(CountEmployed(w.workers), |w.workers|) < 0.7
    ensures r.policy == ProWorker ==> r.workers == ReskillAll(w.workers)
    ensures r.policy != ProWorker ==> r.workers == w.workers
    ensures r.corporations == w.corporations && r.automationLevel == w.automationLevel
    ensures |r.workers| == |w.workers|
    ensures forall i :: 0 <= i < |w.workers| ==>
              r.workers[i].employed == w.workers[i].employed && r.workers[i].wellBeing == w.workers[i].wellBeing
    ensures CountEmployed(r.workers) == CountEmployed(w.workers)
  {
    var p := PolicyFor(CountEmployed(w.workers), |w.workers|);
    w.(policy := p, workers := if p == ProWorker then ReskillAll(w.workers) else w.workers)
  }

  // ----------------------------------------------------------------- rounds

  predicate IsWorkerId(w: World, id: nat) { id < |w.workers| }

  predicate IsCorporationId(w: World, id: nat) { |w.workers| <= id < |w.workers| + |w.corporations| }

  predicate IsAgentId(w: World, id: nat) { id <= |w.workers| + |w.corporations| }

  /** Every well-being value is at most 1.0. */
  predicate WellBeingCapped(ws: seq<WorkerState>)
  {
    forall i :: 0 <= i < |ws| ==> ws[i].wellBeing <= 1.0
  }

  /**
   * The scheduler's visiting order for one round: every agent id of a
   * population of `size` agents exactly once.
   */
  predicate IsSchedule(order: seq<nat>, size: nat)
  {
    |order| == size
    && (forall k :: 0 <= k < |order| ==> order[k] < size)
    && (forall k, l :: 0 <= k < l < |order| ==> order[k] != order[l])
  }

  /** The agent with id `id` takes its turn, reading the live state `w`. */
  function StepAgent(w: World, id: nat, draws: seq<Draws>): (r: World)
    requires |w.workers| > 0 && |draws| == |w.workers| && IsAgentId(w, id)
    ensures |r.workers| == |w.workers| && |r.corporations| == |w.corporations|
    // only a corporation moves the automation level, by 0.02 at most, never down
    ensures r.automationLevel == w.automationLevel
            || (IsCorporationId(w, id) && r.automationLevel == w.automationLevel + 0.02)
    // nobody regains employment
    ensures forall i :: 0 <= i < |w.workers| && r.workers[i].employed ==> w.workers[i].employed
    ensures WellBeingCapped(w.workers) ==> WellBeingCapped(r.workers)
    // a worker's turn changes that worker only; a corporation's turn changes no worker
    ensures IsWorkerId(w, id) ==>
              r == w.(workers := w.workers[id := r.workers[id]])
    ensures IsCorporationId(w, id) ==> r.workers == w.workers && r.policy == w.policy
  {
    var n, c := |w.workers|, |w.corporations|;
    if id < n then
      w.(workers := w.workers[id := WorkerRule(w.workers[id], w.automationLevel, draws[id])])
    else if id < n + c then
      var o := CorporationRule(w.corporations[id - n], CountEmployed(w.workers), n, w.automationLevel);
      w.(corporations := w.corporations[id - n := o.corporation], automationLevel := o.automationLevel)
    else
      GovernmentRule(w)
  }

  /** The agents in `order` take their turns one after another, each reading the live state. */
  function Round(w: World, order: seq<nat>, draws: seq<Draws>): (r: World)
    requires |w.workers| > 0 && |draws| == |w.workers|
    requires forall k :: 0 <= k < |order| ==> IsAgentId(w, order[k])
    ensures |r.workers| == |w.workers| && |r.corporations| == |w.corporations|
    decreases |order|
  {
    if order == [] then w
    else
      var mid := Round(w, order[..|order| - 1], draws);
      assert IsAgentId(w, order[|order| - 1]);
      assert |mid.workers| == |w.workers| && |mid.corporations| == |w.corporations|;
      assert IsAgentId(mid, order[|order| - 1]);
      StepAgent(mid, order[|order| - 1], draws)
  }

  /** Playing one more turn of the schedule extends the round by that agent's step. */
  lemma RoundPrefix(w: World, order: seq<nat>, draws: seq<Draws>, i: nat)
    requires |w.workers| > 0 && |draws| == |w.workers|
    requires forall k :: 0 <= k < |order| ==> IsAgentId(w, order[k])
    requires i < |order|
    ensures IsAgentId(Round(w, order[..i], draws), order[i])
    ensures Round(w, order[..i + 1], draws) == StepAgent(Round(w, order[..i], draws), order[i], draws)
  {
    assert order[..i + 1][..i] == order[..i];
  }

  /** Number of corporation turns in `order`. */
  function CorporationTurns(w: World, order: seq<nat>): nat
  {
    if order == [] then 0
    else CorporationTurns(w, order[..|order| - 1]) + (if IsCorporationId(w, order[|order| - 1]) then 1 else 0)
  }

  /** The automation level never falls within a round, and rises by at most 0.02 per corporation turn. */
  lemma {:induction false} RoundAutomationLevel(w: World, order: seq<nat>, draws: seq<Draws>)
    requires |w.workers| > 0 && |draws| == |w.workers|
    requires forall k :: 0 <= k < |order| ==> IsAgentId(w, order[k])
    ensures w.automationLevel <= Round(w, order, draws).automationLevel
    ensures Round(w, order, draws).automationLevel <= w.automationLevel + 0.02 * CorporationTurns(w, order) as real
    decreases |order|
  {
    if order != [] {
      var prefix := order[..|order| - 1];
      RoundAutomationLevel(w, prefix, draws);
      var mid := Round(w, prefix, draws);
      assert IsCorporationId(mid, order[|order| - 1]) == IsCorporationId(w, order[|order| - 1]);
    }
  }

  /** A worker unemployed before a round is unemployed after it. */
  lemma {:induction false} RoundKeepsUnemployed(w: World, order: seq<nat>, draws: seq<Draws>)
    requires |w.workers| > 0 && |draws| == |w.workers|
    requires forall k :: 0 <= k < |order| ==> IsAgentId(w, order[k])
    ensures forall i :: 0 <= i < |w.workers| && Round(w, order, draws).workers[i].employed ==> w.workers[i].employed
    decreases |order|
  {
    if order != [] {
      RoundKeepsUnemployed(w, order[..|order| - 1], draws);
    }
  }

  /** The employed count never grows within a round. */
  lemma RoundEmploymentNonIncreasing(w: World, order: seq<nat>, draws: seq<Draws>)
    requires |w.workers| > 0 && |draws| == |w.workers|
    requires forall k :: 0 <= k < |order| ==> IsAgentId(w, order[k])
    ensures CountEmployed(Round(w, order, draws).workers) <= CountEmployed(w.workers)
  {
    RoundKeepsUnemployed(w, order, draws);
    CountEmployedMonotone(w.workers, Round(w, order, draws).workers);
  }

  /** Well-being at most 1.0 for every worker is kept by a round. */
  lemma {:induction false} RoundKeepsWellBeingCapped(w: World, order: seq<nat>, draws: seq<Draws>)
    requires |w.workers| > 0 && |draws| == |w.workers|
    requires forall k :: 0 <= k < |order| ==> IsAgentId(w, order[k])
    requires WellBeingCapped(w.workers)
    ensures WellBeingCapped(Round(w, order, draws).workers)
    decreases |order|
  {
    if order != [] {
      RoundKeepsWellBeingCapped(w, order[..|order| - 1], draws);
    }
  }

  /** The government's agent id: it comes after every worker and corporation. */
  function GovernmentId(w: World): nat
  {
    |w.workers| + |w.corporations|
  }

  /**
   * When a round starts with an employment rate below 0.7, the government's
   * turn (if `order` holds it) finds the rate still below 0.7 and reskills:
   * a worker unemployed at the start gains exactly 0.05 adaptability, and
   * nothing else changes adaptability.
   */
  lemma {:induction false} RoundAdaptability(w: World, order: seq<nat>, draws: seq<Draws>, i: nat)
    requires |w.workers| > 0 && |draws| == |w.workers|
    requires forall k :: 0 <= k < |order| ==> IsAgentId(w, order[k])
    requires forall k, l :: 0 <= k < l < |order| ==> order[k] != order[l]
    requires i < |w.workers| && !w.workers[i].employed
    requires EmploymentRate(CountEmployed(w.workers), |w.workers|) < 0.7
    ensures Round(w, order, draws).workers[i].adaptability
            == w.workers[i].adaptability + (if GovernmentId(w) in order then 0.05 else 0.0)
    decreases |order|
  {
    if order != [] {
      var prefix, id := order[..|order| - 1], order[|order| - 1];
      assert order == prefix + [id];
      RoundAdaptability(w, prefix, draws, i);
      RoundKeepsUnemployed(w, prefix, draws);
      var mid := Round(w, prefix, draws);
      if id == GovernmentId(w) {
        assert GovernmentId(w) !in prefix;
        RoundEmploymentNonIncreasing(w, prefix, draws);
        RateMonotone(CountEmployed(mid.workers), CountEmployed(w.workers), |w.workers|);
      }
      StepAgentAdaptability(mid, id, draws, i);
    }
  }

  /** One turn changes an unemployed worker's adaptability only if it is the government's reskilling turn. */
  lemma StepAgentAdaptability(w: World, id: nat, draws: seq<Draws>, i: nat)
    requires |w.workers| > 0 && |draws| == |w.workers| && IsAgentId(w, id)
    requires i < |w.workers| && !w.workers[i].employed
    ensures StepAgent(w, id, draws).workers[i].adaptability
            == w.workers[i].adaptability
               + (if id == GovernmentId(w) && EmploymentRate(CountEmployed(w.workers), |w.workers|) < 0.7
                  then 0.05 else 0.0)
  {
  }

  lemma RateMonotone(k: nat, l: nat, n: nat)
    requires k <= l && n > 0
    ensures EmploymentRate(k, n) <= EmploymentRate(l, n)
  {
  }

  /** A round of the scheduler that starts below 0.7 employment reskills every worker already unemployed. */
  lemma RoundReskillsUnemployed(w: World, order: seq<nat>, draws: seq<Draws>, i: nat)
    requires |w.workers| > 0 && |draws| == |w.workers|
    requires IsSchedule(order, GovernmentId(w) + 1)
    requires i < |w.workers| && !w.workers[i].employed
    requires EmploymentRate(CountEmployed(w.workers), |w.workers|) < 0.7
    ensures Round(w, order, draws).workers[i].adaptability == w.workers[i].adaptability + 0.05
  {
    ScheduleVisitsAll(order, GovernmentId(w) + 1, GovernmentId(w));
    RoundAdaptability(w, order, draws, i);
  }

  /** The ids below `n`. */
  function Below(n: nat): set<nat>
  {
    if n == 0 then {} else Below(n - 1) + {n - 1}
  }

  lemma {:induction false} BelowHolds(n: nat, i: nat)
    ensures i in Below(n) <==> i < n
  {
    if n > 0 {
      BelowHolds(n - 1, i);
    }
  }

  lemma {:induction false} BelowSize(n: nat)
    ensures |Below(n)| == n
  {
    if n > 0 {
      var rest := Below(n - 1);
      BelowSize(n - 1);
      BelowHolds(n - 1, n - 1);
      assert |rest + {n - 1}| == |rest| + 1;
    }
  }

  /** Distinct values drawn from `bound` are no more than `bound` has. */
  lemma {:induction false} DistinctFits(s: seq<nat>, bound: set<nat>)
    requires forall k :: 0 <= k < |s| ==> s[k] in bound
    requires forall k, l :: 0 <= k < l < |s| ==> s[k] != s[l]
    ensures |s| <= |bound|
    decreases |s|
  {
    if s != [] {
      var prefix, x := s[..|s| - 1], s[|s| - 1];
      assert forall k :: 0 <= k < |prefix| ==> prefix[k] == s[k] && prefix[k] != x;
      DistinctFits(prefix, bound - {x});
      assert |bound - {x}| == |bound| - 1;
    }
  }

  /** A schedule of `size` agents visits every id below `size`: it has `size` distinct ids, all below `size`. */
  lemma ScheduleVisitsAll(order: seq<nat>, size: nat, id: nat)
    requires IsSchedule(order, size) && id < size
    ensures id in order
  {
    if id !in order {
      BelowSize(size);
      BelowHolds(size, id);
      assert |Below(size) - {id}| == size - 1;
      forall k | 0 <= k < |order|
        ensures order[k] in Below(size) - {id}
      {
        BelowHolds(size, order[k]);
      }
      DistinctFits(order, Below(size) - {id});
    }
  }

  // ---------------------------------------------------------------- history

  /**
   * A run's recorded history: `history[k]` is the state after k rounds and
   * `records[k]` the metrics recorded of it at the start of round k; between
   * any two states the automation level did not fall and no worker regained
   * employment, and every state has every well-being value at most 1.0.
   */
  ghost predicate Chronicle(history: seq<World>, records: seq<Record>, numWorkers: nat, numCorporations: nat)
  {
    |history| == |records| + 1
    && (forall k :: 0 <= k < |history| ==>
          |history[k].workers| == numWorkers && |history[k].corporations| == numCorporations)
    && (forall k :: 0 <= k < |records| ==> Reportable(history[k]) && records[k] == Metrics(history[k]))
    && (forall k, l :: 0 <= k <= l < |history| ==> history[k].automationLevel <= history[l].automationLevel)
    && (forall k, l, i :: 0 <= k <= l < |history| && 0 <= i < numWorkers && history[l].workers[i].employed ==>
          history[k].workers[i].employed)
    && (forall k :: 0 <= k < |history| ==> WellBeingCapped(history[k].workers))
  }

  /** A fresh simulation whose workers all start at well-being at most 1.0 begins a history. */
  lemma ChronicleStart(w: World, numWorkers: nat, numCorporations: nat)
    requires |w.workers| == numWorkers && |w.corporations| == numCorporations
    requires WellBeingCapped(w.workers)
    ensures Chronicle([w], [], numWorkers, numCorporations)
  {
  }

  /** Recording the metrics of the last state and then playing one round extends a history. */
  lemma ChronicleStep(history: seq<World>, records: seq<Record>, numWorkers: nat, numCorporations: nat,
                      order: seq<nat>, draws: seq<Draws>, last: World, next: World)
    requires Chronicle(history, records, numWorkers, numCorporations)
    requires numWorkers > 0 && numCorporations > 0 && |draws| == numWorkers
    requires last == history[|records|]
    requires forall k :: 0 <= k < |order| ==> IsAgentId(last, order[k])
    requires next == Round(last, order, draws)
    ensures Chronicle(history + [next], records + [Metrics(last)], numWorkers, numCorporations)
  {
    RoundAutomationLevel(last, order, draws);
    RoundKeepsUnemployed(last, order, draws);
    RoundKeepsWellBeingCapped(last, order, draws);
    var h := history + [next];
    forall k, l | 0 <= k <= l < |h|
      ensures h[k].automationLevel <= h[l].automationLevel
    {
      if l == |history| && k < l {
        assert h[k].automationLevel <= last.automationLevel;
      }
    }
    forall k, l, i | 0 <= k <= l < |h| && 0 <= i < numWorkers && h[l].workers[i].employed
      ensures h[k].workers[i].employed
    {
      if l == |history| && k < l {
        assert last.workers[i].employed;
      }
    }
  }

  // ---------------------------------------------------------------- metrics

  function SumSkill(ws: seq<WorkerState>): real
  {
    if ws == [] then 0.0 else ws[0].skillLevel + SumSkill(ws[1..])
  }

  function SumWellBeing(ws: seq<WorkerState>): real
  {
    if ws == [] then 0.0 else ws[0].wellBeing + SumWellBeing(ws[1..])
  }

  function SumProfit(cs: seq<CorporationState>): real
  {
    if cs == [] then 0.0 else cs[0].profit + SumProfit(cs[1..])
  }

  lemma {:induction false} SumWellBeingCapped(ws: seq<WorkerState>)
    requires WellBeingCapped(ws)
    ensures SumWellBeing(ws) <= |ws| as real
  {
    if ws != [] {
      SumWellBeingCapped(ws[1..]);
    }
  }

  /** A world the metrics reporters can divide over: at least one worker and one corporation. */
  predicate Reportable(w: World)
  {
    |w.workers| > 0 && |w.corporations| > 0
  }

  /**
   * The five reporters: employment rate, mean skill, mean well-being, mean
   * corporate profit and the automation level.
   */
  function Metrics(w: World): (r: Record)
    requires Reportable(w)
    ensures 0.0 <= r.employment <= 1.0
    ensures r.employment == 1.0 <==> forall i :: 0 <= i < |w.workers| ==> w.workers[i].employed
    ensures WellBeingCapped(w.workers) ==> r.workerWellbeing <= 1.0
    ensures r.automationLevel == w.automationLevel
  {
    var n := |w.workers| as real;
    var employed := CountEmployed(w.workers);
    FractionAtMostOne(employed, |w.workers|);
    AllEmployedIffFullCount(w.workers);
    MeanWellBeingCapped(w.workers);
    Record(employed as real / n,
           SumSkill(w.workers) / n,
           SumWellBeing(w.workers) / n,
           SumProfit(w.corporations) / |w.corporations| as real,
           w.automationLevel)
  }

  lemma FractionAtMostOne(a: nat, b: nat)
    requires 0 < b && a <= b
    ensures 0.0 <= a as real / b as real <= 1.0
    ensures a as real / b as real == 1.0 <==> a == b
  {
  }

  /** The mean of well-being values that are all at most 1.0 is at most 1.0. */
  lemma MeanWellBeingCapped(ws: seq<WorkerState>)
    requires |ws| > 0
    ensures WellBeingCapped(ws) ==> SumWellBeing(ws) / |ws| as real <= 1.0
  {
    if WellBeingCapped(ws) {
      SumWellBeingCapped(ws);
    }
  }

  lemma {:induction false} AllEmployedIffFullCount(ws: seq<WorkerState>)
    ensures CountEmployed(ws) == |ws| <==> forall i :: 0 <= i < |ws| ==> ws[i].employed
  {
    if ws != [] {
      AllEmployedIffFullCount(ws[1..]);
      assert forall i :: 1 <= i < |ws| ==> ws[i] == ws[1..][i - 1];
    }
  }
}
