/**
 * The simulation as the program runs it: agents are objects whose fields are
 * updated in place, the corporations write the model's shared automation
 * level, and the government writes the workers' fields directly.  Every
 * method is proved against the value-level rules of module `Rules`.
 *
 * The model owns a fixed population (the three `const` sequences), the
 * shared automation level and the metrics time series.  `Step` records the
 * metrics first and then lets every agent take one turn, in the order the
 * scheduler chose for the round; reads are live, so an agent sees the
 * changes of every agent that went before it in the same round.
 */
module Simulation {
  import opened Rules

  /** A result of `random.uniform(0.3, 0.9)`, a worker's initial skill. */
  type SkillDraw = r: real | 0.3 <= r <= 0.9 witness 0.3

  /** A result of `random.uniform(0.2, 0.8)`, a worker's initial adaptability. */
  type AdaptabilityDraw = r: real | 0.2 <= r <= 0.8 witness 0.2

  class Worker {
    const uniqueId: nat
    var skillLevel: real
    var adaptability: real
    var employed: bool
    var wellBeing: real

    function State(): WorkerState
      reads this
    {
      WorkerState(skillLevel, adaptability, employed, wellBeing)
    }

    constructor (uniqueId: nat, skillLevel: SkillDraw, adaptability: AdaptabilityDraw)
      ensures this.uniqueId == uniqueId
      ensures State() == WorkerState(skillLevel, adaptability, true, 0.7)
    {
      this.uniqueId := uniqueId;
      this.skillLevel := skillLevel;
      this.adaptability := adaptability;
      this.employed := true;
      this.wellBeing := 0.7;
    }

    /** Take one turn under the model's current automation level. */
    method Step(m: WorkFutureModel, draws: Draws)
      modifies this
      ensures State() == WorkerRule(old(State()), m.automationLevel, draws)
    {
      var automationThreat := m.automationLevel;
      if automationThreat > skillLevel {
        if draws.reskill < adaptability {
          skillLevel := skillLevel + 0.1;
          wellBeing := wellBeing - 0.05;
        } else if draws.layoff < automationThreat - skillLevel {
          employed := false;
          wellBeing := wellBeing - 0.2;
        }
      }
      if employed {
        wellBeing := Min(1.0, wellBeing + 0.02);
      } else {
        wellBeing := Max(0.1, wellBeing - 0.05);
      }
    }
  }

  class Corporation {
    const uniqueId: nat
    var automationInvestment: real
    var competitiveness: real
    var profit: real

    function State(): CorporationState
      reads this
    {
      CorporationState(automationInvestment, competitiveness, profit)
    }

    constructor (uniqueId: nat)
      ensures this.uniqueId == uniqueId
      ensures State() == CorporationState(0.5, 0.7, 1.0)
    {
      this.uniqueId := uniqueId;
      automationInvestment := 0.5;
      competitiveness := 0.7;
      profit := 1.0;
    }

    /** Take one turn: count the employed workers now, then automate or augment. */
    method Step(m: WorkFutureModel)
      requires m.Valid()
      modifies this, m`automationLevel
      ensures CorporationOutcome(State(), m.automationLevel)
              == CorporationRule(old(State()), old(m.EmployedCount()), m.numWorkers, old(m.automationLevel))
      ensures m.WorkerStates() == old(m.WorkerStates())
    {
      var employedWorkers := m.EmployedCount();
      if employedWorkers as real > m.numWorkers as real * 0.7 {
        if profit > 0.8 {
          automationInvestment := automationInvestment + 0.1;
          profit := profit - 0.2;
          m.automationLevel := m.automationLevel + 0.02;
        }
      } else {
        automationInvestment := automationInvestment - 0.05;
        competitiveness := competitiveness + 0.02;
      }
      profit := profit + competitiveness * 0.1 - automationInvestment * 0.05;
    }
  }

  class Government {
    const uniqueId: nat
    var policyType: Policy

    constructor (uniqueId: nat)
      ensures this.uniqueId == uniqueId && policyType == Balanced
    {
      this.uniqueId := uniqueId;
      policyType := Balanced;
    }

    /** Take one turn: set the policy from the live employment rate; reskill on the pro-worker branch. */
    method Step(m: WorkFutureModel)
      requires m.Valid() && m.numWorkers > 0
      modifies this, m.workers
      ensures policyType == PolicyFor(old(m.EmployedCount()), m.numWorkers)
      ensures m.WorkerStates()
              == if policyType == ProWorker then ReskillAll(old(m.WorkerStates())) else old(m.WorkerStates())
    {
      var employedWorkers := m.EmployedCount();
      var employmentRate := employedWorkers as real / m.numWorkers as real;
      if employmentRate < 0.7 {
        policyType := ProWorker;
        ImplementReskillingProgram(m);
      } else if employmentRate > 0.9 {
        policyType := ProBusiness;
      } else {
        policyType := Balanced;
      }
    }

    /** Raise skill by 0.1 and adaptability by 0.05 for every unemployed worker. */
    method ImplementReskillingProgram(m: WorkFutureModel)
      requires m.Valid()
      modifies m.workers
      ensures m.WorkerStates() == ReskillAll(old(m.WorkerStates()))
    {
      ghost var before := m.WorkerStates();
      var i := 0;
      while i < |m.workers|
        invariant 0 <= i <= |m.workers|
        invariant forall j :: 0 <= j < i ==> m.workers[j].State() == Reskilled(before[j])
        invariant forall j :: i <= j < |m.workers| ==> m.workers[j].State() == before[j]
      {
        var agent := m.workers[i];
        if !agent.employed {
          agent.skillLevel := agent.skillLevel + 0.1;
          agent.adaptability := agent.adaptability + 0.05;
        }
        assert forall j :: 0 <= j < |m.workers| && j != i ==> m.workers[j] != agent;
        i := i + 1;
      }
    }
  }

  /** Workers with ids 0 .. n-1, built from the initial draws. */
  method NewWorkers(skillDraws: seq<SkillDraw>, adaptabilityDraws: seq<AdaptabilityDraw>) returns (ws: seq<Worker>)
    requires |adaptabilityDraws| == |skillDraws|
    ensures |ws| == |skillDraws| && fresh(ws)
    ensures forall k :: 0 <= k < |ws| ==>
              ws[k].uniqueId == k && ws[k].State() == WorkerState(skillDraws[k], adaptabilityDraws[k], true, 0.7)
  {
    ws := [];
    for i := 0 to |skillDraws|
      invariant |ws| == i && fresh(ws)
      invariant forall k :: 0 <= k < i ==>
                  ws[k].uniqueId == k && ws[k].State() == WorkerState(skillDraws[k], adaptabilityDraws[k], true, 0.7)
    {
      var worker := new Worker(i, skillDraws[i], adaptabilityDraws[i]);
      ws := ws + [worker];
    }
  }

  /** Corporations with ids n .. n+c-1, each in its initial state. */
  method NewCorporations(numWorkers: nat, numCorporations: nat) returns (cs: seq<Corporation>)
    ensures |cs| == numCorporations && fresh(cs)
    ensures forall k :: 0 <= k < |cs| ==>
              cs[k].uniqueId == numWorkers + k && cs[k].State() == CorporationState(0.5, 0.7, 1.0)
  {
    cs := [];
    for i := 0 to numCorporations
      invariant |cs| == i && fresh(cs)
      invariant forall k :: 0 <= k < i ==>
                  cs[k].uniqueId == numWorkers + k && cs[k].State() == CorporationState(0.5, 0.7, 1.0)
    {
      var corp := new Corporation(i + numWorkers);
      cs := cs + [corp];
    }
  }

  class WorkFutureModel {
    const numWorkers: nat
    const numCorporations: nat
    var automationLevel: real
    const workers: seq<Worker>
    const corporations: seq<Corporation>
    const government: Government
    /** The metrics time series, one record per round. */
    var records: seq<Record>
    /** The state after each round so far; `history[0]` is the state at construction. */
    ghost var history: seq<World>

    /** The population's shape: agent ids 0 .. n+c, workers first, then corporations, then the government. */
    ghost predicate Valid()
    {
      |workers| == numWorkers && |corporations| == numCorporations
      && (forall i :: 0 <= i < |workers| ==> workers[i].uniqueId == i)
      && (forall j :: 0 <= j < |corporations| ==> corporations[j].uniqueId == numWorkers + j)
      && government.uniqueId == numWorkers + numCorporations
    }

    function WorkerStates(): (r: seq<WorkerState>)
      reads workers
      ensures |r| == |workers| && forall i :: 0 <= i < |workers| ==> r[i] == workers[i].State()
    {
      seq(|workers|, i reads workers requires 0 <= i < |workers| => workers[i].State())
    }

    function CorporationStates(): (r: seq<CorporationState>)
      reads corporations
      ensures |r| == |corporations| && forall j :: 0 <= j < |corporations| ==> r[j] == corporations[j].State()
    {
      seq(|corporations|, j reads corporations requires 0 <= j < |corporations| => corporations[j].State())
    }

    /** The live employed count. */
    function EmployedCount(): nat
      reads workers
    {
      CountEmployed(WorkerStates())
    }

    /** The whole simulation state as a value. */
    function Snapshot(): World
      reads this`automationLevel, workers, corporations, government
    {
      World(WorkerStates(), CorporationStates(), government.policyType, automationLevel)
    }

    /** The recorded history is a `Chronicle` that ends in the current state. */
    ghost predicate Recorded()
      reads this, workers, corporations, government
    {
      Valid()
      && Chronicle(history, records, numWorkers, numCorporations)
      && history[|records|] == Snapshot()
    }

    /** Build the population: `numWorkers` workers, `numCorporations` corporations and one government. */
    constructor (numWorkers: nat, numCorporations: nat, automationLevel: real,
                 skillDraws: seq<SkillDraw>, adaptabilityDraws: seq<AdaptabilityDraw>)
      requires |skillDraws| == numWorkers && |adaptabilityDraws| == numWorkers
      ensures Recorded()
      ensures this.numWorkers == numWorkers && this.numCorporations == numCorporations
      ensures this.automationLevel == automationLevel && records == []
      ensures forall i :: 0 <= i < numWorkers ==>
                workers[i].State() == WorkerState(skillDraws[i], adaptabilityDraws[i], true, 0.7)
      ensures forall j :: 0 <= j < numCorporations ==> corporations[j].State() == CorporationState(0.5, 0.7, 1.0)
      ensures government.policyType == Balanced
      ensures fresh(workers) && fresh(corporations) && fresh(government)
    {
      this.numWorkers := numWorkers;
      this.numCorporations := numCorporations;
      this.automationLevel := automationLevel;
      var ws := NewWorkers(skillDraws, adaptabilityDraws);
      var cs := NewCorporations(numWorkers, numCorporations);
      var gov := new Government(numWorkers + numCorporations);
      this.workers := ws;
      this.corporations := cs;
      this.government := gov;
      this.records := [];
      new;
      assert WellBeingCapped(WorkerStates());
      StartHistory();
    }

    /** Open the history at the current state, before any round has run. */
    ghost method StartHistory()
      requires Valid() && records == [] && WellBeingCapped(WorkerStates())
      modifies this`history
      ensures Recorded() && records == []
    {
      ChronicleStart(Snapshot(), numWorkers, numCorporations);
      history := [Snapshot()];
    }

    /**
     * Advance one round: record the metrics of the current state, then let
     * every agent take its turn in the scheduler's order for this round.
     */
    method Step(order: seq<nat>, draws: seq<Draws>)
      requires Recorded() && numWorkers > 0 && numCorporations > 0
      requires IsSchedule(order, numWorkers + numCorporations + 1)
      requires |draws| == numWorkers
      modifies this, workers, corporations, government
      ensures Recorded()
      ensures records == old(records) + [Metrics(old(Snapshot()))]
      ensures Snapshot() == Round(old(Snapshot()), order, draws)
      ensures history == old(history) + [Snapshot()]
    {
      var start := Snapshot();
      var record := Metrics(start);  // collected before any agent moves; no agent reads `records`
      PlayRound(order, draws);
      ghost var next := Snapshot();
      ChronicleStep(history, records, numWorkers, numCorporations, order, draws, start, next);
      records := records + [record];
      history := history + [next];
    }

    /** Every agent takes one turn, in the scheduler's order; each reads the live state. */
    method PlayRound(order: seq<nat>, draws: seq<Draws>)
      requires Valid() && numWorkers > 0
      requires forall k :: 0 <= k < |order| ==> order[k] <= numWorkers + numCorporations
      requires |draws| == numWorkers
      modifies this`automationLevel, workers, corporations, government
      ensures Snapshot() == Round(old(Snapshot()), order, draws)
    {
      ghost var start := Snapshot();
      assert forall k :: 0 <= k < |order| ==> IsAgentId(start, order[k]);
      var i := 0;
      while i < |order|
        invariant 0 <= i <= |order|
        invariant Snapshot() == Round(start, order[..i], draws)
      {
        RoundPrefix(start, order, draws, i);
        TakeTurn(order[i], draws);
        i := i + 1;
      }
      assert order[..|order|] == order;
    }

    /** The agent with id `id` takes its turn. */
    method TakeTurn(id: nat, draws: seq<Draws>)
      requires Valid() && numWorkers > 0
      requires id <= numWorkers + numCorporations && |draws| == numWorkers
      modifies this`automationLevel, workers, corporations, government
      ensures Snapshot() == StepAgent(old(Snapshot()), id, draws)
    {
      if id < numWorkers {
        workers[id].Step(this, draws[id]);
        assert forall j :: 0 <= j < numWorkers && j != id ==> workers[j] != workers[id];
      } else if id < numWorkers + numCorporations {
        corporations[id - numWorkers].Step(this);
        assert forall j :: 0 <= j < numCorporations && j != id - numWorkers ==>
                 corporations[j] != corporations[id - numWorkers];
      } else {
        government.Step(this);
      }
    }
  }
}
