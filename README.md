# AI Work Force Odyssey: a verified model of the simulation core and the activity classifier

This project models two parts of the repository in Dafny.

**The work-force simulation** (`model.py`, duplicated in `agents.py`) is a discrete-round agent model. Workers hold a skill level, an adaptability, an employment flag and a well-being value. Corporations hold an automation investment, a competitiveness and a profit. One government holds a policy. Every agent reads one shared value, the model's automation level. In each round every agent takes one turn in a shuffled order, and it reads the state as it is at that moment. Workers reskill or lose their jobs when automation overtakes their skill. Corporations automate or augment depending on the live count of employed workers; automating raises the shared automation level. The government sets its policy from the employment rate. On the pro-worker branch it reskills every unemployed worker in place. Before each round the model records five metrics.

- `rules.dfy` (module `Rules`) states each agent's rule as a function on values: `WorkerRule`, `CorporationRule`, `PolicyFor`/`ReskillAll`/`GovernmentRule`. `StepAgent` is one agent's turn on the whole state (`World`), and `Round` is a round played in a given order. `Metrics` gives the five reporters. `Chronicle` is the invariant of the recorded history. The lemmas prove that these properties hold over whole rounds and whole runs.
- `simulation.dfy` (module `Simulation`) has the objects as the program has them. `Worker`, `Corporation` and `Government` are classes whose fields their `Step` methods update in place. The corporation writes `WorkFutureModel.automationLevel`, and the government's reskilling loop writes the workers' fields. `WorkFutureModel` owns the fixed population in `const` sequences, the automation level and the metrics series. Each method is proved against the corresponding `Rules` function. `WorkFutureModel.Step` collects the metrics of the state before the round, plays the round, and then appends the collected record. No agent reads the series, so this ordering gives the same result as the code appending before the round. It keeps `Recorded()`: record k is the metrics of the state after k rounds, the automation level never fell, no worker regained employment, and every worker's well-being stayed at most 1.0.

Random draws are parameters. A worker's turn takes two `random.random()` results (`Draws`). The constructor takes the `random.uniform` draws for skill and adaptability. The scheduler's shuffle is a caller-supplied visiting order that must be a permutation of the agent ids (`IsSchedule`).

**The call-center classifier** (`call_center_classifier.py`, module `Classifier` in `classifier.dfy`) has four parts:

- `FuzzyMatch` is the keyword matcher.
- `ClassifyActivity` is the first-match cascade over the automatable, augmentable and irreplaceable keyword lists.
- `NormalizeTitle` is the title clean-up (split on whitespace, join with single spaces).
- `Summarize` is the loop of `main`: filter call-center jobs, count the labels of their activities, and record the percentages under the title.

The `difflib` similarity ratio is a parameter `ratio` whose values lie in [0, 1].

Two behaviours of the code are worth stating because they are easy to misread:

- Well-being is floored at 0.1 only for unemployed workers and capped at 1.0 only for employed ones (model.py:28-31). The model proves the cap for every worker, since every worker starts at 0.7 and an unemployed worker ends at the larger of 0.1 and its lowered value. It proves the floor for the unemployed. `Rules.EmployedWellBeingCanFallBelowFloor` shows a reachable employed worker ending below 0.1.
- The constructor does no validation of the counts (model.py:86-90), and the model's constructor accepts any counts. `WorkFutureModel.Step` requires at least one worker and one corporation. The reporters divide by these counts when the metrics are collected at the start of every step (model.py:109-116, 122), and the government rule divides by the worker count.

## Model

| member | source | states |
|---|---|---|
| `Rules.WorkerRule` | model.py:16-31 | One worker turn (same rule at agents.py:15-34). Employment is never regained. Without a threat (automation level at most skill), skill and employment are unchanged. Skill rises by exactly 0.1 iff the worker is threatened and the first draw is below its adaptability; otherwise skill is unchanged. An employed worker is laid off iff it is threatened, does not reskill, and the second draw is below the gap. Adaptability never changes. After the step an employed worker has well-being at most 1.0 and an unemployed one at least 0.1. Well-being at most 1.0 is preserved. |
| `Rules.EmployedWellBeingCanFallBelowFloor` | model.py:28-31 | A concrete employed worker whose well-being ends below 0.1, so the 0.1 floor holds only for the unemployed. |
| `Rules.CountEmployed` | model.py:43-44 | The live count of employed workers never exceeds the population. |
| `Rules.CountEmployedMonotone` | model.py:43-44 | If no worker gains employment, the employed count does not grow. |
| `Rules.CorporationRule` | model.py:42-55 | One corporation turn (same rule at agents.py:45-62). The automation level changes by exactly +0.02 or 0. It rises iff employed > 0.7 × workers and profit > 0.8. The augment branch lowers investment by 0.05 and raises competitiveness by 0.02. The automate branch keeps competitiveness and adds 0.1 investment only when it invests. The profit update always runs, on the values the branch left. |
| `Rules.PolicyFor` | model.py:64-75 | The policy is pro-worker iff the rate < 0.7, pro-business iff the rate > 0.9, and balanced iff 0.7 ≤ rate ≤ 0.9, so the branches are exhaustive and exclusive (agents.py:71-84). |
| `Rules.ReskillAll` | model.py:77-81 | Every worker ends as `Reskilled` of its old state. Employed workers are unchanged. Each unemployed worker gains exactly 0.1 skill and 0.05 adaptability and keeps its employment flag and well-being. The employed count is unchanged (agents.py:86-90). |
| `Rules.GovernmentRule` | model.py:64-81 | The policy is `PolicyFor` the live employment rate: pro-worker iff the rate < 0.7. On the pro-worker branch the workers become exactly `ReskillAll` of their old states; on the other branches they are unchanged. Corporations and the automation level are untouched. No worker's employment or well-being changes, and the employed count is unchanged. |
| `Rules.StepAgent` | model.py:123 | One agent's turn on the live state. Only a corporation's turn moves the automation level, by +0.02 at most. Nobody regains employment. The well-being cap is kept. A worker's turn changes only that worker. A corporation's turn changes no worker and not the policy. |
| `Rules.Round` | model.py:123 | A round played in the given order never changes the number of workers or corporations. |
| `Rules.RoundPrefix` | model.py:123 | The first i+1 turns of a round are the first i turns followed by the step of agent `order[i]`, and that agent is a valid id of the intermediate state. |
| `Rules.RoundAutomationLevel` | model.py:46-50 | Over a round the automation level never falls and rises by at most 0.02 per corporation turn. |
| `Rules.RoundKeepsUnemployed` | model.py:24-26 | A worker unemployed before a round is still unemployed after it. |
| `Rules.RoundEmploymentNonIncreasing` | model.py:109-110 | The employed count never grows over a round. |
| `Rules.RoundKeepsWellBeingCapped` | model.py:28-31 | If every worker's well-being is at most 1.0 before a round, the same holds after it. |
| `Rules.StepAgentAdaptability` | model.py:16-31 | One turn changes an unemployed worker's adaptability only on the government's turn at an employment rate below 0.7, which adds exactly 0.05. Every other turn, including the government's at a rate of 0.7 or more, leaves it unchanged. |
| `Rules.RateMonotone` | model.py:66 | A smaller employed count gives an employment rate no larger. |
| `Rules.RoundAdaptability` | model.py:64-81 | In a round that starts below 0.7 employment and visits each agent at most once, a worker unemployed at the start gains exactly 0.05 adaptability if the government takes its turn and none otherwise. The employed count can only fall before the government's turn, so the rate is still below 0.7 then. |
| `Rules.RoundReskillsUnemployed` | model.py:77-81 | A scheduled round that starts below 0.7 employment raises every already-unemployed worker's adaptability by exactly 0.05. The schedule holds the government's turn because it lists every agent id once. |
| `Rules.ScheduleVisitsAll` | model.py:123 | A visiting order of n+c+1 distinct ids, all below n+c+1, includes every id, the government's in particular. |
| `Rules.ChronicleStart` | model.py:86-104 | A freshly built population whose well-being is capped starts a valid history with no records. |
| `Rules.ChronicleStep` | model.py:121-123 | Recording the metrics of the current state and then playing a round extends a valid history. Record k is the metrics of the state after k rounds. The automation level never fell. No worker regained employment. Well-being stayed at most 1.0. |
| `Rules.Metrics` | model.py:107-118 | The five reporters. The employment value lies in [0, 1], and it is 1 iff every worker is employed. Mean well-being is at most 1.0 when every worker's is. The automation level is reported as is. |
| `Rules.SumWellBeingCapped` | model.py:113-114 | The sum of capped well-being values is at most the number of workers. |
| `Rules.MeanWellBeingCapped` | model.py:113-114 | The mean of capped well-being values is at most 1.0. |
| `Rules.AllEmployedIffFullCount` | model.py:109-110 | The employed count equals the population iff every worker is employed. |
| `Simulation.Worker.constructor` | model.py:9-14 | A new worker has the drawn skill in [0.3, 0.9] and the drawn adaptability in [0.2, 0.8]. It is employed, with well-being 0.7. |
| `Simulation.Worker.Step` | model.py:16-31 | Updates the worker's fields in place to exactly `WorkerRule` of its old state under the model's automation level (agents.py:15-34). |
| `Simulation.Corporation.constructor` | model.py:36-40 | A new corporation has investment 0.5, competitiveness 0.7 and profit 1.0. |
| `Simulation.Corporation.Step` | model.py:42-55 | Updates its own fields and the model's automation level to exactly `CorporationRule`, given the employed count at its turn. Leaves every worker unchanged (agents.py:45-62). |
| `Simulation.Government.constructor` | model.py:60-62 | A new government's policy is balanced. |
| `Simulation.Government.Step` | model.py:64-75 | Sets the policy to `PolicyFor` the employed count at its turn. The workers end as `ReskillAll` of their old states on the pro-worker branch and unchanged otherwise (agents.py:71-84). |
| `Simulation.Government.ImplementReskillingProgram` | model.py:77-81 | The loop over the population leaves the workers' states equal to `ReskillAll` of their old states (agents.py:86-90). |
| `Simulation.NewWorkers` | model.py:94-96 | Builds one fresh worker per draw pair: worker k has id k, the k-th drawn skill and adaptability, is employed, and has well-being 0.7. |
| `Simulation.NewCorporations` | model.py:98-100 | Builds `numCorporations` fresh corporations: corporation k has id n+k and the initial state (0.5, 0.7, 1.0). |
| `Simulation.WorkFutureModel.constructor` | model.py:86-119 | Builds exactly `numWorkers` workers (ids 0..n-1, initial states from the draws), `numCorporations` corporations (ids n..n+c-1) and one government (id n+c), all fresh. There are no records yet, and the recorded history starts valid. |
| `Simulation.WorkFutureModel.StartHistory` | model.py:86-119 | Opening the history at a freshly built population with capped well-being leaves no records and a history that holds exactly the current state. |
| `Simulation.WorkFutureModel.Step` | model.py:121-123 | Appends the metrics of the state before the round, then leaves the state equal to `Round` of the old state in the given order. Keeps the recorded history valid. The population is `const`, so no agent is added or removed. |
| `Simulation.WorkFutureModel.PlayRound` | model.py:123 | Stepping every agent in the scheduler's order, each reading the live state, yields exactly `Round` of the old state. |
| `Simulation.WorkFutureModel.TakeTurn` | model.py:123 | One agent's turn, dispatched by id to the worker, corporation or government, yields exactly `StepAgent` of the old state. |
| `Classifier.FuzzyMatch` | call_center_classifier.py:29-38 | True iff some keyword occurs in the text or has ratio ≥ the threshold. An occurring keyword matches whatever the ratios. False exactly when no keyword occurs and every ratio is below the threshold. False for an empty keyword list. |
| `Classifier.Lower` | call_center_classifier.py:42 | Same length. Each character is lower-cased. No upper-case letter A-Z remains. |
| `Classifier.LowerIdempotent` | call_center_classifier.py:42 | Lower-casing twice is lower-casing once. |
| `Classifier.ClassifyActivity` | call_center_classifier.py:40-50 | Automatable iff the lower-cased text matches the automatable list. Augmentable iff it does not match that list but matches the augmentable list. Irreplaceable iff it matches neither earlier list but matches the irreplaceable list. Unclassified iff it matches none. |
| `Classifier.ClassifyIgnoresCase` | call_center_classifier.py:42 | Classifying the lower-cased activity gives the same label as classifying the activity. |
| `Classifier.WordLength` | call_center_classifier.py:60 | The leading run of non-whitespace characters ends at the first whitespace character or at the end. |
| `Classifier.Split` | call_center_classifier.py:60 | Every piece of the split is a non-empty run of non-whitespace characters. Written one after another, the pieces are exactly the input's non-whitespace characters in order. With `SplitSeparates`, no piece spans a whitespace character. |
| `Classifier.WordLengthAppend` | call_center_classifier.py:60 | A leading word ends at the same place whatever follows a whitespace character after it. |
| `Classifier.SplitWord` | call_center_classifier.py:60 | A string that starts with a word splits into that word followed by the split of the rest. |
| `Classifier.SplitSeparates` | call_center_classifier.py:60 | A whitespace character always separates words: the split of a + c + b is the split of a followed by the split of b. So "a\nb" splits into two words. |
| `Classifier.SplitSeparatesAfterWord` | call_center_classifier.py:60 | The same, when a starts with a word: that word ends before the whitespace character. |
| `Classifier.JoinSingleSpaced` | call_center_classifier.py:60 | Joining such words with single spaces puts every whitespace character as one space between two non-whitespace characters. A non-empty join starts and ends with non-whitespace. |
| `Classifier.NonSpaceAppend` | call_center_classifier.py:60 | Dropping whitespace from a concatenation is dropping it from each part. |
| `Classifier.NonSpaceWordPrefix` | call_center_classifier.py:60 | A leading run of non-whitespace characters survives whole when whitespace is dropped. |
| `Classifier.NonSpaceWord` | call_center_classifier.py:60 | A word has no whitespace to drop. |
| `Classifier.NonSpaceJoin` | call_center_classifier.py:60 | Joining words with single spaces adds only whitespace: its non-whitespace characters are the words written one after another. |
| `Classifier.SplitJoin` | call_center_classifier.py:60 | Splitting a single-space join of words gives back the words. |
| `Classifier.NormalizeTitle` | call_center_classifier.py:60 | A normalised title has no leading or trailing space and no doubled space. Every whitespace character in it is a single space between non-whitespace characters. It keeps every non-whitespace character of the raw title, in order. With `SplitNormalizeTitle` and `SplitSeparates`, words that whitespace separates in the raw title stay separate. |
| `Classifier.SplitNormalizeTitle` | call_center_classifier.py:60 | The normalised title splits into exactly the raw title's words, in order. |
| `Classifier.NormalizeTitleIdempotent` | call_center_classifier.py:60 | Normalising a normalised title changes nothing. |
| `Classifier.Occurrences` | call_center_classifier.py:70-73 | The number of activities with a given label is at most the number of activities. |
| `Classifier.OccurrencesPartition` | call_center_classifier.py:70-75 | The four label counts add up to the number of activities. |
| `Classifier.Increment` | call_center_classifier.py:73 | Counting one more label raises that label's count by one and leaves every other count as it was; a missing label counts as zero. |
| `Classifier.CountLabels` | call_center_classifier.py:70-75 | The counter built in the loop holds, for every label, the number of activities classified with it. Its total equals the number of activities. |
| `Classifier.PercentSum` | call_center_classifier.py:79 | The three class percentages are non-negative and add up to 100 minus the unclassified percentage. |
| `Classifier.SharesOf` | call_center_classifier.py:79 | For a non-empty activity list, each share is non-negative and the three shares sum to at most 100. They sum to exactly 100 iff no activity is unclassified. |
| `Classifier.CollectWitness` | call_center_classifier.py:80 | In a dictionary built by assigning entries in order, every key comes from an entry: the last entry with that key, whose value it holds. |
| `Classifier.CollectHasKey` | call_center_classifier.py:80 | Every assigned key is in the dictionary, whatever entries follow. |
| `Classifier.Summarize` | call_center_classifier.py:57-80 | The loop with its three `continue` guards produces exactly `SummaryOf` the jobs. The total is the number of activities, so a kept job never reaches the `total == 0` guard's skip. |
| `Classifier.SummaryKeys` | call_center_classifier.py:59-80 | A title is in the summary iff some job has a call-center title (after lower-casing) and a non-empty activity list, and normalises to that title. |
| `Classifier.SummaryShares` | call_center_classifier.py:57-80 | A title's entry holds the percentages of the last qualifying job with that title, so a later job overwrites an earlier one. Its shares are non-negative and sum to at most 100. |

## Left out

- Random number generation (`random.uniform`, `random.random`) and mesa's `RandomActivation` shuffle are inputs: draws constrained to their ranges and a visiting order that is a permutation of the agent ids. Seeded reproducibility and the recorded regression values cannot be stated without the generator.
- The mesa `Agent`/`Model` base classes, the `DataCollector` (replaced by appending a record to `records`) and the `isinstance` filters (replaced by the typed `workers`, `corporations` and `government` fields).
- Floating point: every quantity is a `real`, so rounding of the increments (0.1, 0.02, 0.05, …) and of the comparisons is not modelled.
- A negative `num_workers` or `num_corporations` is not representable (the counts are `nat`).
- `Simulation.WorkFutureModel.Step` requires at least one worker and one corporation. The code would raise a division by zero in the reporters at the first metrics collection, which runs before any agent moves (model.py:122, 109-116).
- The constructor's default arguments (`num_workers=100`, `num_corporations=10`, `automation_level=0.3`, model.py:86) are not modelled: Dafny constructors have no default parameters, so every caller passes the counts and the level explicitly.
- The driver, scenario and plotting scripts (`run_simulation.py`, `scenario_tester.py`, `visualization.py`), and the direct field overrides a scenario makes between rounds.
- `difflib.SequenceMatcher.ratio` is a parameter whose only known property is its range [0, 1].
- `Classifier.Lower` maps only A-Z. Python's `str.lower` also lower-cases non-ASCII letters.
- The file reading, JSON parsing and printing of `main` (call_center_classifier.py:54-55, 82-91). A job is a record with an optional title and an optional activity list. A title present but null, which would raise in the code, is not modelled.
- `Classifier.SharesOf`: the percentages are not rounded to two decimals as `round(..., 2)` does. So the "at most 100" bound of `SharesOf` and `Classifier.SummaryShares` holds for the unrounded values only. The rounded percentages the code prints can exceed 100: counts 1, 1 and 4 of 6 give 16.67 + 16.67 + 66.67 = 100.01.
