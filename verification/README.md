# Verified model of nebula-chaos

nebula-chaos runs *plans*: graphs of actions (start a service, write data, disturb a host, check the
data) that a scheduler executes on a thread pool. This project models four parts of it in Dafny and
proves properties of the model, for all inputs and all runs:

* **the scheduler** – the action objects and their edges (`Actions`, `EdgeLists`, `ChaosPlan.dfy`), the
  graph as a value (`ActionGraph`), `ChaosPlan::schedule` as a transition system (`PlanSchedule`,
  `PlanTheorems`, `ReportTheorems`) and `LoopAction::doRun` with its calls, its rounds and its
  successive promises (`LoopSchedule`; what every step keeps in `LoopInvariant`, `LoopLayers`,
  `LoopRaces`, `LoopSafety`, `LoopProgress`; runs built for any plan in `LoopRuns`, `LoopRounds`; the
  results in `LoopTheorems`, `LoopWitnesses`; the same loop on a pool that serves its queue in order in
  `QueueSchedule`, and exactly when that pool can race in `QueueRaces` and `QueueRuns`);
* **the expression language** – scanner (`Scanner`, `Literals`), grammar and parser (`Grammar`,
  `ParserHelper`), printer (`Printer`), round trip (`RoundTrip`), checked int64 evaluator (`Overflow`,
  `Evaluator`), what texts and operators mean (`LanguageLaws`, `EvaluatorLaws`) and the loop that counts
  a variable up (`LoopAction.dfy`, `CountingRuns`);
* **the circle** – the batched writer and the two walkers that check what it wrote (`Circle`,
  `CircleTheorems`);
* **the network partition** – firewall rules inserted and taken back (`Partition`).

`dafny verify dfyconfig.toml` checks everything.

## How the model reads the code

* A run is any sequence of steps. The main thread and the pool interleave freely, on no more threads
  than the pool has. In a plan each action has an outcome (OK, error code, exception) fixed in advance;
  in a loop, whose bodies run many times, the plan says which bodies may fail and how. In
  `PlanSchedule` the write of the promise and the later write of the plan's status by a failing
  continuation are two steps; so are they, with `rc`, in `LoopSchedule`.
* In the two schedules any ready continuation may get the next free thread, so what holds of every run
  holds of the code, whose pool serves its queue first in, first out. `QueueSchedule` adds the queue to
  the loop: a continuation is queued in the step that decides it, together with all others decided by
  that step, in the order they were attached. It goes through the queue once, and the handler of a body
  that threw once more. Finer steps of the executor would allow more interleavings; the
  results without the queue do not depend on them.
* At the end of `run()` the status is written before the promise; the model takes the two writes as one
  step. In the code a Begin that is late by a round (from the third round on) may be reset between them,
  which breaks its old promise although no body failed; no theorem here speaks of that.
* On the objects of a plan the machine's scheduler is a list of proposed steps, each taken if it is possible
  when its turn comes; every run of the transition system is such a list (`RunIsCarried`).
* A loop object keeps its state between two calls of `doRun`: the next call appends another End and
  Begin to the actions it finds, settled as the last call left them.
* `collectAll` waits for every dependee and `collect` fails at the first broken one; the two systems
  keep that difference.
* That a plan has no cycle is a hypothesis, given by a rank that falls along every edge. Plan files
  may list an action before its dependees.
* Doubles are bit patterns; their arithmetic, parsing and printing are arbitrary functions, so what is
  proved holds for every choice of them.
* `LOG(FATAL)` is the result `Fatal`, and an operation C++ leaves undefined is the result `Undefined`.
  `abs` in the divisor check is taken in its 64-bit form, which is undefined for the least integer.
* A request to the store is an oracle: accepted, or rejected after any part of the batch was stored.
  Vertex ids stand for their decimal texts.

## What the proofs found

* A plan's report can say *passed* although an action failed: the broken promise of the sink wakes the
  main thread, which runs the report again, before the failing continuation writes the plan's status.
  It happens exactly for plans in which at least one action is skipped or throws, the report task
  included, and no more of them than the pool has threads (`WrongReportExact`; `ReportMayBeWrong` is the
  smallest plan). The report sent as an action of the plan is always right (`ReportsExact`).
* A loop can go on after a failed round: `rc` is read between the two writes of End's failing
  continuation. However the pool picks its tasks, it never does unless some action that may fail has a
  path to a leaf of the sub-plan that is short enough for the pool, and on a pool that may overtake its
  queue some run then does (`RacesExact`). A pool that serves its queue in order needs more: some run
  races exactly if there is such a path for which every continuation that depends on an action of it,
  End's included, can keep a thread of its own (`QueueRacesExact`). So a fan of dependers listed before
  the leaf saves a narrow pool (`QueueSaves`), and a pool with a thread for every action is never saved
  (`QueueRaces`). Afterwards even a sub-plan listed in order can lose its order and abort the process
  (`RacedLoopAborts`). The theorems on order, completeness and aborts therefore speak of loops that cannot
  race, and of the runs of the others that have not raced.
* In a loop every action waits for its dependees in every round exactly if each dependee is listed
  before its dependers (`OrderExact`).
* From the third round on a loop over any sub-plan can abort, even if no body ever fails: a Begin that
  is late by one round gets two continuations for one promise. Within two rounds none does
  (`AbortExact`). In a sub-plan listed in order its own actions meet every CHECK
  (`SubPlanNeverAborts`).
* The overflow check of a product divides the least integer by -1 whenever the left operand is -1 and
  the right one positive; the check of a difference fails only when the right operand is the least
  integer and the left one is not negative (`MulExact`, `SubExact`).
* A NOT prints as `!`, and a less-than with a negated right operand prints as `<-`; neither reads back,
  and nothing else fails to (`PrintParse`).
* The circle writer sends a batch at most `try` - 1 times, so with `try` 1 nothing is ever sent and the
  action fails; with a batch size of 0 an empty batch goes ahead of all rows (`GivesUpLate`, `PiecesJoin`).
* An empty string counts as true and a non-empty one as false (`src/expression/ExprUtils.h:81`); the
  model keeps that.

## Model

| member | source | states |
|---|---|---|
| `ActionGraph.PathRises` | src/core/ChaosPlan.h:21 | a rank certificate rules out every cycle |
| `ActionGraph.AugmentedAcyclic` | src/core/ChaosPlan.cpp:31-68 | adding the sink and the source keeps the graph acyclic |
| `ActionGraph.AugmentedIsSingle` | src/core/ChaosPlan.cpp:31-68 | afterwards exactly one action has no dependees, exactly one has no dependers, and every action lies on a path between them |
| `ActionGraph.LayeredIsSingle` | src/core/LoopAction.cpp:14-34 | the same however many Begin/End layers a loop object has stacked, and edges between the original actions never change |
| `EdgeLists.EndTests` | src/core/ChaosPlan.cpp:34-41 | with mirrored edge lists the two emptiness tests find exactly the roots and leaves of the graph |
| `EdgeLists.AugmentedRepresents` | src/core/ChaosPlan.cpp:59-68 | the dependee lists after both attachments stand for exactly the augmented graph |
| `EdgeLists.AugmentedMirrored` | src/core/Action.h:65-76 | after both attachments every edge is still stored at both ends, equally often |
| `Actions.Action.AddDependency` | src/core/Action.h:65-70 | appends one edge at both ends |
| `Actions.Action.AddDependee` | src/core/Action.h:72-76 | appends one edge at both ends, seen from the depender |
| `Actions.Action.Reset` | src/core/Action.h:78-86 | a settled action gets INIT and a new promise, an unsettled one keeps its old |
| `Actions.Action.BeginRun` | src/core/Action.h:116-119 | needs INIT, leaves RUNNING |
| `Actions.Action.EndRun` | src/core/Action.h:122-138 | status and promise for each way a body can end |
| `Actions.Action.MarkFailed` | src/core/Action.h:140-143 | FAILED; an open promise is broken, and on a fulfilled one, which stays, the call throws |
| `ChaosPlanObjects.LoadActions` | src/nebula/NebulaChaosPlan.cpp:126-151 | the two passes build objects whose mirrored lists stand for exactly the graph the file lists, forward references included |
| `ChaosPlanObjects.ChaosPlan.AddAction` | src/core/ChaosPlan.cpp:13-20 | appends, and numbers an action that has no id |
| `ChaosPlanObjects.ChaosPlan.Augment` | src/core/ChaosPlan.cpp:31-68 | on the objects: the plan ends up mirrored and standing for the augmented graph of what it stood for |
| `ChaosPlanObjects.ChaosPlan.Continue` | src/core/ChaosPlan.cpp:78-94 | the continuation marks the action failed exactly if a dependee's promise is broken, and else runs it |
| `ChaosPlanObjects.ChaosPlan.TakeStep` | src/core/ChaosPlan.cpp:70-110 | every proposed step is carried out on the objects exactly when the transition system allows it, with the same result |
| `ChaosPlanObjects.ChaosPlan.RunPicks` | src/core/ChaosPlan.cpp:70-110 | the proposed steps are carried out on the objects in order, each exactly if it is possible when its turn comes |
| `ChaosPlanObjects.ChaosPlan.Schedule` | src/core/ChaosPlan.cpp:28-112 | under any proposed interleaving the objects end in the state the proposed steps lead to; a settled action has SUCCEEDED exactly when it and all its ancestors returned OK; once the wait has returned the sink is settled, and unless the plan was empty so is everything; when nothing more is possible, the call has returned and everything is settled |
| `PlanSchedule.StepKeepsInv` | src/core/ChaosPlan.cpp:70-103 | every step keeps the relation between an action's status, promise, counts and dependees |
| `PlanTheorems.RunSafety` | src/core/Action.h:116-143 | in every state of every run: a body is entered at most once and only after all dependees SUCCEEDED, a promise is fulfilled at most once and agrees with the status, `run()` meets INIT, no more workers than the pool has |
| `PlanTheorems.RegistrationComesFirst` | src/core/ChaosPlan.cpp:64-103 | no action leaves INIT before every continuation is attached, because the source comes last |
| `PlanTheorems.CompleteAtReturn` | src/core/ChaosPlan.cpp:105-110 | when the wait returns, every action is settled even if some failed, and its status is the one its ancestry fixes |
| `PlanTheorems.Progress` | src/core/ChaosPlan.cpp:70-105 | with at least one worker, some step is enabled until everything is over |
| `PlanTheorems.RunsTerminate` | src/core/ChaosPlan.cpp:70-105 | every run has at most 5n+2 states for n actions |
| `PlanTheorems.RunsComplete` | src/core/ChaosPlan.cpp:70-105 | every partial run can be carried on to a complete one |
| `PlanTheorems.RunIsCarried` | src/core/ChaosPlan.cpp:70-105 | every run is what some proposed steps lead to, state by state |
| `PlanTheorems.SomePicksComplete` | src/core/ChaosPlan.cpp:70-105 | no more than 5n+1 proposed steps are needed until nothing more is possible |
| `PlanTheorems.CarriedToTheEnd` | src/core/ChaosPlan.cpp:70-110 | when nothing more is possible after proposed steps, the wait has returned and each action has the one record its ancestry determines |
| `PlanTheorems.CompleteRunsEndAlike` | src/core/ChaosPlan.cpp:70-103 | every complete run ends with each action in the one record its own outcome and its ancestors' determine |
| `PlanTheorems.Confluence` | src/core/ChaosPlan.cpp:70-103 | two complete runs of one plan agree on every action and on the plan's status |
| `PlanTheorems.PlanStatusExact` | src/core/ChaosPlan.cpp:78-102 | at the end the plan is FAILED exactly when an action other than the sink FAILED or the sink's body threw |
| `PlanTheorems.ReportsExact` | src/core/ChaosPlan.cpp:43-57 | the report task runs exactly once, or twice when its own first execution failed; its execution as an action says passed and everything else had succeeded |
| `ReportTheorems.WrongReportExact` | src/core/ChaosPlan.cpp:43-110 | some complete run ends with a report that contradicts the plan's status exactly if between one and as many actions as the pool has threads are skipped or throw |
| `ReportTheorems.ReportMayBeWrong` | src/core/ChaosPlan.cpp:86-110 | a reachable state of a plan of one action in which it FAILED and the only report says passed |
| `LoopInvariant.StepKeepsInv` | src/core/LoopAction.cpp:40-78 | every step within a call keeps the relation between the status, the promises and the continuations of each ordered action |
| `LoopInvariant.ExecuteKeepsInv` | src/core/LoopAction.cpp:14-34 | so does another call of `doRun` on the object, whose actions are settled and whose old Ends and Begins stay |
| `LoopTheorems.RacesExact` | src/core/LoopAction.cpp:65-78 | dependees listed first, on a pool that may overtake its queue: some run goes on after a failed round exactly if an action that may fail has a path to a leaf no longer than the pool is wide (one less if it throws) |
| `LoopRaces.WidePoolMayRace` | src/core/LoopAction.cpp:65-78 | dependees listed first, on a pool wider than the sub-plan: every body that may fail has such a path |
| `QueueSchedule.QueueRaces` | src/core/LoopAction.cpp:60-78 | dependees listed first, on a pool that serves its queue in order: no run goes on after a failed round if there is no such path; with a thread for every action, Begin and End included, some run does exactly if any body may fail |
| `QueueRuns.QueueRacesExact` | src/core/LoopAction.cpp:53-78 | dependees listed first, on a pool that serves its queue in order: some run goes on after a failed round exactly if from an action that may fail there is a path to a leaf with no more dependers, End included, than the pool has threads (fewer if the action throws) |
| `QueueRaces.QStepKeepsInv` | src/core/LoopAction.cpp:60-62 | dependees listed first, up to a race: the queue and the threads together hold exactly the decided and unfinished continuations, each once, and no more threads are taken than the pool has |
| `QueueRuns.QueueSaves` | src/core/LoopAction.cpp:53-78 | a sub-plan of six actions on two threads that races on a pool that may overtake its queue and never on one that serves it in order |
| `QueueSchedule.QueueRunIsRun` | src/core/LoopAction.cpp:60-62 | every run with the queue is a run of `LoopSchedule`, so what holds of all runs holds with the queue |
| `QueueSchedule.WidePoolRealises` | src/core/LoopAction.cpp:60-62 | dependees listed first: a run that never has more decided continuations than the pool has threads is a run with the queue, up to a race |
| `QueueSchedule.QueueAborts` | src/core/LoopAction.cpp:53-64 | dependees listed first, with the queue: no abort within two rounds without a race; an abort in the third without a failure if there is a thread for every continuation of three rounds |
| `LoopRaces.RaceExact` | src/core/LoopAction.cpp:65-78 | dependees listed first: the first race of a run is the step in which `rc` is read between the two writes of the sink's failing continuation |
| `LoopTheorems.RoundOrder` | src/core/LoopAction.cpp:53-74 | dependees listed first: in every round of every call, up to a race, an action starts with status INIT and only after all its dependees succeeded in that same round |
| `LoopTheorems.OrderExact` | src/core/LoopAction.cpp:53-58 | for every acyclic sub-plan: that order holds in all runs up to a race exactly if every dependee is listed before its dependers |
| `LoopTheorems.RoundComplete` | src/core/LoopAction.cpp:40-78 | dependees listed first: between two rounds or two calls, up to a race, every action succeeded in the round just ended and no continuation of it is left over |
| `LoopTheorems.OncePerRound` | src/core/LoopAction.cpp:53-64 | then every body has also been entered exactly once per round, however the continuations interleaved |
| `LoopTheorems.SubPlanNeverAborts` | src/core/Action.h:117-125 | dependees listed first: up to a race no continuation of a sub-plan action fails a CHECK of `run()` |
| `LoopTheorems.AbortExact` | src/core/LoopAction.cpp:53-64 | for every acyclic sub-plan: without a race the process can be aborted within so many rounds exactly if they are three or more |
| `LoopRounds.LateBeginAborts` | src/core/LoopAction.cpp:53-64 | the aborting run of any acyclic sub-plan: no failure, and the second continuation of Begin meets the wrong status in the third round |
| `LoopRounds.BackwardBreaksOrder` | src/core/LoopAction.cpp:53-58 | for any action listed before a dependee: a run in which it may start ahead of it in round two |
| `LoopRounds.FailureReadTooEarly` | src/core/LoopAction.cpp:65-77 | the racing run of any acyclic sub-plan with a racing path, on a pool that may overtake its queue |
| `LoopWitnesses.RacedLoopAborts` | src/core/LoopAction.cpp:53-78 | after a race a sub-plan of two actions listed in order aborts the process in round two, on two threads |
| `LoopProgress.CallsGoOn` | src/core/LoopAction.cpp:40-81 | whenever the condition is evaluated, in any run, a round, a good end or an error may follow, and after a good end another call, with two more actions |
| `LoopProgress.CallFailsExact` | src/core/LoopAction.cpp:40-78 | a call fails exactly where its condition has no value, or where the wait returns and the `rc` of that round was written |
| `LoopProgress.RoundProgress` | src/core/LoopAction.cpp:52-75 | dependees listed first: in a round that has not raced or aborted some step is always enabled |
| `LoopProgress.RoundEnds` | src/core/LoopAction.cpp:52-75 | a round takes no more steps than a measure known when it begins |
| `Expressions.CompareTrichotomy` | src/expression/Expressions.cpp:279-318 | wherever no double is compared the six comparisons are one total order: by type first, then by content |
| `Overflow.AddExact` | src/expression/Expressions.cpp:136-144 | the test says yes exactly when the sum leaves int64 |
| `Overflow.SubExact` | src/expression/Expressions.cpp:146-154 | the test is right exactly unless the right operand is the least integer and the left is not negative, and what happens then |
| `Overflow.MulExact` | src/expression/Expressions.cpp:156-168 | the test is right exactly unless left = -1 and right > 0, where it is undefined though the product fits |
| `Overflow.TruncatingDivision` | src/expression/Expressions.cpp:226-240 | quotient and remainder satisfy the laws of truncating division |
| `Evaluator.MachineIntExact` | src/expression/Expressions.cpp:121-247 | one integer operation returns exactly on safe operands, and then the true result |
| `Evaluator.UnsafeInt` | src/expression/Expressions.cpp:170-240 | which unsafe operands are caught and which are undefined |
| `Evaluator.EvalRefines` | src/expression/Expressions.cpp:74-369 | for every expression, int64 evaluation returns exactly when unbounded evaluation returns and every operation on the way is safe, with the same value or error |
| `EvaluatorLaws.NotIsXor` | src/expression/Expressions.cpp:74-92 | NOT x is x XOR true, for every expression |
| `EvaluatorLaws.DeMorgan` | src/expression/Expressions.cpp:341-369 | De Morgan's laws for all expressions, errors and aborts included |
| `EvaluatorLaws.TruthTable` | src/expression/ExprUtils.h:72-86 | what counts as true: a non-zero integer, a double by its test, a boolean itself, an empty string |
| `EvaluatorLaws.SignLaws` | src/expression/Expressions.cpp:74-92 | a plus sign changes nothing; a minus sign gives the number that adds up to 0, undefined for the least integer, and an error on booleans and strings |
| `EvaluatorLaws.StringLaws` | src/expression/Expressions.cpp:170-188 | a sum of strings is the left one followed by the right one; any other arithmetic with a string or a boolean is an unknown operation |
| `EvaluatorLaws.DoubleLaws` | src/expression/Expressions.cpp:170-247 | with a double among them both operands reach the double operation in their order, and only the right one is tested against zero |
| `EvaluatorLaws.ComparisonPairs` | src/expression/Expressions.cpp:279-318 | > is < the other way round, and >=, <=, != are the negations of <, >, ==, on values of any types |
| `EvaluatorLaws.TypeOrder` | src/expression/ExprUtils.h:38 | values of different types are ordered integer, double, boolean, string; only numbers of two types can be equal, and then tolerantly |
| `EvaluatorLaws.ContentOrder` | src/expression/Expressions.cpp:279-318 | values of one type are ordered and compared by content: false before true, strings by their first difference |
| `EvaluatorLaws.VariableLaws` | src/expression/Expressions.h:16-28 | a variable has the value last given to it; an unset one is ERR_NULL, and without a context it is ERR_BAD_PARAMS |
| `EvaluatorLaws.ErrorsPassOn` | src/expression/Expressions.cpp:121-369 | the first operand from the left without a value decides, also for AND and OR |
| `Literals.HexCount` | src/parser/scanner.lex:92-100 | sixteen significant hexadecimal digits always fit 64 bits, seventeen never do |
| `Literals.OctCount` | src/parser/scanner.lex:110-119 | twenty-two significant octal digits fit 64 bits exactly when the first is 1; fewer always, more never |
| `Literals.ScanHex` | src/parser/scanner.lex:91-108 | the digit counting delivers the value if it is at most 2^63 and an exception otherwise, and `sscanf` only ever sees numbers that fit |
| `Literals.ScanOct` | src/parser/scanner.lex:109-127 | the same for octal |
| `Literals.ScanDec` | src/parser/scanner.lex:128-140 | converting digit by digit with an overflow test delivers the value if it is at most 2^63 and an exception otherwise |
| `Scanner.NextIsLongestFirst` | src/parser/scanner.lex:36-166 | the lexeme chosen from the first characters is the longest match over all rules and prefixes, the earliest rule winning; none is chosen exactly when no rule matches |
| `Scanner.ScanText` | src/parser/scanner.lex:34-166 | the moving position produces exactly the tokens of the text |
| `LanguageLaws.WordCharacters` | src/parser/scanner.lex:29 | the characters of words |
| `LanguageLaws.NumberCharacters` | src/parser/scanner.lex:30-32 | the digits of the three bases |
| `LanguageLaws.DigitWorth` | src/parser/scanner.lex:91-140 | what each digit is worth, hexadecimal letters small or capital |
| `LanguageLaws.KeywordLetters` | src/parser/scanner.lex:21-26 | the keywords letter by letter, in either case |
| `LanguageLaws.SignTable` | src/parser/scanner.lex:41-75 | each of the 29 signs scans to its token, and no other text is a sign |
| `RoundTrip.BlanksVanish` | src/parser/scanner.lex:162-166 | blanks, tabs and line ends are passed over wherever they stand |
| `LanguageLaws.WordExact` | src/parser/scanner.lex:77-90 | a word alone is a string constant up to 4096 characters, a truth value, or nothing |
| `LanguageLaws.NegativeConstant` | src/expression/Expressions.cpp:11-16 | the print of a negative constant reads back as a negation, and that of the least integer as nothing |
| `LanguageLaws.FractionExact` | src/parser/scanner.lex:141-158 | digits with one point go to the conversion as they stand |
| `Grammar.ParseExact` | src/parser/parser.yy:71-204 | a deterministic parser accepts exactly the derivable token lists and returns the derivation |
| `Grammar.Productions` | src/parser/parser.yy:71-204 | what each nonterminal derives, production by production, with its operators listed |
| `Grammar.Precedence` | src/parser/parser.yy:120-204 | of two operators between three operands the second groups first exactly if its class is tighter in the order `* / %`, `+ -`, ordering, equality, AND, OR, XOR; otherwise they group to the left |
| `Grammar.PrefixBindsTightest` | src/parser/parser.yy:107-118 | a prefix operator takes the next operand only |
| `Grammar.Unambiguous` | src/parser/parser.yy:71-204 | two derivations of one token list are the same |
| `ParserHelper.ParsedProducible` | src/parser/ParserHelper.h:18-30 | what the parser can produce: non-negative constants below 2^63, names that are no keywords and not too long |
| `ParserHelper.LiteralExact` | src/parser/parser.yy:82-85 | a literal of any length is accepted exactly when its value is below 2^63, and yields it |
| `ParserHelper.KeywordsAreSigns` | src/parser/parser.yy:169-197 | AND, OR, XOR and the signs are interchangeable everywhere |
| `LanguageLaws.WordOperators` | src/parser/parser.yy:107-197 | `$a OR $b`, AND, XOR and `NOT $b`, in any mixture of small letters and capitals, parse to the operation they name |
| `LanguageLaws.SumOfProduct` | src/core/test/ActionsTest.cpp:65-73 | the text `k + m * n` evaluates to k + m * n for all numbers for which that fits |
| `LanguageLaws.ParsedFits` | src/parser/parser.yy:71-86 | every parsed expression has literals that fit, so that `Evaluator.EvalRefines` applies to it |
| `RoundTrip.PrintParse` | src/expression/Expressions.cpp:11-339 | without doubles, print then scan then parse gives back the expression, or nothing exactly when it holds a NOT or a less-than with negated right operand |
| `RoundTrip.ParsePrintParse` | src/parser/ParserHelper.h:18-30 | the same for every tree parsed from any text |
| `LoopActions.AssignAction.DoRun` | src/core/AssignAction.h:28-41 | the variable gets the value of its text, set before or not, exactly when the text parses and evaluates; nothing else changes |
| `LoopActions.RoundOutcome` | src/core/AssignAction.h:28-41 | a round of the body fails exactly if its first action that does not succeed returns an error, and ends the process exactly if that action does |
| `LoopActions.PassOutcome` | src/core/LoopAction.cpp:40-78 | a pass of the loop stops, fails or ends the process exactly as its condition and its round say |
| `LoopActions.LoopAction.DoRun` | src/core/LoopAction.cpp:35-81 | returns OK exactly when the condition comes to fail, after as many rounds as it held, with the variables of that many rounds |
| `LoopActions.EndUnique` | src/core/LoopAction.cpp:40-81 | a loop has at most one end |
| `LoopActions.CountingLoop` | src/core/LoopAction.cpp:40-79 | `$i < N` with a body that counts i up: exactly max(0, N - i0) rounds one body after the other, i ends as max(i0, N), no check strikes; on the pool the process may abort from round three on (`LoopTheorems.AbortExact`) |
| `CountingRuns.ScheduledCount` | src/core/LoopAction.cpp:40-79 | the same on the pool: in every run, and in whatever order the entered bodies take effect, i stands at i0 plus the number of rounds whenever the condition is evaluated, so that it holds exactly while there were fewer than N - i0 |
| `CountingRuns.ScheduledRounds` | src/core/LoopAction.cpp:40-79 | on the pool, with rounds entered and calls left as the condition says: never more than max(0, N - i0) rounds over all calls, and exactly so many whenever a call returns OK |
| `CountingRuns.RoundIsListedOrder` | src/core/LoopAction.cpp:53-74 | the round of `LoopActions` is the effect of the bodies in listed order |
| `LoopActions.CountingTexts` | src/core/test/ActionsTest.cpp:50-62 | for every name and limit `$i < N` and `$i + 1`, as written there and as printed, are texts of such a loop |
| `Circle.WriteCircleAction.SendBatch` | src/nebula/NebulaAction.cpp:202-226 | the batch is sent until it is accepted, at most try - 1 times; OK exactly if one of so many answers is an acceptance, and then all rows are stored, whatever failed attempts left |
| `Circle.PiecesJoin` | src/nebula/NebulaAction.cpp:266-294 | the batches to be sent joined are rows 1..n once each, in pieces of the batch size and a last one of at most one more |
| `Circle.WriteCircleAction.DoRun` | src/nebula/NebulaAction.cpp:266-297 | the requests are exactly those that the answers call for; OK exactly if all rows were accepted, each once, and then the n-circle is stored; otherwise the first batch not accepted was rejected try - 1 times in a row; no other key is touched; OK whenever every request is accepted and one attempt is allowed |
| `Circle.AcceptedOnce` | src/nebula/NebulaAction.cpp:202-297 | of the requests called for, exactly the delivered batches are accepted, each once and in order |
| `Circle.GivesUpLate` | src/nebula/NebulaAction.cpp:202-226 | when a batch is not delivered, the requests end with it, rejected as often as allowed, first of all or right after an acceptance |
| `Circle.Walker.DoRun` | src/nebula/NebulaAction.cpp:326-375 | OK exactly when all fetches are answered and the walk returns to its start after n steps and not before |
| `CircleTheorems.WalkExact` | src/nebula/NebulaAction.cpp:326-375 | over keys in 1..n a walk from any start succeeds exactly when the store is one single n-cycle |
| `CircleTheorems.CircleWalk` | src/nebula/NebulaAction.cpp:266-375 | over a stored n-circle a walk with total m succeeds exactly when m = n |
| `CircleTheorems.ChangedRowFails` | src/nebula/NebulaAction.cpp:365-374 | changing any one row makes the walk fail from every start |
| `CircleTheorems.MissingRowFails` | src/nebula/NebulaAction.cpp:309-352 | so does losing any row |
| `CircleTheorems.WriteThenWalk` | src/nebula/NebulaAction.cpp:266-375 | a write that reports OK is followed by a successful walk from every start in 1..n, over any store and after any failed attempts; it does report OK if every request is accepted |
| `CircleTheorems.IndexAgrees` | src/nebula/NebulaAction.cpp:404-439 | walking backward through an exact index succeeds exactly when walking forward does |
| `Partition.InsertThenDelete` | src/nebula/NebulaAction.cpp:876-900 | inserting rules at the head and deleting each by first match, in the same order, restores the sequence, duplicates and earlier equal rules included |
| `Partition.RulesUndone` | src/nebula/NebulaAction.cpp:838-915 | the same for every chain of every host |
| `Partition.PartitionCutsOff` | src/nebula/NebulaAction.cpp:844-875 | in between, every other storage, every meta and the graph host are dropped in both directions: the rule is there and no rule that might accept stands before it, whatever the firewall held |
| `Partition.DeletionsSucceed` | src/nebula/NebulaAction.cpp:896-915 | after the insertions every `-D` finds its rule, so the CHECK of the exit status holds |
| `Partition.RulesExact` | src/nebula/NebulaAction.cpp:844-875 | the partition has these rules and no others: for each other storage, each meta and the graph host one in each direction |
| `Partition.RandomPartitionAction.Disturb` | src/nebula/NebulaAction.cpp:838-894 | collects exactly the partition's rules and sends their insertions to the picked host only, in order |
| `Partition.RandomPartitionAction.Recover` | src/nebula/NebulaAction.cpp:896-915 | sends the deletions of exactly the remembered rules there, with exit status 0 if every deletion finds its rule |
| `Partition.RandomPartitionAction.DoRun` | src/core/Action.h:194-211 | the commands sent are, for each round in order, the insertions of the partition around the instance picked and then the deletions of the same rules; every rule list of every host ends as it was, rules of any kind included |

## Left out

- SSH, subprocesses, HTTP, mail, files and JSON fields: input and output only; outcomes are oracles.
- `GraphClient`, sessions and the query strings: the store is a map with an oracle for success.
- Checkpoint, WAL, disk, traffic-control and performance actions: shell effects without state of their own.
- Double arithmetic, `almostEqual` and the formatting of doubles: arbitrary functions here; the round trip is stated without double literals because the format keeps only fifteen decimals.
- Wall-clock time, sleeps, logging, the text of the report: no effect on what is proved.
- `WriteCircleAction` with random values: it writes no circle.
- Walks from start 0: the constructor may pick it, but no row 0 is ever written; starts are taken in 1..n.
- Scanner.Scan: a character that no rule matches makes the model return no expression; the generated scanner ends the process there.
- Circle.Walker.DoRun: one class stands for both walkers, which have the same loop; the retries inside one fetch are a single oracle answer.
- LoopActions.LoopAction.DoRun: the body of a round is a sequence of assignments in listed order, and the loop is assumed to end without aborting the process; `LoopSchedule` has the concurrent rounds, and `CountingRuns` ties a counter to them.
- CountingRuns.ScheduledCount: the effect of an assignment is one step, although the code reads and writes the shared variables without a lock.
- LoopTheorems.RoundOrder: says nothing about the Begin actions, which later rounds do not wait for, nor about what follows a race, after which it is false.
- LoopTheorems.RoundComplete: says nothing about what follows a race, after which it is false.
- LoopTheorems.SubPlanNeverAborts: says nothing about what follows a race, after which it is false (`LoopWitnesses.RacedLoopAborts`).
- LoopSchedule: a call of `doRun` after one that returned an error is not modelled; a write to the `rc` of a finished round, which is a dangling reference in the code, touches only that round.
- LoopTheorems.RacesExact: its racing run may overtake the pool's queue; `QueueRuns.QueueRacesExact` is the exact condition for a pool that does not. Without listing order only its racing half is proved (`LoopRounds.FailureReadTooEarly`).
- QueueRuns.QueueRacesExact: exact for the steps of `QueueSchedule`, in which all futures of a promise are decided at once and the continuation of a failed dependee goes through the queue once; with finer steps of the executor, which is not part of this model, fewer threads may do, but never without the path of `LoopTheorems.RacesExact`.
- LoopRounds.FailureReadTooEarly: may overtake the queue in the same way.
- LoopTheorems.NoFailureNoRace: rests on the status and the promise being written in one step at the end of `run()`.
- QueueSchedule.QueueAborts: the abort is proved there for wide pools only; `LoopRounds.LateBeginAborts` has it for every pool, without the queue.
- Partition.RandomPartitionAction.DoRun: the ssh commands reach the host and insertions succeed.
- The remaining actions' `toString`, ids beyond their numbering, and time spent: no deep property.
