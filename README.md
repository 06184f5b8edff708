# M/M/1 queue simulations with selfish and socially optimal balking

This project models the two simulations of a small queueing repository in Dafny.

`graphicalMM1.py` is a tick-driven simulation of a single-server queue:

- Players arrive after exponential inter-arrival times and need exponential service times.
- A `Player` always joins the queue.
- A `SelfishPlayer` balks when its expected time in the system, (occupancy + 1)/mu, is not below its cost of balking.
- An `OptimalPlayer` balks once the occupancy reaches Naor's threshold.
  `naorthreshold` searches for that threshold (Naor, "The regulation of queue size by levying tolls", 1969).
- `Sim.run` advances the clock one tick at a time until it reaches T.
  At each tick it completes a service, admits the waiting player, creates the next one and records the queue length and the system state.
- `Sim.printsummary` derives means, balking probabilities and mean costs from the recorded data.
  It counts only the ticks and the players from a warm-up time on.

`MM1Q.py` is an event-by-event simulation:

- Each customer starts service at its arrival or when the previous customer leaves, whichever is later.
- The run stops once an arrival reaches the simulation time.
- It reports the mean wait, the mean time in the system, the mean service time and the utilisation.
- It can write one CSV row per customer.

Modules, one per concern of the source:

- `Wrappers`: `Option` and `Result`. Python's `False` (the source's "no value") is `None`. An exception is `Err`.
- `Stats`: `sum`, `max`, `mean`, `movingaverage`.
- `Naor`: `naorthreshold`, as a method with its loop.
- `Players`: the three player classes, as one record with a `Kind`. Their `arrive`, `startservice` and `endservice` are functions from the old record to the new one.
- `Queueing`: the `Queue` and `Server` classes. They hold player ids and update their lists in place.
- `Simulation`: the `Sim` class, with `__init__`, `newplayer`, `run` and `collectdata`. `run`'s loop is proved to keep an invariant on every player and on the recorded data. Part of it is that every arrived player is served exactly when it is in `completed`.
- `Summary`: the computations of `printsummary`.
- `MM1Q`: `Customer.__init__`, the loop of `QSim`, its summary statistics and its CSV rows.

Randomness is a parameter:

- In `Simulation`, the k-th created player uses `draws(k)`. It holds the uniform sample that picks the player's class and the two exponential samples.
- In `MM1Q`, `gaps[k]` and `services[k]` are the k-th inter-arrival and service samples.

Floating point numbers are exact reals.

Two places where the code does not match its own description:

- `MM1Q`'s utilisation divides the total service time by the last arrival date, not by the time the server was open. So it is not a fraction of time and can exceed 1 (`MM1Q.UtilisationCanExceedOne`). The model follows the code. What holds is that all service fits before the last departure (`MM1Q.ServiceFitsBeforeLastDeparture`).
- `printsummary` is documented to accept a number as `costofbalking`. Line 639 then indexes that number, and Python raises TypeError (`Err(NotSubscriptable)` here).

## Model

| member | source | states |
|---|---|---|
| Stats.Max | MM1Q.py:48 | `max` of two numbers: no less than either, and equal to one of them |
| Stats.Mean | graphicalMM1.py:21-31 | `mean` is False (None) exactly for the empty list; otherwise the mean times the length is the sum |
| Stats.MovingAverage | graphicalMM1.py:33-41 | `movingaverage` has one entry per item; entry k is the mean of the first k+1 items |
| Stats.MovingAverageStep | graphicalMM1.py:33-41 | consecutive entries follow the running-mean update rule |
| Stats.MovingAverageLast | graphicalMM1.py:33-41 | the last entry is the mean of the whole list |
| Stats.MovingAveragePrefix | graphicalMM1.py:33-41 | each entry depends only on the items up to it |
| Stats.SumPointwise | graphicalMM1.py:608 | summing `sum(k) for k in zip(a, b)` gives sum(a) + sum(b) |
| Stats.MeanPointwise | graphicalMM1.py:608 | the mean of the pairwise sums is the sum of the two means |
| Naor.Wait | graphicalMM1.py:139 | f(n) = (n(1 - rho) - rho(1 - rho^n))/(1 - rho)^2: times (1 - rho)^2 it is the numerator |
| Naor.WaitStep | graphicalMM1.py:139-140 | f(n + 1) = f(n) + 1 + rho + ... + rho^n |
| Naor.Brackets | graphicalMM1.py:141-142 | `LHS <= center < RHS` holds iff f(n) <= mu*c < f(n) + 1 + rho + ... + rho^n |
| Naor.NaorThreshold | graphicalMM1.py:124-143 | the loop returns the least n with f(n) <= mu*c < f(n+1) |
| Naor.WaitGrows | graphicalMM1.py:139-140 | f grows by at least 1 per step, so the search ends |
| Naor.ThresholdUnique | graphicalMM1.py:124-143 | at most one n satisfies the bracket, so the threshold is well defined |
| Naor.ThresholdMonotone | graphicalMM1.py:124-143 | a higher cost of balking never lowers the threshold |
| Naor.ThresholdAtMostCenter | graphicalMM1.py:124-143 | the threshold is at most mu*c |
| Naor.ZeroCostThreshold | graphicalMM1.py:438-442 | with costofbalking False (cost 0) the threshold is 0 |
| Players.Create | graphicalMM1.py:163-187 | a new player keeps its kind and its two samples, and is neither served nor balked |
| Players.Arrived | graphicalMM1.py:202-214 | `arrive(t)` sets the arrival date to t and marks the player balked exactly when it does not join; nothing else changes |
| Players.Started | graphicalMM1.py:216-229 | `startservice(t)` sets the end-of-queue date to t and the service date to t + service time; nothing else changes |
| Players.Ended | graphicalMM1.py:231-244 | `endservice` marks the player served; end of service = end of queue + service time; waiting time = end of queue - arrival |
| Players.Lifecycle | graphicalMM1.py:202-244 | a player that arrives at a and starts at s waits s - a, leaves at its service date, and stays wait + service |
| Players.Joins | graphicalMM1.py:202-305 | the decision on arrival: a plain player always joins; a selfish one iff (occupancy + 1)/mu < cost; an optimal one iff occupancy < threshold |
| Players.SelfishJoinsIff | graphicalMM1.py:264-270 | a selfish player joins iff occupancy + 1 < mu * cost |
| Players.JoinsDownwardClosed | graphicalMM1.py:253-305 | whoever joins at some occupancy also joins at any smaller one |
| Players.OptimalWithinSelfishBound | graphicalMM1.py:288-305 | an optimal player joins only where occupancy + 1 <= mu * cost |
| Players.TieSeparatesRules | graphicalMM1.py:264-300 | with mu*cost = 1 and an empty system, an optimal player joins but a selfish one balks |
| Queueing.SortByDate | graphicalMM1.py:385 | `sorted(players, key=servicedate)`: a permutation ordered by service date |
| Queueing.Queue.constructor | graphicalMM1.py:325-327 | a new queue is empty |
| Queueing.Queue.Len | graphicalMM1.py:330-331 | `__len__` is the number of players queued |
| Queueing.Queue.Join | graphicalMM1.py:346-355 | `join` appends at the tail |
| Queueing.Queue.Pop | graphicalMM1.py:332-345 | `pop(index)` returns the entry at index and removes it; the others keep their order |
| Queueing.Server.constructor | graphicalMM1.py:369-371 | a new server is empty |
| Queueing.Server.Len | graphicalMM1.py:374-375 | `__len__` is the number of players in service |
| Queueing.Server.Free | graphicalMM1.py:387-391 | `free` holds exactly when nobody is in service |
| Queueing.Server.Start | graphicalMM1.py:376-386 | `start` adds the player and re-sorts by service date; the next service date is the earliest |
| Simulation.ThresholdCost | graphicalMM1.py:438-442 | the cost handed to `naorthreshold`: 0 for False, the list's second item or the number otherwise |
| Simulation.KindFor | graphicalMM1.py:453-462 | the class `newplayer` picks: plain iff costofbalking is falsy; with a list, selfish iff u < proportion |
| Simulation.Horizon | graphicalMM1.py:483-490 | the t at which `while t < T: t += 1` stops: the least whole number >= T (0 if T <= 0) |
| Simulation.Tail | graphicalMM1.py:241 | `players[1:]`, empty for an empty list |
| Simulation.CountsCover | graphicalMM1.py:524-529 | without plain players, the selfish and optimal counts add up to the list's length |
| Simulation.QueueTally | graphicalMM1.py:523-525 | the queue length entry: the queue's length, or, when costofbalking is truthy, a pair whose first item counts the selfish players and whose items add up to the length |
| Simulation.SystemTally | graphicalMM1.py:526-535 | the system state entry: 0 ([0, 0]) while the server is free, otherwise the queue entry plus those in service |
| Simulation.TallyMeaning | graphicalMM1.py:515-535 | with at most one player in service, the recorded state is 0 or the queue length plus one (pairwise with balking) |
| Simulation.RecordStep | graphicalMM1.py:513 | recording a well-tallied pair at the next tick keeps the keys 1..t and the tallies |
| Simulation.FirstArrivalOk | graphicalMM1.py:483-488 | after the first arrival at 0 and its service start, the run invariant holds and player 0 is accounted for |
| Simulation.CompleteKeeps | graphicalMM1.py:493-499 | ending a service and starting the head of the queue keeps the run invariant (FIFO, one in service, dates) and every player accounted for |
| Simulation.ArriveKeeps | graphicalMM1.py:501-505 | an arrival that joins or balks keeps the run invariant and every player accounted for |
| Simulation.StartHeadKeeps | graphicalMM1.py:506-511 | starting the head of the queue in the free server keeps the run invariant and every player accounted for |
| Simulation.AccountedFirst | graphicalMM1.py:483-488 | after the first arrival, player 0 is unserved and queued unless it balked; its balk is not recorded |
| Simulation.AccountedComplete | graphicalMM1.py:493-499 | after a completion the finished player is served and in `completed`; nobody else changes list or status |
| Simulation.AccountedArrive | graphicalMM1.py:501-505 | after an arrival the newcomer is queued or recorded in `balked`, and the others stay accounted for |
| Simulation.AccountedStartHead | graphicalMM1.py:506-511 | moving the head of the queue into service keeps every arrived player accounted for |
| Simulation.CompletionConserves | graphicalMM1.py:493-498 | a completion removes exactly the player in service from the queue and the server (twice for the first player, who is in both), and leaves at most one in service |
| Simulation.ArrivalConserves | graphicalMM1.py:502-511 | an arrival adds the newcomer to the queue and the server iff it does not balk, a free server only takes a player from the queue, and the server stays idle only when nobody waits |
| Simulation.Sim.Drawn | graphicalMM1.py:453-462 | the k-th created player takes its class and samples from draw k |
| Simulation.Sim.constructor | graphicalMM1.py:418-443 | `__init__` stores the parameters, starts with empty lists, queue, server and dictionaries, and computes Naor's threshold |
| Simulation.Sim.NewPlayer | graphicalMM1.py:445-462 | `newplayer` creates the next drawn player only when none is waiting to arrive |
| Simulation.Sim.Arrive | graphicalMM1.py:253-305 | `arrive(t)`: the player joins the tail of the queue or balks, by its class's rule on len(queue) + len(server) |
| Simulation.Sim.StartService | graphicalMM1.py:216-229 | `startservice(t)` is a no-op for a served or balked player; otherwise the player enters the server, which re-sorts |
| Simulation.Sim.EndService | graphicalMM1.py:231-244 | `endservice` drops the server's first occupant and updates the player |
| Simulation.Sim.CollectData | graphicalMM1.py:515-535 | `collectdata(t)` sets the two dictionary entries at t and nothing else |
| Simulation.Sim.Run | graphicalMM1.py:475-513 | `run` stops at t = Horizon(T); the player invariant holds, every tick 1..t is recorded and well tallied, and every arrived player is served exactly when it is in `completed` |
| Simulation.Sim.Begin | graphicalMM1.py:483-488 | the first player arrives at 0 and, unless it balks by its class's rule at occupancy 0, is both queued and in service; nobody completed or balked; the next player waits |
| Simulation.Sim.Tick | graphicalMM1.py:489-513 | one pass of the loop body: the player in service completes when due, the waiting player arrives when due and is queued, served or recorded as balked, the next player is created (TickStep of the old and new state); the two entries at t are set from the new queue and server; the invariant holds |
| Simulation.Sim.Advance | graphicalMM1.py:490-512 | the new roster, queue, server, `completed` and `balked` are TickStep of the old ones: `completed` grows by the player in service iff the server was busy and t past its date, and the waiting player arrives iff t > its inter-arrival time + the previous arrival; the invariant holds |
| Simulation.Sim.CompleteService | graphicalMM1.py:493-499 | when the server is busy and t is past its next service date, `completed` grows by the player in service, who has Ended, and the head of the queue leaves it and, unless it was that same player, has Started at t in the server (AfterCompletion, CompletedRoster); otherwise nothing changes |
| Simulation.Sim.Complete | graphicalMM1.py:494-499 | the player in service is appended to `completed` and has Ended; the queue loses its head, which starts at t in the server unless it was that same player (AfterCompletion, CompletedRoster) |
| Simulation.Sim.AdmitAndServe | graphicalMM1.py:502-511 | the waiting player arrives at t and joins the queue or is appended to `balked`; then a free server takes the head of the queue, which starts at t (Admits); the invariant holds with it arrived |
| Simulation.Sim.Admit | graphicalMM1.py:502-505 | the waiting player is popped and has Arrived at t; it is appended to `balked` if it balked, to the queue otherwise; the server is untouched |
| Simulation.Sim.ArriveNext | graphicalMM1.py:503-505 | the arriving player has Arrived at t and is appended to `balked` if it balked and to the queue otherwise, keeping the invariant |
| Simulation.Sim.ArriveRecorded | graphicalMM1.py:503-505 | the player arrives by its class's rule on len(queue) + len(server) and, if it balked, is appended to `balked` |
| Simulation.Sim.StartIfFree | graphicalMM1.py:506-511 | a free server takes the head of a non-empty queue, which has Started at t; otherwise nothing changes (Filled, FilledRoster) |
| Simulation.Sim.StartHead | graphicalMM1.py:510-511 | the head of the queue is popped, starts at t and enters the free server; nobody else changes |
| Simulation.Sim.ArriveStep | graphicalMM1.py:501-512 | the waiting player arrives exactly when t > its inter-arrival time + the previous arrival; it then joins or balks, a free server takes the head of the queue and `newplayer` appends the next drawn player, and otherwise nothing changes (ArrivalStep); `completed` is untouched; the invariant holds |
| Simulation.Sim.CreateNext | graphicalMM1.py:512 | `newplayer` after an arrival appends the next drawn player, who waits; the invariant holds |
| Simulation.Sim.Record | graphicalMM1.py:513 | `collectdata(t)` sets the entries at t, so the recorded ticks become 1..t, all well tallied |
| Summary.Value | graphicalMM1.py:602-608 | an entry read as a number: the count, item [0], item [1], or both added |
| Summary.TicksFrom | graphicalMM1.py:574-575 | the number of ticks 1..h from warmup on is at most h |
| Summary.Series | graphicalMM1.py:574-577 | the entries from warmup on, in tick order: one per kept tick, none negative |
| Summary.KeptCount | graphicalMM1.py:630-637 | the number of listed players of a group who arrived from warmup on |
| Summary.Column | graphicalMM1.py:617-624 | the kept players' waiting or service times, one per kept player |
| Summary.Ratio | graphicalMM1.py:642-663 | `x /= d` when d != 0 and False otherwise: None iff d = 0, and value * d = x |
| Summary.BalkProbability | graphicalMM1.py:656-663 | the balking probability is False iff nobody of the group is counted; value * (balks + completions) = balks |
| Summary.BalkProbabilityBounds | graphicalMM1.py:656-663 | a balking probability lies in [0, 1]; it is 0 iff nobody balked and 1 iff nobody completed |
| Summary.CostsAsWritten | graphicalMM1.py:639-654 | as written: without counted optimal players, the selfish mean cost is False |
| Summary.CostsCorrected | graphicalMM1.py:639-654 | a group's mean cost is False exactly when none of its players is counted; likewise overall |
| Summary.SelfishCostLost | graphicalMM1.py:645-649 | with selfish players but no optimal ones, the written code loses the selfish mean cost, which the corrected code reports |
| Summary.SelfishCostLostExample | graphicalMM1.py:639-649 | one selfish balker at cost 2: as written (2, False, 0), corrected (2, 2, False) |
| Summary.CorrectedReportAgrees | graphicalMM1.py:639-663 | the report with line 649 corrected differs from the one as written only in its costs, not at all once an optimal player is counted, and loses the selfish cost only when no selfish player is counted |
| Summary.CostsWeighted | graphicalMM1.py:639-654 | the corrected overall mean cost is the average of the group means weighted by group sizes |
| Summary.PrintSummary | graphicalMM1.py:567-663 | falsy costofbalking gives the plain report; a list gives the balking report, with line 649 as written; a non-zero number raises TypeError |
| Summary.NoBalkSummary | graphicalMM1.py:571-587 | the plain branch computes the report of the series and columns from warmup on |
| Summary.BalkSummary | graphicalMM1.py:594-663 | the balking branch computes the per-class report with line 649 as written, or fails at line 639 without a list |
| Summary.TickLists | graphicalMM1.py:600-605 | the tick loop gathers exactly the series from warmup on |
| Summary.TimeLists | graphicalMM1.py:613-624 | the completed-players loop gathers exactly the group's columns from warmup on |
| Summary.BalkCounts | graphicalMM1.py:630-637 | the balked-players loop counts the selfish and other balkers from warmup on; together they are all kept balkers |
| Summary.EarlyWarmupKeepsAllTicks | graphicalMM1.py:574-577 | with warmup <= 1 (the default is 0) every recorded tick is summarised |
| Summary.EarlyWarmupKeepsAllPlayers | graphicalMM1.py:582-585 | with warmup no later than every arrival, every completed player is summarised |
| Summary.RecordedTallied | graphicalMM1.py:513 | what `run` records is well tallied at every tick |
| Summary.StatesFollowLengths | graphicalMM1.py:531-535 | without balking each kept system state is 0 or the queue length plus one |
| Summary.AtMostOneMore | graphicalMM1.py:578-579 | states never above lengths + 1 have a mean in [0, mean length + 1] |
| Summary.NoBalkSystemStateBound | graphicalMM1.py:578-579 | the mean system state lies between 0 and the mean queue length plus one |
| Summary.PairsAddUp | graphicalMM1.py:608-611 | with balking, `sum(k) for k in zip(...)` is the whole count at each kept tick |
| Summary.BalkOverallMeans | graphicalMM1.py:606-611 | the overall mean queue length (and state) is the selfish mean plus the optimal mean |
| Summary.StaysAddUp | graphicalMM1.py:587 | service time plus waiting time of each kept player is its time from arrival to departure |
| Summary.SystemTimeIsStay | graphicalMM1.py:587 | the mean system time reported is the mean time kept players spent in the system |
| Summary.WaitsNotNegative | graphicalMM1.py:243 | no completed player waited a negative time |
| Summary.MeanWaitNotNegative | graphicalMM1.py:586 | the mean waiting time reported is not negative |
| MM1Q.NewCustomer | MM1Q.py:7-12 | `Customer.__init__`: end of service = start + service time; wait = start - arrival |
| MM1Q.Schedule | MM1Q.py:40-55 | the customers the loop creates from the samples: one per pair of samples |
| MM1Q.Next | MM1Q.py:43-52 | the first customer starts at its arrival; a later one arrives gap after the previous and starts at max(arrival, previous end) |
| MM1Q.ScheduleStep | MM1Q.py:40-55 | one more pair of samples adds one customer to the schedule |
| MM1Q.ArrivalIsSum | MM1Q.py:43-47 | the k-th arrival date is the sum of the first k+1 inter-arrival times |
| MM1Q.WellFormed | MM1Q.py:43-52 | every customer is consistent with `__init__`, waits a non-negative time, and the first does not wait |
| MM1Q.NoOverlap | MM1Q.py:48 | each customer starts no earlier than the previous one leaves, and exactly then if it came earlier |
| MM1Q.FirstComeFirstServed | MM1Q.py:43-52 | with non-negative samples, arrival and start dates never decrease |
| MM1Q.StepMatchesSchedule | MM1Q.py:42-52 | one pass of the loop creates the next customer of the schedule |
| MM1Q.Simulate | MM1Q.py:33-55 | the loop builds the schedule's prefix and stops at the first arrival at or after simulation_time |
| MM1Q.Waits | MM1Q.py:59 | `Waits`: each customer's wait, in order |
| MM1Q.TotalTimes | MM1Q.py:62 | `Total_Times`: each customer's wait plus service time |
| MM1Q.ServiceTimes | MM1Q.py:65 | `Service_Times`: each customer's service time |
| MM1Q.Summarise | MM1Q.py:59-68 | ZeroDivisionError iff there is no customer or t = 0; otherwise the means times n are the sums, and utilisation * t = total service |
| MM1Q.MeanTimeAddsUp | MM1Q.py:59-66 | the mean time in the system is the mean wait plus the mean service time |
| MM1Q.MeanWaitNotNegative | MM1Q.py:59-60 | for a simulated run the mean wait is not negative |
| MM1Q.OnlyEmptyRunFails | MM1Q.py:40-68 | a simulated run fails to summarise exactly when simulation_time <= 0 |
| MM1Q.ServiceTimesAreSamples | MM1Q.py:49-65 | the recorded service times are the samples drawn, in order |
| MM1Q.ServiceFitsBeforeLastDeparture | MM1Q.py:65-68 | with non-negative samples, the total service time is at most the last service end date |
| MM1Q.UtilisationCanExceedOne | MM1Q.py:55-68 | arrivals at 1 and 2 needing 5 each give utilisation 5 |
| MM1Q.Row | MM1Q.py:86-96 | the row for customer i has six cells and starts with i |
| MM1Q.RowRoundTrip | MM1Q.py:86-96 | a row reads back as the customer written, exactly when the customer is consistent |
| MM1Q.CsvRows | MM1Q.py:85-96 | the header, then one row per customer in order, numbered from 1 |
| MM1Q.QSim | MM1Q.py:19-99 | fails with ZeroDivisionError iff simulation_time <= 0 (the source prompts for a value of 0 instead); otherwise simulates, summarises with the last arrival as t, and builds the rows |

## Left out

- The turtle graphics: positions, colours, `move`, `balk`'s movements, canvas setup and `speed`. They do not affect the simulated data. The `random()` calls in `endservice` and `balk` only jitter positions.
- `printprogress`, the `sys.stdout` output of `printsummary`, and the `print` output of `QSim`. The printed values are modelled; formatting and writing are not.
- `plot`, `plotwithnobalkers`, `plotwithbalkers` and the matplotlib calls: plotting only.
- The command line (`argparse`), `QSim`'s `input` prompts for missing parameters and for CSV output, and the CSV file itself. `CsvRows` builds the rows; opening and writing the file is I/O.
- turtletest.py is not part of this model; it only exercises the graphics.
- Random sampling: `expovariate` and `random()` are replaced by given samples. Their distribution is not modelled.
- Floating point rounding: numbers are exact reals, so `(1 - rho)**2` and dividing twice by `1 - rho` agree.
- Python 2's unordered dictionaries: the ticks are read in increasing order. Every mean and sum computed from them is independent of order, and the plots that pair the lists are not modelled.
- Naor.NaorThreshold: requires 0 < mu, 0 <= lambda, lambda != mu and a non-negative mu*c. With mu = 0 line 137 divides by zero, and with rho = 1 lines 139-140 do. With a negative mu*c the loop never ends. The proof that it ends uses rho >= 0, hence 0 <= lambda.
- Simulation.Sim.constructor: requires the same as Naor.NaorThreshold, because `__init__` always calls it.
- Simulation.Sim.Run: `draws` is a total function. A run that needs more random numbers always gets them.
- MM1Q.Simulate: requires enough samples for the clock to reach simulation_time (`Enough`), in place of an unbounded random stream.
- Queueing.Server.constructor: sets the next service date to 0. The source leaves it unset; it is read only while the server holds a player, so the value is never used.
- Players.Joins: the selfish rule needs mu != 0, as the source divides by mu. The simulation requires mu > 0.
- MM1Q.QSim: a simulation_time of 0 is treated like a negative one. The source reads 0 as missing and prompts for it, which is input and is left out.

## Findings

| source | as written | input that shows it | evidently intended | confidence | as-written member | corrected member |
|---|---|---|---|---|---|---|
| graphicalMM1.py:649 | when no optimal player balked or completed, `self.meanselfishcost = False` overwrites the selfish mean cost, and the undivided optimal total stays in `meanoptimalcost` | costofbalking [1, c] makes every player selfish, so no optimal player is ever counted and the selfish mean cost always prints as False; with one selfish balker and c = 2 it should be 2 | `self.meanoptimalcost = False`, mirroring lines 642-645 | high, not executed | Summary.CostsAsWritten | Summary.CostsCorrected |
