# Traffic-light intersection simulator, modelled in Dafny

This project models the discrete-event engine of a simulator for one
signalised intersection. The intersection has eight movements: north,
east, south and west, each going straight (`S`) or turning left (`L`).
Each movement has a FIFO queue of vehicle arrival times. The engine
keeps three streams of pending events: departures, arrivals and light
changes. Each step takes the earliest event from these streams. Light
`5` is orange, and the greens are `1` to `4`. A light policy maps each
light to the movements it opens.

The model follows the source's structure:

- `wrappers.dfy`: `Option`, `Result` and the error values that stand for
  the exceptions the source raises (`ValueError`, `KeyError`,
  `IndexError`, `ZeroDivisionError`, and the `AttributeError` raised when
  no event is pending).
- `movements.dfy`: the eight movements and their names.
- `states.dfy`: `SimulationStates` (the queues, the light, the clock and
  the time the last orange began).
- `settlement.dfy`: `get_wait_time_per_road`, which charges the vehicles
  still queued when the horizon is reached.
- `calendar.dfy`: `ScheduledEvents` (the three streams, the stable sort
  behind scheduling, and the next-event selection with its tie-break).
- `simulation.dfy`: the configuration `main` receives, the arrival
  process with its rush-hour multiplier, and `init_simulation`.
- `dispatch.dfy`: one pass of `main`'s event loop. This covers arrivals,
  departures (green service, the orange test, and smart preemption) and
  light changes (fixed and smart timing).
- `properties.dfy`: what one processed event guarantees. The calendar
  keeps its shape, vehicles are conserved, the per-road metrics add up,
  the clock moves to the event's time, and the clock can move backwards.
- `lights.dfy`: the light cycle, green durations, the orange test and the
  rush-hour effect.
- `run.dfy`: the loop as a run over a finite sequence of draws, the final
  settlement, and the averages `main` returns.
- `progress.dfy`: when the loop cannot raise. The greens must open
  movements. Orange must open movements or only names that are neither
  movements nor roads, as the program's own `['']` does. There must be a
  light time per green, a non-zero orange time and rush windows of at most
  four hours. The program's own configuration meets all of this.

Random samples are inputs. Each step receives a `Draws` value: Beta
samples, exponential samples and one uniform sample. Times are `real`.
The `policies` global that the smart branches read is modelled as the
`light_policy` parameter.

Two behaviours of the program are modelled as it has them. The final mean
divides by zero when no vehicle was charged, which is the `DivisionByZero`
outcome of `Runs.Average`. A vehicle that passes straight through on green
is not counted in `total_cars`.

## Model

| member | source | states |
|---|---|---|
| Movements.Parse | engine.py:70-88 | A string is accepted exactly when it is the name of one of the eight movements, and it then denotes that movement. |
| Movements.AllIsComplete | engine.py:125 | The list of road names the settlement sweeps contains every movement, each once. |
| States.Enqueue | engine.py:52-68 | A known movement's queue gets the arrival time at its newest end. The other seven queues, the light, the clock and the orange start are unchanged, and one more vehicle is queued. An unknown name changes nothing. |
| States.Departure | engine.py:24-50 | A non-empty queue hands out its oldest arrival time and loses exactly that vehicle; nothing else changes. An empty queue returns nothing and changes nothing. An unknown name is an error. |
| States.FifoOrder | engine.py:24-68 | Popping every vehicle after pushing `ts` yields the vehicles already queued, oldest first, followed by `ts` in push order. |
| States.Fifo | engine.py:24-68 | At the engine's interface, departures after enqueueing `ts` on a movement return the earlier vehicles and then exactly `ts`. |
| States.QueuedCounts | engine.py:115-122 | The number of queued vehicles is the sum of the queue lengths taken in sweep order. |
| States.GetRoadState | engine.py:70-88 | A known movement yields its queue; an unknown name is an error. |
| States.ChangeLights | engine.py:90-93 | The light becomes `v`. The orange start becomes the clock iff `v` is 5, and is otherwise unchanged. Queues and clock are untouched. |
| States.AdvanceClock | engine.py:98-99 | Only the clock changes. |
| States.AllRoadsEmpty | engine.py:107-113 | True iff every queue is empty, iff no vehicle is queued. |
| States.GetTotalCars | engine.py:115-122 | The sweep's total equals the number of queued vehicles. It is zero iff every queue is empty. |
| Settlement.WaitClosedForm | engine.py:129-142 | The wait charged to a queue is its length times the clock minus the sum of its arrival times. |
| Settlement.DrainRoad | engine.py:130-138 | Departing until nothing is returned empties exactly that movement's queue. It charges each vehicle the clock minus its arrival and counts them. |
| Settlement.GetWaitTimePerRoad | engine.py:124-144 | Afterwards every queue is empty, with light and clocks unchanged. The count equals the prior number queued and the time equals the sum of clock minus arrival over them. Each road's entries grow by that road's share. |
| Calendar.SortByTime | engine.py:192-198 | The result is sorted by time and is a permutation of its input. The sort is stable: entries due at the same time keep their relative order. |
| Calendar.InsertOfTime | engine.py:178-198 | Inserting an entry into a stream leaves the order of the entries due at any time unchanged; an entry due at that time goes before them. |
| Calendar.SortOfSorted | engine.py:192-198 | Sorting an already sorted stream leaves it as it is. |
| Calendar.Schedule | engine.py:178-186 | After `appendleft` and sort, the stream is sorted and holds the old entries plus the new one. |
| Calendar.ScheduleIntoSorted | engine.py:178-198 | On a sorted stream the new entry goes after every strictly earlier entry and before the equal-time older ones, which keep their order. |
| Calendar.ScheduleArrival | engine.py:178-181 | Only the arrival stream changes, by scheduling the entry. |
| Calendar.ScheduleDeparture | engine.py:183-186 | Only the departure stream changes, by scheduling the entry. |
| Calendar.SortArrivals | engine.py:192-194 | The arrival stream becomes a sorted permutation of itself, with equal-time entries in their old order; a sorted stream is unchanged. |
| Calendar.SortDepartures | engine.py:196-198 | The departure stream becomes a sorted permutation of itself, with equal-time entries in their old order; a sorted stream is unchanged. |
| Calendar.ScheduleLightChange | engine.py:188-190 | The change is prepended without sorting, and the other streams are unchanged. |
| Calendar.ClearLightChange | engine.py:200-201 | The light-change stream becomes empty, and the other streams are unchanged. |
| Calendar.NextEvent | engine.py:156-176 | There is no event iff all streams are empty. Otherwise the chosen event is due no later than every head. A later stream wins only with a strictly earlier time, so ties go to departures, then arrivals, then light changes. Exactly that head is removed. |
| Simulation.PolicyOf | main.py:64 | The roads a light opens; a light missing from the policy is an error. |
| Simulation.ScaleOf | main.py:96 | The scale of a named road, taken from the first entry with that name, or nothing when no road has that name. |
| Simulation.PyIndex | main.py:246 | Python list indexing: indices from minus the length up to the length minus one are accepted, and negative ones count from the end. |
| Simulation.Multiplier | main.py:98 | The rush multiplier is at most 2 and equals 2 exactly at the window midpoint. |
| Simulation.ActiveMultiplier | main.py:97-106 | Outside both windows the rate is unmodified (1). Inside a window it is `2 - abs(clock - midpoint) / 7200` for that window, and the first window wins where both contain the clock. |
| Simulation.ArrivalGap | main.py:96-106 | The gap is at most 1. Off-peak it is `min(-0.5 + scale * beta, 1)`. Inside a window it is `min(-0.5 + scale / multiplier * beta, 1)`, and a zero multiplier there is a division error. |
| Simulation.NextArrival | main.py:96-108 | The next arrival is the clock plus the gap, so never more than 1 after the clock. A road missing from the road table is an error. |
| Simulation.FirstArrivals | main.py:7-10 | Each road's first arrival is at `-0.5 + scale * beta`. |
| Simulation.Kickoffs | main.py:248-251 | One departure per opened road at the base time plus its exponential draw. |
| Simulation.FirstArrivalsInWindow | main.py:7-10 | With Beta draws in [0, 1] and non-negative scales, each road's first arrival lies between -0.5 and -0.5 plus its scale. |
| Simulation.KickoffsNotBefore | main.py:12-15 | With non-negative exponential draws no kickoff departure is due before its base time. |
| Simulation.ScheduleArrivals | main.py:7-10 | Scheduling arrivals one by one adds exactly them and leaves the stream sorted. |
| Simulation.ScheduleDepartures | main.py:248-251 | Scheduling departures one by one adds exactly them and leaves the stream sorted. |
| Simulation.Init | main.py:6-24 | Success iff the starting light indexes the light times and is in the policy. The calendar is then ordered, holds the first arrivals and one kickoff per opened road, and has a single orange at time 20 whatever the light times. |
| Dispatch.PassTest | main.py:79 | A vehicle passes through iff its road is open, known and empty. An open unknown road is an error. |
| Dispatch.OnArrival | main.py:71-111 | Success iff the road is not an open unknown name and its next arrival is defined. The metrics are untouched. A vehicle on an open, empty road passes through; otherwise it is enqueued at the event time. The road's next arrival is scheduled into the arrival stream only. |
| Dispatch.AnyEmpty | main.py:133-136 | True iff some named road's queue is empty. An unknown name is an error. |
| Dispatch.Preempt | main.py:132-139 | When some open road is empty, all pending light changes are replaced by one orange at the clock; otherwise the calendar is unchanged. |
| Dispatch.Charge | main.py:143-147 | The wait is added to the total and to that road. The total count and the road's count grow by 1, and other roads are unchanged. |
| Dispatch.Serve | main.py:124-152 | The oldest vehicle leaves and is charged clock minus arrival. The road's next departure is scheduled one exponential draw later. In smart mode the preemption runs first. |
| Dispatch.OnOrange | main.py:155-183 | A zero orange time is a division error. A vehicle passes iff the uniform draw exceeds the elapsed fraction of the orange, and it is then served. Otherwise nothing but the clock changes. |
| Dispatch.OnDeparture | main.py:114-183 | An unknown road is an error. A queued vehicle on an open road is served. On orange the orange test decides. An empty or closed road changes only the clock and schedules nothing. |
| Dispatch.NextGreen | main.py:199-204 | From a green `p`, the orange leads to `p % 4 + 1`. From lights 4 to 7 it leads to 1, and from any other light `q` to `q + 1`. |
| Dispatch.ParseAll | main.py:217-218 | A policy entry resolves iff every name in it is a movement, name for name. |
| Dispatch.OpenLoad | main.py:214-218 | The open load is the number of vehicles queued on the policy's roads. |
| Dispatch.SmartOrange | main.py:208-239 | Success iff the light has a policy entry naming only movements and the entry is empty or vehicles are queued. Smart timing prepends one orange. For a non-empty road list it needs vehicles queued, and the orange is due at the clock plus the cycle times the open share of queued vehicles. |
| Dispatch.FixedOrange | main.py:246 | Fixed timing succeeds iff the light indexes the light times, and schedules the orange that long after the clock. |
| Dispatch.OnLightChange | main.py:186-251 | The light and orange start change as `change_lights` says, and metrics and arrivals are untouched. Orange schedules the next green one orange time later. A green schedules the next orange plus one kickoff per opened road, keeping departures sorted. In smart timing a green succeeds iff the smart timing does and the light has a policy entry, and its orange is the one the smart timing computes. |
| Dispatch.Sample | main.py:257 | Exactly one sample, the number queued, is appended. |
| Dispatch.Step | main.py:59-257 | With no pending event, or a light missing from the policy, the step is an error. When it can succeed is stated by `Progress.StepProgress`. |
| Dispatch.Handle | main.py:71-251 | Every handler leaves the clock at the event's time and the sample series unchanged. |
| Properties.InitCalendarInvariant | main.py:6-24 | The initial calendar has one pending light change and ordered streams. |
| Properties.TakeKeepsOrder | engine.py:156-176 | Taking the next event keeps the streams ordered and removes a light change only when it is the event. |
| Properties.DepartureKeepsCalendarInvariant | main.py:114-183 | A departure keeps the streams ordered and the single pending light change. |
| Properties.StepKeepsCalendarInvariant | main.py:59-257 | Every processed event keeps exactly one pending light change and ordered streams. |
| Properties.ServeConserves | main.py:129-145 | Serving removes one queued vehicle and adds one to the dispatched count. |
| Properties.DepartureConserves | main.py:114-183 | A departure keeps queued plus dispatched constant. |
| Properties.ArrivalConserves | main.py:79-90 | An arrival adds one to queued plus dispatched iff its vehicle joins a queue. |
| Properties.LightChangeConserves | main.py:186-251 | A light change keeps queued plus dispatched constant. |
| Properties.StepConserves | main.py:59-257 | A processed event adds one to queued plus dispatched exactly when an arriving vehicle joins a queue. Pass-through vehicles are in neither count. |
| Properties.StepClockAndSample | main.py:59-257 | A processed event sets the clock to the event's time and appends one sample, the number then queued. |
| Properties.StepMonotoneWhenAhead | main.py:66-68 | When no pending event lies before the clock, the clock does not decrease. |
| Properties.ArrivalStep | main.py:96-111 | An arrival schedules the road's next arrival into the arrival stream it left. |
| Properties.ArrivalCanRewindClock | main.py:66-106 | Off-peak, a draw with `scale * beta < 0.5` schedules an arrival before the clock, and the next event moves the clock backwards. The loop's assertion compares the clock with itself, so it does not catch this. |
| Properties.InitConsistent | main.py:30-35 | The initial per-road totals add up to the aggregate totals. |
| Properties.ChargeConsistent | main.py:143-147 | Charging a vehicle keeps the per-road totals summing to the aggregate totals. |
| Properties.DepartureCharges | main.py:114-183 | A departure either leaves the metrics alone or charges the oldest vehicle its wait. |
| Properties.ServeBranchCharges | main.py:124-152 | A departure from a queued open road charges the oldest vehicle the time it waited. |
| Properties.OrangeBranchCharges | main.py:155-179 | A departure from a closed road during an orange either leaves the metrics alone or charges the oldest vehicle its wait. |
| Properties.DepartureConsistent | main.py:114-183 | A departure keeps the per-road totals summing to the aggregate totals. |
| Properties.StepConsistent | main.py:59-257 | Every processed event keeps the per-road totals summing to the aggregate totals. |
| Lights.GreensCycle | main.py:199-204 | Greens follow each other 1, 2, 3, 4, 1: four oranges from a green lead back to it, through three different greens. |
| Lights.OrangeSchedulesNextGreen | main.py:195-204 | Orange from green `p` records the clock as the orange start. It schedules green `p % 4 + 1` one orange time later. |
| Lights.FixedGreenDuration | main.py:241-246 | In fixed mode, green `p` schedules orange `light_times[p - 1]` after it begins, and keeps the orange start. |
| Lights.CountDistinctBound | main.py:217-218 | Vehicles queued on distinct movements never exceed all vehicles queued. |
| Lights.SmartGreenDuration | main.py:213-239 | For a non-empty list of distinct roads and non-negative light times, the smart delay is between 0 and the whole cycle. |
| Lights.SmartGreenFailsWhenIdle | main.py:232-235 | A smart green opening known roads while every queue is empty divides by zero. |
| Lights.SmartEmptyPolicy | main.py:213-230 | The "empty" branch is reached only with an empty road list, because it tests names and not queues. It schedules orange now, or 10 later when every queue is empty. |
| Lights.OrangeWindow | main.py:158-163 | Passing on orange gets no likelier as the orange ages. Once the orange time is over no draw below 1 passes, and at its start every positive draw passes. |
| Lights.PreemptLeavesOneOrange | main.py:137-139 | Preemption leaves exactly one pending light change, an orange at the clock. |
| Lights.RushShortensGap | main.py:97-106 | Inside the window in force (either one, the first winning where they overlap), if it lasts at most four hours the multiplier is at least 1, so the gap is never longer than off-peak. |
| Lights.RushMultiplierAtLeastOne | main.py:97-98 | Inside the window in force (either one, the first winning where they overlap), if it lasts at most four hours the multiplier is at least 1. |
| Lights.ScaledGapAtMostOffPeak | main.py:99-106 | Dividing the scale by a multiplier of at least 1 succeeds and never gives a longer gap than off-peak. |
| Runs.Run | main.py:59-257 | A run appends one sample per processed event and keeps earlier samples. It stops before using all draws only by reaching the horizon, and it does nothing once the horizon is reached. |
| Runs.RunKeepsInvariants | main.py:59-257 | A run keeps the calendar invariant and the per-road totals consistent, and queued plus dispatched never decreases. |
| Runs.MainKeepsInvariants | main.py:45-257 | Every run started by `main` satisfies both invariants. |
| Runs.Averages | main.py:267-271 | The averages are absent iff some road has no vehicles; otherwise each average times that road's count gives its wait. |
| Runs.Average | main.py:263-273 | With no vehicle charged the final division fails. Otherwise the mean times all charged vehicles, leftover ones included, is the total wait, and each road's average follows the same rule over its own vehicles. |
| Runs.Finish | main.py:259-273 | Settling and averaging after the loop fails iff no vehicle was charged, and otherwise produces the settled outcome. |
| Runs.Simulate | main.py:27-273 | `main` fails as initialisation or the run fails. When draws run out before the horizon it reports that. Otherwise it settles, failing only when no vehicle was charged at all. |
| Progress.GapDefined | main.py:96-106 | With rush windows of at most four hours the gap to a road's next arrival always exists. |
| Progress.StepProgress | main.py:59-257 | Under a configuration as described above, including the program's own, a ready state with a pending event processes it without error, unless it is a smart green that opens some road while no vehicle is queued. |
| Progress.TakeReady | engine.py:156-176 | Taking the next event of a ready state yields an arrival on a road of the table, a departure of a movement or a change to lights 1 to 5, and leaves the rest of the calendar ready. |
| Progress.HandleProgress | main.py:71-251 | An event is handled without error when it has what its handler needs: bounded rush windows for an arrival, a non-zero orange time for a departure during orange, a road list whose names are all movements or none is a movement or road, and for a green a policy entry of movements plus a light time (fixed) or, in smart timing, a queued vehicle when the entry opens some road. |
| Progress.ArrivalProgress | main.py:71-111 | An arrival on a road of the table is processed without error when the rush windows are bounded, including under orange's `['']`. |
| Progress.DepartureProgress | main.py:114-183 | A departure naming a movement is processed without error, smart preemption included, when the orange time is non-zero during orange; this includes orange's `['']`. |
| Progress.LightChangeProgress | main.py:186-251 | A change to orange always succeeds. A change to a green succeeds when its entry names movements and it has a light time (fixed) or, in smart timing, it opens no road or some vehicle is queued. |
| Progress.HandleKeepsReady | main.py:71-251 | Handling a ready event keeps the state ready, given that a green it switches to opens movements. |
| Progress.ArrivalKeepsReady | main.py:96-111 | An arrival keeps the arrival stream naming only roads of the table. |
| Progress.ServeKeepsReady | main.py:124-152 | Serving a vehicle keeps the state ready. |
| Progress.ServeLightChanges | main.py:132-139 | Serving a vehicle leaves the pending light changes as they were or replaces them by a single orange at the clock. |
| Progress.OrangeKeepsReady | main.py:155-179 | The orange test keeps the state ready whether the vehicle passes or not. |
| Progress.StepKeepsReady | main.py:59-257 | When the greens open movements, a processed event keeps the light a green or orange, departures naming movements, arrivals naming roads of the table and light changes targeting lights 1 to 5. |
| Progress.DepartureKeepsReady | main.py:114-183 | A departure keeps the state ready. |
| Progress.LightChangeKeepsReady | main.py:186-251 | A light change to orange, or to a green whose entry names movements, keeps the state ready. |
| Progress.InitReady | main.py:6-24 | A successful `init_simulation` starting on a light from 1 to 5 whose entry names movements gives a ready state. |
| Progress.ArrivalsNameRoads | main.py:7-10 | Every first arrival names a road of the road table. |
| Progress.KickoffsNameMovements | main.py:12-15 | Every kickoff of a policy entry naming movements names a movement. |
| Progress.RunProgress | main.py:59-257 | A fixed-timing run from a ready state with an ordered calendar never raises under a configuration as described above. |
| Progress.MainProgress | main.py:27-257 | `main` with a fixed-timing configuration as described above, starting on a green, initialises and runs without raising. |
| Progress.IdleSmartGreenFails | main.py:226-235 | That exception is exact: a smart green whose entry opens some road, beginning while no vehicle is queued, fails with a division by zero. |
| Progress.WellFormedCanHandle | main.py:59-257 | Under a configuration as described above, a state on a green or orange has what any ready event needs, except a smart green that opens some road while no vehicle is queued. |
| Progress.OpenUsableAt | main.py:64 | Under a configuration as described above, the road list of every green and of orange is usable. |
| Progress.ProgramConfigWellFormed | main.py:293-301 | The configuration of the program's entry point meets the conditions above for any four or more light times, although its orange entry `['']` names no movement. |
| Progress.ProgramGreens | main.py:296 | Every green of the program's policy opens movements. |
| Progress.ProgramOrange | main.py:293-296 | The program's orange entry names neither a movement nor a road of its table, and does not resolve to movements. |
| Progress.ProgramMainProgress | main.py:276-304 | A fixed-timing `main` on the program's own configuration initialises and runs without raising. |

## Left out

- `archive.py`, the gradient-descent optimiser, is not part of this
  model. It is black-box floating-point optimisation around `main`.
- The printing and averaging of `test_light_schedule` and the `__main__`
  block are not modelled; they are a batch driver with hard-coded settings.
  Their configuration is `Progress.ProgramConfig`. Its light times are any
  sequence of reals. The driver passes a list whose last element is the
  `smart` flag, which `sum(light_times)` counts as 0 or 1.
- All `verbose` printing is not modelled.
- Sampling is not modelled: `np.random.beta`, `exponential`, `uniform`
  and `draw_exponential` are replaced by the `Draws` inputs. The Beta
  shape parameters and the two flow rates therefore do not appear.
- Floating-point rounding is not modelled; times are exact reals.
- The clock-monotonicity assertion inside the loop compares the clock
  with itself and can never fail, so it is left out.
  `Properties.ArrivalCanRewindClock` shows the clock can still move
  backwards.
- Runs.Run: the loop is bounded by the number of draws supplied, not run
  until the horizon unconditionally. Its termination depends on the
  random draws. A run that exhausts its draws before the horizon is
  reported as `DrawsExhausted`, an outcome the source does not have.
- Lights.SmartGreenDuration: the delay bound assumes the policy entry
  names distinct roads and the light times are non-negative. A repeated
  road counts twice in the open load, and the source does not prevent it.
- The smart branches of the source read a module-level `policies` instead
  of the `light_policy` parameter; the model reads the parameter.
- The default arguments of `main` (`flow_cars=2`, `flow_first_car=8`,
  `orange_time=1`, `starting_policy=1`, `light_times=[40, 30, 20, 60]`,
  `verbose=1`, `smart=False`) are not modelled: every `Config` field is
  given explicitly.
- The road table is a sequence, so it can hold one name twice, which a
  Python dict cannot. `Simulation.ScaleOf` takes the first entry, and
  `Simulation.FirstArrivals` schedules one arrival per entry.
- Progress.StepProgress: in smart mode it does not promise success when a
  green that opens some road begins with no vehicle queued, because the
  source divides by zero there (`Progress.IdleSmartGreenFails`). A green
  with an empty entry schedules its orange ten seconds later instead. `Progress.RunProgress` and `Progress.MainProgress` therefore cover
  fixed timing only.
