# Verified model of three simulation exercises

This project models, in Dafny, the sequential core of three Python exercises.

- **The M/M/1 queue of exam/answer9.py** (module `MM1`, file `mm1_queue.dfy`). This is a single-server discrete-event simulation.
  - The class `MM1Queue` keeps the clock, the busy flag, the queue length, the served count, a ledger of `Customer` records and three history lists.
  - `run_simulation` compares the next arrival instant with the end of the current service and processes the earlier event.
  - Ties go to the departure, because the comparison is a strict `<`.
  - An arrival appends a customer, which is either served at once or queued.
  - A departure counts a served customer and starts serving the next ledger entry, if one is waiting.
  - After every event, one sample is appended to each history.
  - `calculate_statistics` writes every customer's waiting time and divides the totals by the ledger size and by the clock.
  - The ledger-size division is Python's and raises on an empty ledger. The clock is a numpy float, so dividing by a zero clock gives an infinity or not-a-number instead of raising.
- **The linear congruential generator of exam/answer10.py** (module `Lcg`, file `lcg.dfy`).
  - `generate(count)` appends `max(count - 1, 0)` values of `(a * x + c) % m` to a list that starts with the seed.
  - The statistics take the minimum and maximum of that list.
- **The additive congruential generator of exam/answer3.py and the exact part of its serial-pair test** (module `Additive`, file `additive.dfy`).
  - `additive_congruential` returns the values `(r0 + k * b) % m` for k = 1..count.
  - The test rejects a lag that is not below the sequence length.
  - It pairs each value with the one `lag` places later and counts the pairs in a dictionary.
  - The expected frequency divides by the squared number of distinct values, so an empty sequence, which passes the guard with a negative lag, raises ZeroDivisionError.
  - Its degrees of freedom are one less than the number of distinct pairs.
- **Python built-ins** (module `PySemantics`, file `py_semantics.dfy`). These are the Python semantics the three exercises rely on:
  - `%`, whose result takes the sign of the divisor;
  - slicing with negative or clamped bounds;
  - `zip`;
  - exceptions, modelled as a `Result` value.

The model keeps the behaviour of the code as written:

- On equal instants the departure is processed (`MM1.ArrivalFirst`).
- No parameter is validated. A non-positive `max_customers` runs no event, and the statistics then raise ZeroDivisionError on the empty ledger (`MM1.SimulateOutcome`).
- With both means 0.0 every instant is 0.0, and the time averages come out as not-a-number (`MM1.ZeroMeansGiveNotANumber`).
- Customers still queued when the loop stops keep a start instant of 0.0. Their waiting time is therefore minus their arrival instant, so the total is no higher than the non-negative total of the customers whose service began, the one in service included, and lower when a queued customer arrived after 0.0 (`MM1.WaitingTotalDecomposition`).
- In `chi_square_autocorrelation_test`, `sequence[:-0]` is empty. A lag of 0 passes the guard but yields no pairs, hence no counts and a df of -1 (`Additive.LagZeroHasNoPairs`).
- A negative lag passes the guard and pairs a prefix with a suffix (`Additive.LaggedPairs`).
- A zero modulus raises ZeroDivisionError as soon as a value is computed, and not before.

## Model

| member | source | states |
|---|---|---|
| PySemantics.Mod | exam/answer10.py:15 | Python's `%`: for a positive divisor the result lies in [0, m), for a negative one in (m, 0] |
| PySemantics.FloorDivMod | exam/answer10.py:15 | Python's division identity: x is m times `x // m` plus `x % m` |
| PySemantics.ModAddLeft | exam/answer3.py:10 | reducing the running value before adding b gives the same remainder as adding first, so the loop's running reduction equals the closed form |
| PySemantics.TakeDrop | exam/answer3.py:41 | for every bound k, however far out of range, `s[:k] + s[k:] == s` |
| PySemantics.Zip | exam/answer3.py:41 | `zip` pairs element i of both lists, up to the shorter length |
| Lcg.Orbit | exam/answer10.py:14-16 | the n values generated from x: the first is the successor of x, each later one the successor of the one before, all in [0, m) for m > 0 and in (m, 0] for m < 0 |
| Lcg.OrbitSnoc | exam/answer10.py:14-16 | producing one more value appends the successor of the last value so far |
| Lcg.OrbitConcat | exam/answer10.py:13-17 | producing n1 values and then n2 more from the last one is producing n1 + n2 values in one go |
| Lcg.Min | exam/answer10.py:48 | `np.min` is an element of the list and at most every element |
| Lcg.Max | exam/answer10.py:49 | `np.max` is an element of the list and at least every element |
| Lcg.LinearCongruentialGenerator.constructor | exam/answer10.py:5-11 | the seed is stored unreduced as the current value and as the only list entry; the list is a chain from the seed and `current` is its last entry |
| Lcg.LinearCongruentialGenerator.Generate | exam/answer10.py:13-17 | appends exactly `max(count - 1, 0)` values continuing from `current` and returns the whole list; each value follows from its predecessor and `current` stays the last one; a zero modulus raises ZeroDivisionError exactly when count >= 2, and then nothing changes |
| Lcg.LinearCongruentialGenerator.Extremes | exam/answer10.py:48-49 | the minimum and maximum are both in the list, and every generated value lies between them |
| Lcg.GenerateTwice | exam/answer10.py:13-17 | two `generate` calls on a fresh generator give the list that one call for the combined number of values gives: the second continues the stream and does not restart it |
| Additive.AdditiveSequence | exam/answer3.py:4-16 | the result raises exactly when count > 0 and m == 0; otherwise it has `max(count, 0)` values, each in [0, m) for m > 0 and in (m, 0] for m < 0 |
| Additive.TermStep | exam/answer3.py:8-11 | the first value is (r0 + b) % m, and every later value is its predecessor plus b, reduced |
| Additive.AdditiveRecurrence | exam/answer3.py:8-11 | the closed form `(r0 + (i + 1) * b) % m` satisfies the loop's recurrence `s[i + 1] == (s[i] + b) % m`, starting from `(r0 + b) % m`, so r0 is not included |
| Additive.AdditiveCongruential | exam/answer3.py:4-16 | the loop returns the closed-form sequence, and it raises ZeroDivisionError on a zero modulus when count > 0 |
| Additive.LaggedPairs | exam/answer3.py:41 | pair i is (s[i], s[i + n - #pairs]); there are n - lag pairs for 0 < lag < n, none for lag 0 or lag >= n, and min(-lag, n) for a negative lag |
| Additive.LaggedPairsShape | exam/answer3.py:41 | for 1 <= lag < n there are n - lag pairs, and pair i is (s[i], s[i + lag]) |
| Additive.LagZeroHasNoPairs | exam/answer3.py:38-41 | lag 0 passes the guard but gives an empty pair list |
| Additive.Occurrences | exam/answer3.py:44-45 | a pair's count is positive exactly when the pair occurs in the list, and it is at most the list length |
| Additive.SumValuesIncrement | exam/answer3.py:45 | `get(pair, 0) + 1` raises the sum of the counts by exactly one, for a present key and for a new one |
| Additive.SumValuesRaise | exam/answer3.py:45 | raising a present key's count by one raises the sum of the counts by one |
| Additive.SumValuesInsert | exam/answer3.py:45 | a new key with count 1 raises the sum of the counts by one |
| Additive.TallyKeys | exam/answer3.py:44-45 | after tallying pair i, the keys are exactly the pairs among the first i + 1 |
| Additive.TallyOccurrences | exam/answer3.py:44-45 | after tallying pair i, each key's count is its number of occurrences among the first i + 1 pairs |
| Additive.TallyStep | exam/answer3.py:44-45 | one loop iteration extends the counts of the first i pairs to the counts of the first i + 1 |
| Additive.CountPairs | exam/answer3.py:43-45 | the keys are exactly the pairs that occur; each count is the pair's number of occurrences and is at least 1; the counts sum to the number of pairs |
| Additive.AutocorrelationCounts | exam/answer3.py:36-53 | raises ValueError exactly when lag >= n, and otherwise ZeroDivisionError exactly when the sequence is empty; otherwise it returns the lagged pairs and their exact counts, summing to the number of pairs, and df is the number of distinct pairs minus one |
| MM1.ArriveFacts | exam/answer9.py:47-60 | an arrival appends one customer, arriving now, and changes no other entry; the new customer begins service, with the next draw as service time, exactly when the server was idle; the queue stays non-negative and empty when idle, ledger = served + queued + in service, service stays first come first served, and the pending departure is Inf exactly when idle |
| MM1.DepartFacts | exam/answer9.py:62-75 | a departure counts one more customer served; with a non-empty queue it starts `customers[total_customers_served]`, the earliest entry not yet begun, at the present instant with the next draw; it changes no other entry, keeps the counting and FIFO invariants, and leaves the pending departure Inf exactly when the server idles |
| MM1.EventFacts | exam/answer9.py:45-75 | an idle server always takes the arrival; the served count rises by one exactly when a departure is pending no later than the next arrival, so ties go to the departure; either event keeps the counting, FIFO and pending-departure invariants, and begins service for at most the earliest waiting entry, at the present instant |
| MM1.RecordFacts | exam/answer9.py:77-79 | once the event is processed, appending the present state restores one sample per event: the three lists have equal length, every status is 0 or 1, and every status 0 is paired with queue length 0 |
| MM1.Iterate | exam/answer9.py:45-79 | one iteration keeps the loop invariant and appends exactly one sample of the new state to each of the three histories |
| MM1.InitialIsValid | exam/answer9.py:24-33 | the state `__init__` leaves meets the loop invariant and the time facts |
| MM1.StartIsValid | exam/answer9.py:41-43 | the state before the loop, with no departure pending, meets the loop invariant, and meets the time facts once the first arrival is not before 0 |
| MM1.ArriveKeepsTimeOrder | exam/answer9.py:47-60 | with non-negative draws an arrival does not move the clock back, keeps arrivals and service starts in ledger order and not after the clock, and keeps the recorded instants in order |
| MM1.DepartKeepsTimeOrder | exam/answer9.py:62-75 | with non-negative draws a departure runs only when the server is busy, does not move the clock back, and keeps the time facts |
| MM1.IterateKeepsTimeOrder | exam/answer9.py:45-79 | with non-negative draws an iteration never moves the clock backwards and keeps the time facts, including the recorded instants never decreasing |
| MM1.DrawsNonNegative | exam/answer9.py:35-39 | non-negative draws give non-negative inter-arrival and service times |
| MM1.Start | exam/answer9.py:42-43 | the loop starts from the fresh state with the first arrival one inter-arrival draw after 0 and no departure pending; this meets the loop invariant, and the time facts for non-negative draws |
| MM1.RunKeepsInvariant | exam/answer9.py:45-79 | iterating until `max_customers` are served, or the fuel is spent, keeps the loop invariant |
| MM1.IterateCounts | exam/answer9.py:45-75 | an iteration serves at most one more customer and leaves the bound alone |
| MM1.RunBound | exam/answer9.py:45 | the loop never serves more than `max_customers`, and runs no iteration when they are already served |
| MM1.RunSamples | exam/answer9.py:45-79 | the loop adds at most one sample per unit of fuel, and stops before the fuel is spent only once `max_customers` are served |
| MM1.RunKeepsHistory | exam/answer9.py:77-79 | the three histories are append-only: the samples recorded before the loop are a prefix of those after it |
| MM1.RunKeepsTimeOrder | exam/answer9.py:45-79 | with non-negative draws the whole loop never moves the clock backwards and keeps the time facts |
| MM1.TieGoesToDeparture | exam/answer9.py:41-102 | with means 1.0, bound 1 and draws of 1.0, the run ends at 2.0 with one customer served, histories [0, 0], [1.0, 2.0] and [1, 0], and statistics (0.0, 0.0, 0.5, 2.0): the departure at 2.0 wins the tie with the arrival at 2.0 |
| MM1.RecordKeepsTimeOrder | exam/answer9.py:77-79 | recording the present instant keeps `time_history` non-decreasing |
| MM1.WaitingTimeSigns | exam/answer9.py:88-89 | whenever the loop invariant and the time facts hold, as in every state the loop reaches with non-negative draws, the written waiting time is non-negative for every customer whose service began, and minus the arrival instant for every customer still queued |
| MM1.BegunWaitNonNegative | exam/answer9.py:88-90 | customers that started no earlier than they arrived contribute a non-negative total waiting time |
| MM1.UntouchedWait | exam/answer9.py:88-90 | customers still queued, with start instant 0.0, contribute minus the sum of their arrival instants |
| MM1.WaitingTotalDecomposition | exam/answer9.py:84-91 | the total waiting time is the non-negative total of the customers that began service minus the arrival instants of those still queued, and it is non-negative when nobody is queued |
| MM1.FloatDivide | exam/answer9.py:94-95 | numpy float division: a non-zero divisor gives the number whose product with the divisor is the dividend; a zero divisor gives an infinity of the dividend's sign, or not-a-number exactly when the dividend is 0.0 too |
| MM1.ZeroMeansGiveNotANumber | exam/answer9.py:41-102 | with both means 0.0 and bound 1 the run ends at clock 0.0 with one customer served, and `run_simulation` returns mean delay 0.0, not-a-number for both time averages and time 0.0, rather than raising |
| MM1.WaitingTimesKeepTotals | exam/answer9.py:88-91 | writing the waiting times leaves the waiting and service totals unchanged |
| MM1.WaitingTimesKeepFacts | exam/answer9.py:88-95 | writing the waiting times leaves the totals, the statistics, the loop invariant and the time facts unchanged |
| MM1.MM1Queue.constructor | exam/answer9.py:20-33 | stores the parameters unvalidated and leaves an empty ledger and histories, the clock at 0.0, an idle server, no queue and nobody served; the invariant holds |
| MM1.MM1Queue.GenerateInterArrivalTime | exam/answer9.py:35-36 | returns the next draw scaled by the mean inter-arrival time, and consumes it |
| MM1.MM1Queue.GenerateServiceTime | exam/answer9.py:38-39 | returns the next draw scaled by the mean service time, and consumes it |
| MM1.MM1Queue.ProcessArrival | exam/answer9.py:47-60 | the in-place arrival branch produces exactly the state, pending instants and draw count of `MM1.Arrive` |
| MM1.MM1Queue.ProcessDeparture | exam/answer9.py:62-75 | the in-place departure branch produces exactly the state, pending instants and draw count of `MM1.Depart` |
| MM1.MM1Queue.RecordSample | exam/answer9.py:77-79 | appends the queue length, the clock and the busy flag as 1 or 0 to the three histories |
| MM1.MM1Queue.Step | exam/answer9.py:46-79 | one in-place iteration produces exactly `MM1.Iterate` of the previous state |
| MM1.MM1Queue.EventLoop | exam/answer9.py:45-79 | the in-place loop reaches exactly the state, pending instants and draw count of `MM1.Run` from the state it starts in |
| MM1.MM1Queue.RunEvents | exam/answer9.py:41-79 | from a fresh queue it reaches exactly the state of `MM1.Run` from `MM1.Start`; it finishes exactly when `max_customers` are served, an unfinished run has recorded one sample per unit of fuel, and a run that starts at or above the bound changes no state and consumes only the inter-arrival draw made before the loop; the invariant and time facts hold afterwards |
| MM1.MM1Queue.RunSimulation | exam/answer9.py:41-81 | the new fields, the number of draws consumed and the outcome are exactly those of `MM1.Simulate` from the old fields, so they are determined by the parameters and the draws; the invariant and time facts hold afterwards |
| MM1.SimulateOutcome | exam/answer9.py:41-81 | a run either spends the fuel with one sample per iteration and fewer than `max_customers` served, or serves exactly `max_customers`; a queue that had already served them runs no event, consumes only the inter-arrival draw made before the loop, keeps its clock and histories, writes the waiting times into its ledger and returns the statistics of that ledger and clock, which raise ZeroDivisionError when the ledger is empty |
| MM1.SimulateStatistics | exam/answer9.py:81-102 | a finished run returns the statistics of the ledger it leaves behind, in which every customer carries its waiting time |
| MM1.MM1Queue.WriteWaitingTimes | exam/answer9.py:88-91 | the loop writes every waiting time and returns the sums of waiting and service times over the whole ledger, in ledger order |
| MM1.MM1Queue.CalculateStatistics | exam/answer9.py:83-102 | writes the waiting times; raises ZeroDivisionError exactly when the ledger is empty; otherwise returns the total wait over the ledger size, the total wait and total service divided by the clock as numpy floats, which are infinities or not-a-number on a zero clock, and the clock; the invariant is kept |

## Left out

- The GUI (`QueueSimulationGUI`), plotting, the worker thread and the `main` functions of all three files are left out. They are UI, I/O and concurrency.
- `random.random()` and `np.log` are foreign floating-point calls. The stream of values `-log(random())` is a parameter `unitDraws` of the queue, required non-negative, and each draw is scaled by its mean. `random()` returning exactly 0.0, where the log is infinite, is not modelled.
- Floating-point numbers are modelled as exact reals, so rounding is not modelled.
- MM1.FloatDivide models the two numpy divisions by the clock, including the infinities and not-a-number of a zero clock. Signed zeros are not modelled, and neither is the arithmetic on an infinity or a not-a-number, since none of these results is used again.
- `float('inf')` is the `Inf` case of `MM1.Time`.
- The chi-square statistic, `chi_square_cdf`, the critical-value search and the p-value of exam/answer3.py are floating-point numerics and are left out. The same holds for the `mean` and `variance` of the LCG statistics and for the console output of `additive_congruential`.
- Additive.AutocorrelationCounts stops before the floating-point part of the test. That part can raise as well: when df == 0, for instance when every pair is equal, the critical-value search calls `chi_square_cdf(0, 0)`, whose `math.gamma(0.0)` raises ValueError. The model does not capture this.
- Lcg.LinearCongruentialGenerator.Generate returns the list by value. The source returns the generator's own list object, so a caller's list grows with later `generate` calls; the model does not capture that aliasing.
- The fields `total_waiting_time` and `total_service_time` that `MM1Queue.__init__` sets are never read by the source. They are not modelled; the totals of `calculate_statistics` are its locals.
- MM1.MM1Queue.RunSimulation takes a `fuel` bound on the loop iterations, because the loop need not terminate for every draw stream. When the bound runs out the model returns `FuelExhausted`, which the source has no counterpart for.
- MM1.MM1Queue.RunSimulation requires a queue that is fresh or has finished a run. These are the only states in which the source's caller can find the object, since a source run never stops early.
- MM1.MM1Queue.RunSimulation does not claim `server_utilization <= 1`. The customer in service may have a service time that ends after the final clock.
- `Customer` objects are modelled as values in the ledger. The source's local variable `customer` is the only other reference to a ledger entry, and it is written back in place.
- The pending instants `next_arrival_time` and `next_service_end_time` are locals of `run_simulation`. They are passed to and returned from `MM1Queue.Step` rather than stored as fields.
