/** The single-server (M/M/1) discrete-event simulation of exam/answer9.py.

    `run_simulation` repeatedly compares the next arrival instant with the
    end of the current service and processes the earlier event: an arrival
    adds a customer to the ledger and either starts serving it or lengthens
    the queue; a departure counts a served customer and starts serving the
    next ledger entry, if any is waiting. After every event one sample is
    appended to each of three histories. `calculate_statistics` then sums
    waiting and service times over the whole ledger.

    The random draws `-mean * log(random())` are abstracted as one stream
    `unitDraws` of values `-log(random())`, consumed in the order the source
    draws them and scaled by the relevant mean. */
module MM1 {
  import opened PySemantics

  /** An event instant; `Inf` is `float('inf')`, "no pending departure". */
  datatype Time = Finite(t: real) | Inf

  /** `next_arrival_time < next_service_end_time`: strict, so on equal
      instants the departure is processed first. */
  predicate ArrivalFirst(arrival: real, departure: Time)
  {
    departure.Inf? || arrival < departure.t
  }

  /** A customer record. The service fields stay 0.0 until service begins;
      `waitingTime` is only written by the statistics pass. */
  datatype Customer = Customer(
    arrivalTime: real,
    serviceStartTime: real,
    serviceEndTime: real,
    serviceTime: real,
    waitingTime: real)

  /** `Customer(arrival_time)`. */
  function NewCustomer(arrivalTime: real): Customer
  {
    Customer(arrivalTime, 0.0, 0.0, 0.0, 0.0)
  }

  /** The three service fields written when service begins at `now`. */
  function BeginService(c: Customer, now: real, serviceTime: real): Customer
  {
    c.(serviceTime := serviceTime, serviceStartTime := now, serviceEndTime := now + serviceTime)
  }

  /** A customer whose service has begun: it ends service_time after it starts. */
  predicate HasBegun(c: Customer)
  {
    c.serviceEndTime == c.serviceStartTime + c.serviceTime
  }

  /** A customer still waiting: its service fields are as created. */
  predicate Untouched(c: Customer)
  {
    c.serviceStartTime == 0.0 && c.serviceEndTime == 0.0 && c.serviceTime == 0.0
  }

  /** The fields of an `MM1Queue` that the event loop reads or updates,
      its bound `max_customers` included. */
  datatype Sim = Sim(
    maxCustomers: int,
    customers: seq<Customer>,
    currentTime: real,
    serverBusy: bool,
    queueLength: int,
    totalCustomersServed: int,
    queueHistory: seq<int>,
    timeHistory: seq<real>,
    serverStatusHistory: seq<int>)

  /** The state `__init__` leaves: an empty ledger and histories, the clock
      at 0.0, an idle server, no queue and nobody served. */
  predicate IsInitial(s: Sim)
  {
    && s.customers == [] && s.currentTime == 0.0 && !s.serverBusy
    && s.queueLength == 0 && s.totalCustomersServed == 0
    && s.queueHistory == [] && s.timeHistory == [] && s.serverStatusHistory == []
  }

  /** `1 if server_busy else 0`: the customers in service. */
  function Busy(s: Sim): nat
  {
    if s.serverBusy then 1 else 0
  }

  /** How many ledger entries have begun service. */
  function Started(s: Sim): int
  {
    s.totalCustomersServed + Busy(s)
  }

  /** The counters: the queue is never negative and is empty while the
      server idles, and every ledger entry is served, in service or waiting. */
  ghost predicate Counted(s: Sim)
  {
    && 0 <= s.queueLength
    && 0 <= s.totalCustomersServed
    && (!s.serverBusy ==> s.queueLength == 0)
    && |s.customers| == s.totalCustomersServed + s.queueLength + Busy(s)
  }

  /** First come, first served: the first k ledger entries have begun
      service and the others are as created. */
  ghost predicate BegunPrefix(cs: seq<Customer>, k: int)
  {
    forall i :: 0 <= i < |cs| ==> (i < k ==> HasBegun(cs[i])) && (k <= i ==> Untouched(cs[i]))
  }

  /** Queue samples are never negative, status samples are 0 or 1, and a
      recorded idle server goes with a recorded empty queue. */
  ghost predicate Samples(queue: seq<int>, status: seq<int>)
  {
    forall i :: 0 <= i < |queue| && i < |status| ==>
      0 <= queue[i] && (status[i] == 0 || status[i] == 1) && (status[i] == 0 ==> queue[i] == 0)
  }

  /** The histories hold one sample per event so far (an arrival per ledger
      entry and a departure per served customer), and the last sample is
      the present state. */
  ghost predicate Recorded(s: Sim)
  {
    && |s.queueHistory| == |s.customers| + s.totalCustomersServed
    && |s.timeHistory| == |s.queueHistory|
    && |s.serverStatusHistory| == |s.queueHistory|
    && Samples(s.queueHistory, s.serverStatusHistory)
    && (|s.queueHistory| > 0 ==>
          s.queueHistory[|s.queueHistory| - 1] == s.queueLength &&
          s.timeHistory[|s.timeHistory| - 1] == s.currentTime &&
          s.serverStatusHistory[|s.serverStatusHistory| - 1] == Busy(s))
  }

  /** What holds of the loop's state before and after every iteration. */
  ghost predicate Invariant(s: Sim)
  {
    Counted(s) && BegunPrefix(s.customers, Started(s)) && Recorded(s)
  }

  /** The two pending instants, locals of `run_simulation`. */
  datatype Pending = Pending(nextArrivalTime: real, nextServiceEndTime: Time)

  /** The pending departure is infinite exactly while the server idles, and
      otherwise is the end of the service of the customer in service. */
  ghost predicate Consistent(s: Sim, p: Pending)
  {
    && (p.nextServiceEndTime.Inf? <==> !s.serverBusy)
    && (s.serverBusy ==>
          0 <= s.totalCustomersServed < |s.customers| &&
          p.nextServiceEndTime.t == s.customers[s.totalCustomersServed].serviceEndTime)
  }

  /** The loop's state, its pending instants, and how many draws it used. */
  datatype Engine = Engine(sim: Sim, pending: Pending, drawn: nat)

  ghost predicate Inv(e: Engine)
  {
    Invariant(e.sim) && Consistent(e.sim, e.pending)
  }

  /** The parameters that shape the draws, and the stream of `-log(random())`. */
  datatype Source = Source(meanInterArrivalTime: real, meanServiceTime: real, unitDraws: nat -> real)

  /** `generate_inter_arrival_time()` as the k-th draw. */
  function InterArrival(v: Source, k: nat): real
  {
    v.meanInterArrivalTime * v.unitDraws(k)
  }

  /** `generate_service_time()` as the k-th draw. */
  function ServiceTime(v: Source, k: nat): real
  {
    v.meanServiceTime * v.unitDraws(k)
  }

  /** The arrival branch (exam/answer9.py:47-60). An idle server takes the
      new customer at once, drawing its service time before the next
      inter-arrival time; a busy one lengthens the queue. */
  function Arrive(e: Engine, v: Source): Engine
  {
    var s, now := e.sim, e.pending.nextArrivalTime;
    if !s.serverBusy then
      var c := BeginService(NewCustomer(now), now, ServiceTime(v, e.drawn));
      Engine(
        s.(currentTime := now, customers := s.customers + [c], serverBusy := true),
        Pending(now + InterArrival(v, e.drawn + 1), Finite(c.serviceEndTime)),
        e.drawn + 2)
    else
      Engine(
        s.(currentTime := now, customers := s.customers + [NewCustomer(now)], queueLength := s.queueLength + 1),
        Pending(now + InterArrival(v, e.drawn), e.pending.nextServiceEndTime),
        e.drawn + 1)
  }

  /** The departure branch (exam/answer9.py:62-75). The served count rises;
      with a non-empty queue the ledger entry at the new served count starts
      service, otherwise the server idles and no departure is pending. */
  function Depart(e: Engine, v: Source): Engine
    requires e.pending.nextServiceEndTime.Finite?
    requires e.sim.queueLength > 0 ==> 0 <= e.sim.totalCustomersServed + 1 < |e.sim.customers|
  {
    var s, now := e.sim, e.pending.nextServiceEndTime.t;
    var served := s.totalCustomersServed + 1;
    if s.queueLength > 0 then
      var c := BeginService(s.customers[served], now, ServiceTime(v, e.drawn));
      Engine(
        s.(currentTime := now, totalCustomersServed := served, queueLength := s.queueLength - 1,
           serverBusy := true, customers := s.customers[served := c]),
        Pending(e.pending.nextArrivalTime, Finite(c.serviceEndTime)),
        e.drawn + 1)
    else
      Engine(
        s.(currentTime := now, totalCustomersServed := served, serverBusy := false),
        Pending(e.pending.nextArrivalTime, Inf),
        e.drawn)
  }

  /** The arrival branch keeps the counters and first come, first served.
      It appends one entry, arriving now, and changes no other entry; the
      new entry begins service, with the next draw as its service time,
      exactly when the server was idle. */
  lemma ArriveFacts(e: Engine, v: Source)
    requires Inv(e)
    ensures var s, e1 := e.sim, Arrive(e, v);
      && Counted(e1.sim)
      && BegunPrefix(e1.sim.customers, Started(e1.sim))
      && Consistent(e1.sim, e1.pending)
      && e1.sim.totalCustomersServed == s.totalCustomersServed
      && e1.sim.currentTime == e.pending.nextArrivalTime
      && |e1.sim.customers| == |s.customers| + 1
      && e1.sim.customers[..|s.customers|] == s.customers
      && e1.sim.customers[|s.customers|].arrivalTime == e.pending.nextArrivalTime
      && Started(e1.sim) == Started(s) + (if s.serverBusy then 0 else 1)
      && (!s.serverBusy ==>
            Started(s) == |s.customers| &&
            e1.sim.customers[Started(s)].serviceStartTime == e1.sim.currentTime &&
            e1.sim.customers[Started(s)].serviceTime == ServiceTime(v, e.drawn))
      && e1.sim.queueHistory == s.queueHistory
      && e1.sim.timeHistory == s.timeHistory
      && e1.sim.serverStatusHistory == s.serverStatusHistory
  {
    var s, e1 := e.sim, Arrive(e, v);
    var cs, cs1 := s.customers, e1.sim.customers;
    assert cs1 == cs + [cs1[|cs|]];
    assert cs1[..|cs|] == cs;
    forall i | 0 <= i < |cs1|
      ensures (i < Started(e1.sim) ==> HasBegun(cs1[i])) && (Started(e1.sim) <= i ==> Untouched(cs1[i]))
    {
      if i < |cs| {
        assert cs1[i] == cs[i];
      }
    }
  }

  /** The departure branch keeps the counters and first come, first
      served. It counts one more customer served and changes at most the
      entry at the new served count, which begins service, with the next
      draw as its service time, exactly when the queue was not empty. */
  lemma DepartFacts(e: Engine, v: Source)
    requires Inv(e) && e.sim.serverBusy
    ensures e.pending.nextServiceEndTime.Finite?
    ensures var s, e1 := e.sim, Depart(e, v);
      && Counted(e1.sim)
      && BegunPrefix(e1.sim.customers, Started(e1.sim))
      && Consistent(e1.sim, e1.pending)
      && e1.sim.totalCustomersServed == s.totalCustomersServed + 1
      && e1.sim.currentTime == e.pending.nextServiceEndTime.t
      && |e1.sim.customers| == |s.customers|
      && (forall i :: 0 <= i < |s.customers| && i != Started(s) ==> e1.sim.customers[i] == s.customers[i])
      && (forall i :: 0 <= i < |s.customers| ==> e1.sim.customers[i].arrivalTime == s.customers[i].arrivalTime)
      && Started(e1.sim) == Started(s) + (if s.queueLength > 0 then 1 else 0)
      && (s.queueLength > 0 ==>
            Started(s) < |s.customers| &&
            e1.sim.customers[Started(s)].serviceStartTime == e1.sim.currentTime &&
            e1.sim.customers[Started(s)].serviceTime == ServiceTime(v, e.drawn))
      && e1.sim.queueHistory == s.queueHistory
      && e1.sim.timeHistory == s.timeHistory
      && e1.sim.serverStatusHistory == s.serverStatusHistory
  {
  }

  /** The event an iteration processes: the arrival when it comes strictly
      first, otherwise the departure. */
  function Event(e: Engine, v: Source): Engine
    requires Inv(e)
  {
    if ArrivalFirst(e.pending.nextArrivalTime, e.pending.nextServiceEndTime) then Arrive(e, v)
    else Depart(e, v)
  }

  /** Either event keeps the counters, first come, first served, and the
      pending departure. An idle server always takes the arrival; a
      departure runs exactly when one is pending no later than the next
      arrival, so ties go to it. Only the earliest entry not yet begun can
      change, and service begins for at most that one, at the present
      instant. */
  lemma EventFacts(e: Engine, v: Source)
    requires Inv(e)
    ensures var s, e1 := e.sim, Event(e, v);
      && Counted(e1.sim)
      && BegunPrefix(e1.sim.customers, Started(e1.sim))
      && Consistent(e1.sim, e1.pending)
      && (!s.serverBusy ==> e1.sim.totalCustomersServed == s.totalCustomersServed)
      && (e1.sim.totalCustomersServed == s.totalCustomersServed + 1 <==>
            s.serverBusy && e.pending.nextServiceEndTime.t <= e.pending.nextArrivalTime)
      && (e1.sim.totalCustomersServed == s.totalCustomersServed + 1 ==>
            |e1.sim.customers| == |s.customers| &&
            e1.sim.currentTime == e.pending.nextServiceEndTime.t)
      && (e1.sim.totalCustomersServed == s.totalCustomersServed ==>
            |e1.sim.customers| == |s.customers| + 1 &&
            e1.sim.currentTime == e.pending.nextArrivalTime &&
            e1.sim.customers[|s.customers|].arrivalTime == e.pending.nextArrivalTime)
      && |s.customers| <= |e1.sim.customers|
      && (forall i :: 0 <= i < |s.customers| && i != Started(s) ==> e1.sim.customers[i] == s.customers[i])
      && (forall i :: 0 <= i < |s.customers| ==> e1.sim.customers[i].arrivalTime == s.customers[i].arrivalTime)
      && Started(s) <= Started(e1.sim) <= Started(s) + 1
      && (Started(e1.sim) == Started(s) + 1 ==>
            e1.sim.customers[Started(s)].serviceStartTime == e1.sim.currentTime)
      && e1.sim.queueHistory == s.queueHistory
      && e1.sim.timeHistory == s.timeHistory
      && e1.sim.serverStatusHistory == s.serverStatusHistory
  {
    if ArrivalFirst(e.pending.nextArrivalTime, e.pending.nextServiceEndTime) {
      ArriveFacts(e, v);
      var s, cs1 := e.sim, Arrive(e, v).sim.customers;
      forall i | 0 <= i < |s.customers|
        ensures cs1[i] == s.customers[i]
      {
        assert cs1[i] == cs1[..|s.customers|][i];
      }
    } else {
      DepartFacts(e, v);
    }
  }

  /** The three history appends that end every iteration (exam/answer9.py:77-79). */
  function Record(s: Sim): Sim
  {
    s.(queueHistory := s.queueHistory + [s.queueLength],
       timeHistory := s.timeHistory + [s.currentTime],
       serverStatusHistory := s.serverStatusHistory + [Busy(s)])
  }

  /** After an event the histories, one sample short, are whole again once
      the present state is recorded. */
  lemma RecordFacts(s: Sim)
    requires Counted(s)
    requires |s.queueHistory| + 1 == |s.customers| + s.totalCustomersServed
    requires |s.timeHistory| == |s.queueHistory| && |s.serverStatusHistory| == |s.queueHistory|
    requires Samples(s.queueHistory, s.serverStatusHistory)
    ensures Recorded(Record(s))
  {
  }

  /** One iteration of the `while` loop of `run_simulation`: process the
      earlier event, then record. Each history grows by one sample, of the
      new state. */
  function Iterate(e: Engine, v: Source): (e': Engine)
    requires Inv(e)
    ensures Inv(e')
    ensures e'.sim.queueHistory == e.sim.queueHistory + [e'.sim.queueLength]
    ensures e'.sim.timeHistory == e.sim.timeHistory + [e'.sim.currentTime]
    ensures e'.sim.serverStatusHistory == e.sim.serverStatusHistory + [Busy(e'.sim)]
  {
    EventFacts(e, v);
    var e1 := Event(e, v);
    RecordFacts(e1.sim);
    Engine(Record(e1.sim), e1.pending, e1.drawn)
  }

  /** Draws that cannot move the clock backwards. */
  ghost predicate NonNegative(v: Source)
  {
    0.0 <= v.meanInterArrivalTime && 0.0 <= v.meanServiceTime &&
    forall k :: 0.0 <= v.unitDraws(k)
  }

  /** Non-negative draws give non-negative inter-arrival and service times. */
  lemma DrawsNonNegative(v: Source, k: nat)
    requires NonNegative(v)
    ensures 0.0 <= InterArrival(v, k) && 0.0 <= ServiceTime(v, k)
  {
    assert 0.0 <= v.unitDraws(k);
  }

  /** Arrival instants are in ledger order and not after `now`. */
  ghost predicate ArrivalsOrdered(cs: seq<Customer>, now: real)
  {
    && (forall i, j :: 0 <= i < j < |cs| ==> cs[i].arrivalTime <= cs[j].arrivalTime)
    && (forall i :: 0 <= i < |cs| ==> cs[i].arrivalTime <= now)
  }

  /** Each of the first k entries began service no earlier than it arrived
      and no later than `now`, for a non-negative service time, and they
      began in ledger order. */
  ghost predicate ServicesOrdered(cs: seq<Customer>, k: int, now: real)
  {
    && (forall i :: 0 <= i < |cs| && i < k ==>
          cs[i].arrivalTime <= cs[i].serviceStartTime <= now && 0.0 <= cs[i].serviceTime)
    && (forall i, j :: 0 <= i < j < |cs| && j < k ==> cs[i].serviceStartTime <= cs[j].serviceStartTime)
  }

  /** Recorded instants never decrease and are not after `now`. */
  ghost predicate SamplesOrdered(times: seq<real>, now: real)
  {
    && (forall i, j :: 0 <= i < j < |times| ==> times[i] <= times[j])
    && (forall i :: 0 <= i < |times| ==> times[i] <= now)
  }

  /** The time facts of a state: the clock is not negative, arrivals and
      service starts are in ledger order and not after the clock, and the
      recorded instants never decrease. */
  ghost predicate Chronological(s: Sim)
  {
    && 0.0 <= s.currentTime
    && ArrivalsOrdered(s.customers, s.currentTime)
    && ServicesOrdered(s.customers, Started(s), s.currentTime)
    && SamplesOrdered(s.timeHistory, s.currentTime)
  }

  /** A fresh queue meets the invariant and the time facts. */
  lemma InitialIsValid(s: Sim)
    requires IsInitial(s)
    ensures Invariant(s) && Chronological(s)
  {
  }

  /** The time facts plus: neither pending instant is in the past. */
  ghost predicate TimeOrdered(e: Engine)
  {
    && Chronological(e.sim)
    && e.sim.currentTime <= e.pending.nextArrivalTime
    && (e.pending.nextServiceEndTime.Finite? ==> e.sim.currentTime <= e.pending.nextServiceEndTime.t)
  }

  /** The loop starts from a fresh queue with no departure pending: it
      meets the loop invariant, and the time facts once the first arrival
      is not before time zero. */
  lemma StartIsValid(e: Engine)
    requires IsInitial(e.sim) && e.pending.nextServiceEndTime == Inf
    ensures Inv(e)
    ensures 0.0 <= e.pending.nextArrivalTime ==> TimeOrdered(e)
  {
    InitialIsValid(e.sim);
  }

  /** The time facts carried over from `now` to a later instant. */
  lemma LaterInstant(cs: seq<Customer>, k: int, times: seq<real>, now: real, later: real)
    requires now <= later
    requires ArrivalsOrdered(cs, now) && ServicesOrdered(cs, k, now) && SamplesOrdered(times, now)
    ensures ArrivalsOrdered(cs, later) && ServicesOrdered(cs, k, later) && SamplesOrdered(times, later)
  {
  }

  /** Appending an entry that arrives at `now` keeps the arrivals in order. */
  lemma AppendArrival(cs: seq<Customer>, c: Customer, now: real)
    requires ArrivalsOrdered(cs, now) && c.arrivalTime == now
    ensures ArrivalsOrdered(cs + [c], now)
  {
  }

  /** Appending an entry that has not begun service leaves the begun
      prefix, and its order, as it was. */
  lemma AppendWaiting(cs: seq<Customer>, c: Customer, k: int, now: real)
    requires k <= |cs| && ServicesOrdered(cs, k, now)
    ensures ServicesOrdered(cs + [c], k, now)
  {
    assert forall i :: 0 <= i < |cs| ==> (cs + [c])[i] == cs[i];
  }

  /** Appending an entry that begins service at `now`, after every other
      entry has begun, extends the begun prefix by it. */
  lemma AppendBegun(cs: seq<Customer>, c: Customer, now: real)
    requires ServicesOrdered(cs, |cs|, now)
    requires c.arrivalTime <= c.serviceStartTime == now && 0.0 <= c.serviceTime
    ensures ServicesOrdered(cs + [c], |cs| + 1, now)
  {
    assert forall i :: 0 <= i < |cs| ==> (cs + [c])[i] == cs[i];
  }

  /** Beginning the service of entry k at `now`, when exactly the entries
      before it have begun, extends the begun prefix by it. */
  lemma BeginAt(cs: seq<Customer>, k: int, c: Customer, now: real)
    requires 0 <= k < |cs| && ArrivalsOrdered(cs, now) && ServicesOrdered(cs, k, now)
    requires c.arrivalTime == cs[k].arrivalTime && c.serviceStartTime == now && 0.0 <= c.serviceTime
    ensures ArrivalsOrdered(cs[k := c], now) && ServicesOrdered(cs[k := c], k + 1, now)
  {
  }

  /** An arrival, processed when it comes first, keeps the time facts. */
  lemma ArriveKeepsTimeOrder(e: Engine, v: Source)
    requires Inv(e) && TimeOrdered(e) && NonNegative(v)
    requires ArrivalFirst(e.pending.nextArrivalTime, e.pending.nextServiceEndTime)
    ensures TimeOrdered(Arrive(e, v))
    ensures e.sim.currentTime <= Arrive(e, v).sim.currentTime
  {
    var s, now := e.sim, e.pending.nextArrivalTime;
    var cs := s.customers;
    LaterInstant(cs, Started(s), s.timeHistory, s.currentTime, now);
    DrawsNonNegative(v, e.drawn);
    DrawsNonNegative(v, e.drawn + 1);
    if s.serverBusy {
      AppendArrival(cs, NewCustomer(now), now);
      AppendWaiting(cs, NewCustomer(now), Started(s), now);
    } else {
      var c := BeginService(NewCustomer(now), now, ServiceTime(v, e.drawn));
      AppendArrival(cs, c, now);
      AppendBegun(cs, c, now);
    }
  }

  /** A departure, processed when it comes no later than the next arrival,
      keeps the time facts. */
  lemma DepartKeepsTimeOrder(e: Engine, v: Source)
    requires Inv(e) && TimeOrdered(e) && NonNegative(v)
    requires !ArrivalFirst(e.pending.nextArrivalTime, e.pending.nextServiceEndTime)
    ensures e.sim.serverBusy
    ensures TimeOrdered(Depart(e, v))
    ensures e.sim.currentTime <= Depart(e, v).sim.currentTime
  {
    var s, now := e.sim, e.pending.nextServiceEndTime.t;
    var cs := s.customers;
    LaterInstant(cs, Started(s), s.timeHistory, s.currentTime, now);
    DrawsNonNegative(v, e.drawn);
    if s.queueLength > 0 {
      var k := s.totalCustomersServed + 1;
      BeginAt(cs, k, BeginService(cs[k], now, ServiceTime(v, e.drawn)), now);
    }
  }

  /** With non-negative draws an iteration keeps the time facts, so the
      clock never goes backwards. */
  lemma IterateKeepsTimeOrder(e: Engine, v: Source)
    requires Inv(e) && TimeOrdered(e) && NonNegative(v)
    ensures TimeOrdered(Iterate(e, v))
    ensures e.sim.currentTime <= Iterate(e, v).sim.currentTime
  {
    if ArrivalFirst(e.pending.nextArrivalTime, e.pending.nextServiceEndTime) {
      ArriveKeepsTimeOrder(e, v);
    } else {
      DepartKeepsTimeOrder(e, v);
    }
    RecordKeepsTimeOrder(Event(e, v).sim);
  }

  /** Recording the present instant keeps the recorded instants in order. */
  lemma RecordKeepsTimeOrder(s: Sim)
    requires Chronological(s)
    ensures Chronological(Record(s))
  {
    assert SamplesOrdered(s.timeHistory + [s.currentTime], s.currentTime);
  }

  /** The state the loop starts from (exam/answer9.py:42-43): the first
      arrival is one inter-arrival draw after time zero and no departure is
      pending. It meets the loop invariant, and the time facts when the
      draws are non-negative. */
  function Start(s: Sim, v: Source, drawn: nat): (e: Engine)
    requires IsInitial(s)
    ensures Inv(e) && e.sim == s && e.drawn == drawn + 1
    ensures NonNegative(v) ==> TimeOrdered(e)
  {
    var e := Engine(s, Pending(InterArrival(v, drawn), Inf), drawn + 1);
    assert NonNegative(v) ==> 0.0 <= InterArrival(v, drawn) by {
      if NonNegative(v) {
        DrawsNonNegative(v, drawn);
      }
    }
    StartIsValid(e);
    e
  }

  /** The `while` loop of `run_simulation`, allowed at most `fuel`
      iterations: iterate until `max_customers` customers are served. */
  function Run(e: Engine, v: Source, fuel: nat): Engine
    requires Inv(e)
    decreases fuel
  {
    if e.sim.totalCustomersServed < e.sim.maxCustomers && fuel > 0 then Run(Iterate(e, v), v, fuel - 1)
    else e
  }

  /** The loop keeps the invariant of `MM1Queue`. */
  lemma {:induction false} RunKeepsInvariant(e: Engine, v: Source, fuel: nat)
    requires Inv(e)
    ensures Inv(Run(e, v, fuel))
    decreases fuel
  {
    if e.sim.totalCustomersServed < e.sim.maxCustomers && fuel > 0 {
      RunKeepsInvariant(Iterate(e, v), v, fuel - 1);
    }
  }

  /** An iteration keeps the bound and serves at most one more customer. */
  lemma IterateCounts(e: Engine, v: Source)
    requires Inv(e)
    ensures Iterate(e, v).sim.maxCustomers == e.sim.maxCustomers
    ensures e.sim.totalCustomersServed <= Iterate(e, v).sim.totalCustomersServed <= e.sim.totalCustomersServed + 1
  {
    if ArrivalFirst(e.pending.nextArrivalTime, e.pending.nextServiceEndTime) {
      ArriveFacts(e, v);
    } else {
      DepartFacts(e, v);
    }
  }

  /** The loop never serves more than `max_customers`, and runs no
      iteration at all when they are already served. */
  lemma {:induction false} RunBound(e: Engine, v: Source, fuel: nat)
    requires Inv(e) && e.sim.totalCustomersServed <= e.sim.maxCustomers
    ensures var r := Run(e, v, fuel);
      && r.sim.maxCustomers == e.sim.maxCustomers
      && e.sim.totalCustomersServed <= r.sim.totalCustomersServed <= r.sim.maxCustomers
      && (e.sim.maxCustomers <= e.sim.totalCustomersServed ==> r == e)
    decreases fuel
  {
    if e.sim.totalCustomersServed < e.sim.maxCustomers && fuel > 0 {
      IterateCounts(e, v);
      RunBound(Iterate(e, v), v, fuel - 1);
    }
  }

  /** The loop adds one sample per iteration, and stops before the fuel
      runs out only once `max_customers` are served. */
  lemma {:induction false} RunSamples(e: Engine, v: Source, fuel: nat)
    requires Inv(e)
    ensures var r := Run(e, v, fuel);
      && |r.sim.queueHistory| <= |e.sim.queueHistory| + fuel
      && (r.sim.totalCustomersServed < r.sim.maxCustomers ==> |r.sim.queueHistory| == |e.sim.queueHistory| + fuel)
    decreases fuel
  {
    if e.sim.totalCustomersServed < e.sim.maxCustomers && fuel > 0 {
      var e1 := Iterate(e, v);
      RunSamples(e1, v, fuel - 1);
      assert Run(e, v, fuel) == Run(e1, v, fuel - 1);
    }
  }

  /** The three histories only grow: what was recorded stays recorded. */
  lemma {:induction false} RunKeepsHistory(e: Engine, v: Source, fuel: nat)
    requires Inv(e)
    ensures var r := Run(e, v, fuel);
      && e.sim.queueHistory <= r.sim.queueHistory
      && e.sim.timeHistory <= r.sim.timeHistory
      && e.sim.serverStatusHistory <= r.sim.serverStatusHistory
    decreases fuel
  {
    if e.sim.totalCustomersServed < e.sim.maxCustomers && fuel > 0 {
      var e1 := Iterate(e, v);
      RunKeepsHistory(e1, v, fuel - 1);
      PrefixGrows(e.sim.queueHistory, e1.sim.queueHistory, Run(e1, v, fuel - 1).sim.queueHistory);
      PrefixGrows(e.sim.timeHistory, e1.sim.timeHistory, Run(e1, v, fuel - 1).sim.timeHistory);
      PrefixGrows(e.sim.serverStatusHistory, e1.sim.serverStatusHistory, Run(e1, v, fuel - 1).sim.serverStatusHistory);
    }
  }

  /** A list that gained one entry and then some more extends the original. */
  lemma PrefixGrows<T>(a: seq<T>, b: seq<T>, c: seq<T>)
    requires |b| == |a| + 1 && b[..|a|] == a && b <= c
    ensures a <= c
  {
    assert c[..|a|] == c[..|b|][..|a|];
  }

  /** With non-negative draws the whole loop keeps the time facts and never
      moves the clock backwards. */
  lemma {:induction false} RunKeepsTimeOrder(e: Engine, v: Source, fuel: nat)
    requires Inv(e) && TimeOrdered(e) && NonNegative(v)
    ensures TimeOrdered(Run(e, v, fuel))
    ensures e.sim.currentTime <= Run(e, v, fuel).sim.currentTime
    decreases fuel
  {
    if e.sim.totalCustomersServed < e.sim.maxCustomers && fuel > 0 {
      IterateKeepsTimeOrder(e, v);
      RunKeepsTimeOrder(Iterate(e, v), v, fuel - 1);
    }
  }

  /** A worked run, with both means 1.0 and draws of 1.0: the first customer
      arrives at 1.0 and is served until 2.0, when the next arrival is due;
      the tie goes to the departure, so by 2.0 one customer is served with
      no wait, and the server was busy half of the time. */
  lemma TieGoesToDeparture(s: Sim, v: Source)
    requires IsInitial(s) && 0 < s.maxCustomers <= 1
    requires v.meanInterArrivalTime == 1.0 && v.meanServiceTime == 1.0
    requires v.unitDraws(0) == 1.0 && v.unitDraws(1) == 1.0 && v.unitDraws(2) == 1.0
    ensures var r := Run(Start(s, v, 0), v, 2).sim;
      && r.totalCustomersServed == 1 && r.currentTime == 2.0
      && r.queueHistory == [0, 0] && r.timeHistory == [1.0, 2.0] && r.serverStatusHistory == [1, 0]
      && Summarize(r.customers, r.currentTime) == Ok(Statistics(0.0, Number(0.0), Number(0.5), 2.0))
      && Simulate(s, v, 0, 2).2 == Finished(Ok(Statistics(0.0, Number(0.0), Number(0.5), 2.0)))
  {
    var e0 := Start(s, v, 0);
    assert e0.pending == Pending(1.0, Inf);
    var e1 := Iterate(e0, v);
    assert e1.sim.customers == [Customer(1.0, 1.0, 2.0, 1.0, 0.0)];
    assert e1.pending == Pending(2.0, Finite(2.0));
    assert e1.sim.totalCustomersServed == 0 && e1.sim.queueLength == 0;
    var e2 := Iterate(e1, v);
    assert e2.sim.customers == e1.sim.customers;
    assert e2.sim.totalCustomersServed == 1 && e2.sim.currentTime == 2.0;
    assert Run(e0, v, 2) == e2;
    var c := e2.sim.customers[0];
    assert TotalWaitingTime(e2.sim.customers) == WaitingTime(c) == 0.0;
    assert TotalServiceTime(e2.sim.customers) == c.serviceTime == 1.0;
  }

  /** A quotient of numpy floats: a number, or the infinities and the
      not-a-number that a division by zero yields instead of raising. */
  datatype Float = Number(value: real) | PlusInfinity | MinusInfinity | NotANumber

  /** numpy's `x / y` on float64 values: division by zero does not raise
      but gives an infinity of the dividend's sign, or not-a-number for a
      zero dividend. */
  function FloatDivide(x: real, y: real): (r: Float)
    ensures r.Number? <==> y != 0.0
    ensures r.Number? ==> r.value * y == x
    ensures r.PlusInfinity? <==> y == 0.0 && x > 0.0
    ensures r.MinusInfinity? <==> y == 0.0 && x < 0.0
    ensures r.NotANumber? <==> y == 0.0 && x == 0.0
  {
    if y != 0.0 then Number(x / y)
    else if x > 0.0 then PlusInfinity
    else if x < 0.0 then MinusInfinity
    else NotANumber
  }

  /** With both means 0.0 every instant is 0.0: the first customer arrives
      and leaves at 0.0, the tie goes to the departure, and the time
      averages divide zero totals by a zero clock, giving not-a-number
      rather than an exception. */
  lemma ZeroMeansGiveNotANumber(s: Sim, v: Source)
    requires IsInitial(s) && 0 < s.maxCustomers <= 1
    requires v.meanInterArrivalTime == 0.0 && v.meanServiceTime == 0.0
    ensures var r := Run(Start(s, v, 0), v, 2).sim;
      && r.totalCustomersServed == 1 && r.currentTime == 0.0
      && Summarize(r.customers, r.currentTime) == Ok(Statistics(0.0, NotANumber, NotANumber, 0.0))
      && Simulate(s, v, 0, 2).2 == Finished(Ok(Statistics(0.0, NotANumber, NotANumber, 0.0)))
  {
    var e0 := Start(s, v, 0);
    assert e0.pending == Pending(0.0, Inf);
    var e1 := Iterate(e0, v);
    assert e1.sim.customers == [Customer(0.0, 0.0, 0.0, 0.0, 0.0)];
    assert e1.pending == Pending(0.0, Finite(0.0));
    assert e1.sim.totalCustomersServed == 0 && e1.sim.queueLength == 0;
    var e2 := Iterate(e1, v);
    assert e2.sim.customers == e1.sim.customers;
    assert e2.sim.totalCustomersServed == 1 && e2.sim.currentTime == 0.0;
    assert Run(e0, v, 2) == e2;
    var c := e2.sim.customers[0];
    assert TotalWaitingTime(e2.sim.customers) == WaitingTime(c) == 0.0;
    assert TotalServiceTime(e2.sim.customers) == c.serviceTime == 0.0;
  }

  /** The record returned by `calculate_statistics`. The time averages
      divide numpy floats (every instant derives from `np.log`), so they
      are `Float`s. */
  datatype Statistics = Statistics(
    avgDelay: real,
    avgQueueLength: Float,
    serverUtilization: Float,
    simulationTime: real)

  /** `customer.service_start_time - customer.arrival_time`. */
  function WaitingTime(c: Customer): real
  {
    c.serviceStartTime - c.arrivalTime
  }

  /** The sum of waiting times over a ledger, in ledger order. */
  function TotalWaitingTime(cs: seq<Customer>): real
  {
    if cs == [] then 0.0 else TotalWaitingTime(cs[..|cs| - 1]) + WaitingTime(cs[|cs| - 1])
  }

  /** The sum of service times over a ledger, in ledger order. */
  function TotalServiceTime(cs: seq<Customer>): real
  {
    if cs == [] then 0.0 else TotalServiceTime(cs[..|cs| - 1]) + cs[|cs| - 1].serviceTime
  }

  /** The sum of arrival instants over a ledger. */
  function TotalArrivalTime(cs: seq<Customer>): real
  {
    if cs == [] then 0.0 else TotalArrivalTime(cs[..|cs| - 1]) + cs[|cs| - 1].arrivalTime
  }

  /** The ledger after `calculate_statistics` has written every waiting time. */
  function WithWaitingTimes(cs: seq<Customer>): (r: seq<Customer>)
    ensures |r| == |cs|
    ensures forall i :: 0 <= i < |cs| ==> r[i] == cs[i].(waitingTime := WaitingTime(cs[i]))
  {
    seq(|cs|, i requires 0 <= i < |cs| => cs[i].(waitingTime := WaitingTime(cs[i])))
  }

  /** `calculate_statistics`: the mean delay divides by the ledger size,
      which raises ZeroDivisionError on an empty ledger (its total is then
      the Python float 0.0); the time averages divide numpy floats by the
      clock, which on a zero clock gives infinities or not-a-number. */
  function Summarize(cs: seq<Customer>, currentTime: real): Result<Statistics>
  {
    if |cs| == 0 then Raise(ZeroDivisionError)
    else
      var w := TotalWaitingTime(cs);
      Ok(Statistics(w / (|cs| as real), FloatDivide(w, currentTime),
                    FloatDivide(TotalServiceTime(cs), currentTime), currentTime))
  }

  /** The waiting times `calculate_statistics` writes: non-negative for the
      customers whose service began, and minus the arrival instant for
      those still queued, whose start instant is still 0.0. */
  lemma WaitingTimeSigns(s: Sim)
    requires Invariant(s) && Chronological(s)
    ensures var w := WithWaitingTimes(s.customers);
      && (forall i :: 0 <= i < |w| && i < Started(s) ==> 0.0 <= w[i].waitingTime)
      && (forall i :: 0 <= i < |w| && Started(s) <= i ==> w[i].waitingTime == -w[i].arrivalTime)
  {
  }

  /** Sums over a ledger split at any point add up. */
  lemma {:induction false} TotalsSplit(a: seq<Customer>, b: seq<Customer>)
    ensures TotalWaitingTime(a + b) == TotalWaitingTime(a) + TotalWaitingTime(b)
    ensures TotalArrivalTime(a + b) == TotalArrivalTime(a) + TotalArrivalTime(b)
    decreases |b|
  {
    if b == [] {
      assert a + b == a;
    } else {
      var b' := b[..|b| - 1];
      assert (a + b)[..|a + b| - 1] == a + b';
      assert (a + b)[|a + b| - 1] == b[|b| - 1];
      TotalsSplit(a, b');
    }
  }

  /** Customers whose service has begun contribute non-negative waits. */
  lemma {:induction false} BegunWaitNonNegative(cs: seq<Customer>)
    requires forall i :: 0 <= i < |cs| ==> cs[i].arrivalTime <= cs[i].serviceStartTime
    ensures 0.0 <= TotalWaitingTime(cs)
    decreases |cs|
  {
    if cs != [] {
      BegunWaitNonNegative(cs[..|cs| - 1]);
    }
  }

  /** Customers still waiting contribute minus their arrival instants,
      since their start instant is still 0.0. */
  lemma {:induction false} UntouchedWait(cs: seq<Customer>)
    requires forall i :: 0 <= i < |cs| ==> Untouched(cs[i])
    ensures TotalWaitingTime(cs) == -TotalArrivalTime(cs)
    decreases |cs|
  {
    if cs != [] {
      UntouchedWait(cs[..|cs| - 1]);
    }
  }

  /** The total waiting time that the statistics use is the non-negative
      total of the customers whose service began, minus the arrival instants
      of those still queued, whose start instant is still 0.0; with no queue
      left it is non-negative. */
  lemma WaitingTotalDecomposition(s: Sim)
    requires Invariant(s) && Chronological(s)
    ensures var k := Started(s);
      && 0 <= k <= |s.customers|
      && 0.0 <= TotalWaitingTime(s.customers[..k])
      && TotalWaitingTime(s.customers) ==
           TotalWaitingTime(s.customers[..k]) - TotalArrivalTime(s.customers[k..])
      && (s.queueLength == 0 ==> 0.0 <= TotalWaitingTime(s.customers))
  {
    var k := Started(s);
    var cs := s.customers;
    assert cs == cs[..k] + cs[k..];
    TotalsSplit(cs[..k], cs[k..]);
    BegunWaitNonNegative(cs[..k]);
    UntouchedWait(cs[k..]);
    if s.queueLength == 0 {
      assert cs[k..] == [];
    }
  }

  /** Writing the waiting times changes neither the totals the statistics
      use nor any fact about the state. */
  lemma WaitingTimesKeepFacts(s: Sim)
    ensures var s1 := s.(customers := WithWaitingTimes(s.customers));
      && TotalWaitingTime(s1.customers) == TotalWaitingTime(s.customers)
      && TotalServiceTime(s1.customers) == TotalServiceTime(s.customers)
      && Summarize(s1.customers, s.currentTime) == Summarize(s.customers, s.currentTime)
      && (Invariant(s) ==> Invariant(s1))
      && (Chronological(s) ==> Chronological(s1))
  {
    WaitingTimesKeepTotals(s.customers);
  }

  /** The totals do not read the waiting-time field. */
  lemma {:induction false} WaitingTimesKeepTotals(cs: seq<Customer>)
    ensures TotalWaitingTime(WithWaitingTimes(cs)) == TotalWaitingTime(cs)
    ensures TotalServiceTime(WithWaitingTimes(cs)) == TotalServiceTime(cs)
    decreases |cs|
  {
    if cs != [] {
      var w := WithWaitingTimes(cs);
      assert w[..|w| - 1] == WithWaitingTimes(cs[..|cs| - 1]);
      WaitingTimesKeepTotals(cs[..|cs| - 1]);
    }
  }

  /** What `run_simulation` returns: its statistics, or, in this model
      only, word that the fuel ran out before `max_customers` were served. */
  datatype RunOutcome = Finished(statistics: Result<Statistics>) | FuelExhausted

  /** `run_simulation` on the fields of a queue, allowed at most `fuel`
      iterations: a queue that has not yet served `max_customers` runs the
      loop from `Start`; then, once they are served, `calculate_statistics`
      writes the waiting times and summarizes the ledger. Returns the new
      fields, the new number of draws consumed and the outcome. */
  function Simulate(s: Sim, v: Source, drawn: nat, fuel: nat): (Sim, nat, RunOutcome)
    requires s.totalCustomersServed < s.maxCustomers ==> IsInitial(s)
  {
    var (t, d) :=
      if s.totalCustomersServed < s.maxCustomers then
        var r := Run(Start(s, v, drawn), v, fuel);
        (r.sim, r.drawn)
      else (s, drawn + 1);
    if t.totalCustomersServed < t.maxCustomers then (t, d, FuelExhausted)
    else (t.(customers := WithWaitingTimes(t.customers)), d, Finished(Summarize(t.customers, t.currentTime)))
  }

  /** A run ends either with the fuel spent, one sample per iteration and
      fewer than `max_customers` served, or with exactly `max_customers`
      served; a queue that had already served them runs no event, consumes
      only the inter-arrival draw made before the loop, keeps its clock and
      histories, and its statistics raise ZeroDivisionError when its ledger
      is empty. */
  lemma SimulateOutcome(s: Sim, v: Source, drawn: nat, fuel: nat)
    requires s.totalCustomersServed < s.maxCustomers ==> IsInitial(s)
    ensures var (t, d, outcome) := Simulate(s, v, drawn, fuel);
      && t.maxCustomers == s.maxCustomers
      && (outcome.FuelExhausted? <==> t.totalCustomersServed < t.maxCustomers)
      && (outcome.FuelExhausted? ==> |t.queueHistory| == fuel)
      && (s.totalCustomersServed < s.maxCustomers && outcome.Finished? ==> t.totalCustomersServed == s.maxCustomers)
      && (s.maxCustomers <= s.totalCustomersServed ==>
            && t == s.(customers := WithWaitingTimes(s.customers))
            && d == drawn + 1
            && outcome == Finished(Summarize(s.customers, s.currentTime))
            && (|s.customers| == 0 ==> outcome == Finished(Raise(ZeroDivisionError))))
  {
    if s.totalCustomersServed < s.maxCustomers {
      var e := Start(s, v, drawn);
      RunBound(e, v, fuel);
      RunSamples(e, v, fuel);
    }
  }

  /** The statistics of a finished run are those of its ledger as returned,
      every customer of which carries its waiting time. */
  lemma SimulateStatistics(s: Sim, v: Source, drawn: nat, fuel: nat)
    requires s.totalCustomersServed < s.maxCustomers ==> IsInitial(s)
    ensures var (t, _, outcome) := Simulate(s, v, drawn, fuel);
      outcome.Finished? ==>
        && outcome.statistics == Summarize(t.customers, t.currentTime)
        && forall i :: 0 <= i < |t.customers| ==> t.customers[i].waitingTime == WaitingTime(t.customers[i])
  {
    var r := if s.totalCustomersServed < s.maxCustomers then Run(Start(s, v, drawn), v, fuel).sim else s;
    WaitingTimesKeepFacts(r);
  }

  /** exam/answer9.py `MM1Queue`. */
  class MM1Queue {
    const meanInterArrivalTime: real
    const meanServiceTime: real
    const maxCustomers: int
    /** The stream of `-log(random())` values, and how many were drawn. */
    const unitDraws: nat -> real
    var drawn: nat
    var customers: seq<Customer>
    var currentTime: real
    var serverBusy: bool
    var queueLength: int
    var totalCustomersServed: int
    var queueHistory: seq<int>
    var timeHistory: seq<real>
    var serverStatusHistory: seq<int>

    function State(): Sim
      reads this
    {
      Sim(maxCustomers, customers, currentTime, serverBusy, queueLength, totalCustomersServed,
          queueHistory, timeHistory, serverStatusHistory)
    }

    function Draws(): Source
    {
      Source(meanInterArrivalTime, meanServiceTime, unitDraws)
    }

    /** The loop invariant holds between calls too, and with non-negative
        draws the time facts hold as well. */
    ghost predicate Valid()
      reads this
    {
      && Invariant(State())
      && (NonNegative(Draws()) ==> Chronological(State()))
    }

    /** Either no simulation has run yet, or the last one served
        `max_customers`. */
    ghost predicate NotInterrupted()
      reads this
    {
      totalCustomersServed < maxCustomers ==> IsInitial(State())
    }

    /** exam/answer9.py `MM1Queue.__init__`: the parameters are stored as
        given, without validation. The draws are `-log` of values in [0, 1),
        hence non-negative. */
    constructor (meanInterArrivalTime: real, meanServiceTime: real, maxCustomers: int, unitDraws: nat -> real)
      requires forall k :: 0.0 <= unitDraws(k)
      ensures drawn == 0 && IsInitial(State())
      ensures this.meanInterArrivalTime == meanInterArrivalTime
      ensures this.meanServiceTime == meanServiceTime
      ensures this.maxCustomers == maxCustomers
      ensures forall k :: this.unitDraws(k) == unitDraws(k)
      ensures Valid() && NotInterrupted()
    {
      this.meanInterArrivalTime := meanInterArrivalTime;
      this.meanServiceTime := meanServiceTime;
      this.maxCustomers := maxCustomers;
      this.unitDraws := unitDraws;
      drawn := 0;
      customers := [];
      currentTime := 0.0;
      serverBusy := false;
      queueLength := 0;
      totalCustomersServed := 0;
      queueHistory := [];
      timeHistory := [];
      serverStatusHistory := [];
      new;
      assert IsInitial(State());
      assert Valid() by {
        InitialIsValid(State());
      }
    }

    /** exam/answer9.py `generate_inter_arrival_time`. */
    method GenerateInterArrivalTime() returns (x: real)
      modifies this`drawn
      ensures drawn == old(drawn) + 1
      ensures x == InterArrival(Draws(), old(drawn))
    {
      x := meanInterArrivalTime * unitDraws(drawn);
      drawn := drawn + 1;
    }

    /** exam/answer9.py `generate_service_time`. */
    method GenerateServiceTime() returns (x: real)
      modifies this`drawn
      ensures drawn == old(drawn) + 1
      ensures x == ServiceTime(Draws(), old(drawn))
    {
      x := meanServiceTime * unitDraws(drawn);
      drawn := drawn + 1;
    }

    /** The arrival branch of the loop body (exam/answer9.py:47-60). */
    method ProcessArrival(p: Pending) returns (p': Pending)
      modifies this
      ensures Engine(State(), p', drawn) == Arrive(Engine(old(State()), p, old(drawn)), Draws())
    {
      var nextArrivalTime, nextServiceEndTime := p.nextArrivalTime, p.nextServiceEndTime;
      currentTime := nextArrivalTime;
      customers := customers + [NewCustomer(currentTime)];
      if !serverBusy {
        serverBusy := true;
        var serviceTime := GenerateServiceTime();
        var customer := BeginService(customers[|customers| - 1], currentTime, serviceTime);
        customers := customers[|customers| - 1 := customer];
        nextServiceEndTime := Finite(customer.serviceEndTime);
      } else {
        queueLength := queueLength + 1;
      }
      var interArrival := GenerateInterArrivalTime();
      nextArrivalTime := currentTime + interArrival;
      p' := Pending(nextArrivalTime, nextServiceEndTime);
    }

    /** The departure branch of the loop body (exam/answer9.py:62-75). */
    method ProcessDeparture(p: Pending) returns (p': Pending)
      requires p.nextServiceEndTime.Finite?
      requires queueLength > 0 ==> 0 <= totalCustomersServed + 1 < |customers|
      modifies this
      ensures Engine(State(), p', drawn) == Depart(Engine(old(State()), p, old(drawn)), Draws())
    {
      var nextArrivalTime, nextServiceEndTime := p.nextArrivalTime, p.nextServiceEndTime;
      currentTime := nextServiceEndTime.t;
      serverBusy := false;
      totalCustomersServed := totalCustomersServed + 1;
      if queueLength > 0 {
        queueLength := queueLength - 1;
        serverBusy := true;
        var serviceTime := GenerateServiceTime();
        var customer := BeginService(customers[totalCustomersServed], currentTime, serviceTime);
        customers := customers[totalCustomersServed := customer];
        nextServiceEndTime := Finite(customer.serviceEndTime);
      } else {
        nextServiceEndTime := Inf;
      }
      p' := Pending(nextArrivalTime, nextServiceEndTime);
    }

    /** The three appends that end the loop body (exam/answer9.py:77-79). */
    method RecordSample()
      modifies this`queueHistory, this`timeHistory, this`serverStatusHistory
      ensures State() == Record(old(State()))
    {
      queueHistory := queueHistory + [queueLength];
      timeHistory := timeHistory + [currentTime];
      serverStatusHistory := serverStatusHistory + [if serverBusy then 1 else 0];
    }

    /** One iteration of the `while` loop of `run_simulation`, on the
        object's fields, with the two pending instants passed in and out. */
    method Step(p: Pending) returns (p': Pending)
      requires Inv(Engine(State(), p, drawn))
      modifies this
      ensures Engine(State(), p', drawn) == Iterate(Engine(old(State()), p, old(drawn)), Draws())
    {
      ghost var e := Engine(State(), p, drawn);
      if ArrivalFirst(p.nextArrivalTime, p.nextServiceEndTime) {
        p' := ProcessArrival(p);
      } else {
        DepartFacts(e, Draws());
        p' := ProcessDeparture(p);
      }
      assert Engine(State(), p', drawn) == Event(e, Draws());
      RecordSample();
    }

    /** The `while` loop of `run_simulation`, allowed at most `fuel`
        iterations, on the object's fields: it reaches the state of `Run`. */
    method EventLoop(p: Pending, fuel: nat) returns (p': Pending)
      requires Inv(Engine(State(), p, drawn))
      modifies this
      ensures Engine(State(), p', drawn) == Run(Engine(old(State()), p, old(drawn)), Draws(), fuel)
    {
      ghost var start := Engine(State(), p, drawn);
      p' := p;
      var left := fuel;
      while totalCustomersServed < maxCustomers && left > 0
        invariant Inv(Engine(State(), p', drawn))
        invariant Run(Engine(State(), p', drawn), Draws(), left) == Run(start, Draws(), fuel)
        decreases left
      {
        p' := Step(p');
        left := left - 1;
      }
    }

    /** `run_simulation` up to its statistics: the first arrival is one
        inter-arrival draw after time zero, and then the loop runs, for at
        most `fuel` iterations, reaching the state of `Run` from `Start`.
        It reports whether `max_customers` customers are served. */
    method RunEvents(fuel: nat) returns (finished: bool)
      requires Valid() && NotInterrupted()
      modifies this
      ensures Valid()
      ensures old(totalCustomersServed) < maxCustomers ==>
        var r := Run(Start(old(State()), Draws(), old(drawn)), Draws(), fuel);
        State() == r.sim && drawn == r.drawn
      ensures finished <==> maxCustomers <= totalCustomersServed
      ensures !finished ==> |queueHistory| == fuel
      ensures finished && old(totalCustomersServed) < maxCustomers ==> totalCustomersServed == maxCustomers
      ensures old(totalCustomersServed) >= maxCustomers ==> State() == old(State()) && drawn == old(drawn) + 1
    {
      var nextArrivalTime := GenerateInterArrivalTime();
      var p := Pending(nextArrivalTime, Inf);
      if totalCustomersServed < maxCustomers {
        ghost var e := Start(State(), Draws(), drawn - 1);
        assert e == Engine(State(), p, drawn);
        RunKeepsInvariant(e, Draws(), fuel);
        RunBound(e, Draws(), fuel);
        RunSamples(e, Draws(), fuel);
        if NonNegative(Draws()) {
          RunKeepsTimeOrder(e, Draws(), fuel);
        }
        p := EventLoop(p, fuel);
      }
      finished := maxCustomers <= totalCustomersServed;
    }

    /** exam/answer9.py `run_simulation`, allowed at most `fuel` iterations:
        the events, then the statistics, as `Simulate` describes them. */
    method RunSimulation(fuel: nat) returns (outcome: RunOutcome)
      requires Valid() && NotInterrupted()
      modifies this
      ensures Valid()
      ensures (State(), drawn, outcome) == Simulate(old(State()), Draws(), old(drawn), fuel)
    {
      var finished := RunEvents(fuel);
      if !finished {
        return FuelExhausted;
      }
      ghost var s := State();
      var statistics := CalculateStatistics();
      assert State() == s.(customers := WithWaitingTimes(s.customers));
      return Finished(statistics);
    }

    /** The `for` loop of exam/answer9.py `calculate_statistics`: writes
        each customer's waiting time and sums waiting and service times in
        ledger order. */
    method WriteWaitingTimes() returns (totalWaitingTime: real, totalServiceTime: real)
      modifies this`customers
      ensures customers == WithWaitingTimes(old(customers))
      ensures totalWaitingTime == TotalWaitingTime(old(customers))
      ensures totalServiceTime == TotalServiceTime(old(customers))
    {
      totalWaitingTime := 0.0;
      totalServiceTime := 0.0;
      ghost var ledger := customers;
      var i := 0;
      while i < |customers|
        invariant 0 <= i <= |customers| == |ledger|
        invariant forall k :: 0 <= k < i ==> customers[k] == ledger[k].(waitingTime := WaitingTime(ledger[k]))
        invariant forall k :: i <= k < |ledger| ==> customers[k] == ledger[k]
        invariant totalWaitingTime == TotalWaitingTime(ledger[..i])
        invariant totalServiceTime == TotalServiceTime(ledger[..i])
      {
        var customer := customers[i];
        customer := customer.(waitingTime := customer.serviceStartTime - customer.arrivalTime);
        customers := customers[i := customer];
        totalWaitingTime := totalWaitingTime + customer.waitingTime;
        totalServiceTime := totalServiceTime + customer.serviceTime;
        assert ledger[..i + 1][..i] == ledger[..i];
        i := i + 1;
      }
      assert ledger[..i] == ledger;
    }

    /** exam/answer9.py `calculate_statistics`: the mean delay divides by
        the ledger size, raising on an empty ledger; the time averages
        divide by the clock, giving infinities or not-a-number on a zero
        clock. */
    method CalculateStatistics() returns (r: Result<Statistics>)
      requires Valid()
      modifies this`customers
      ensures Valid()
      ensures customers == WithWaitingTimes(old(customers))
      ensures r == Summarize(old(customers), currentTime)
      ensures r == Summarize(customers, currentTime)
    {
      ghost var s := State();
      var totalCustomers := |customers|;
      var totalWaitingTime, totalServiceTime := WriteWaitingTimes();
      WaitingTimesKeepFacts(s);
      assert State() == s.(customers := WithWaitingTimes(s.customers));
      if totalCustomers == 0 {
        return Raise(ZeroDivisionError);
      }
      var avgDelay := totalWaitingTime / (totalCustomers as real);
      var avgQueueLength := FloatDivide(totalWaitingTime, currentTime);
      var serverUtilization := FloatDivide(totalServiceTime, currentTime);
      return Ok(Statistics(avgDelay, avgQueueLength, serverUtilization, currentTime));
    }
  }
}
