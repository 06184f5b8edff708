/**
 * MM1Q.py: the event-by-event M/M/1 simulation. Each customer arrives an
 * exponential inter-arrival time after the previous one and starts service
 * at its arrival or when the previous customer leaves, whichever is later.
 * The exponential samples are passed in: `gaps[k]` is the k-th inter-arrival
 * time drawn and `services[k]` the k-th service time.
 */
module MM1Q {
  import opened Wrappers
  import opened Stats

  datatype Customer = Customer(arrivalDate: real, serviceStartDate: real, serviceTime: real,
                               serviceEndDate: real, wait: real)

  /** `Customer.__init__`: the end of service and the wait follow from the three dates given. */
  function NewCustomer(arrivalDate: real, serviceStartDate: real, serviceTime: real): (c: Customer)
    ensures c.arrivalDate == arrivalDate && c.serviceStartDate == serviceStartDate && c.serviceTime == serviceTime
    ensures c.serviceEndDate - c.serviceStartDate == serviceTime
    ensures c.serviceStartDate - c.arrivalDate == c.wait
  {
    Customer(arrivalDate, serviceStartDate, serviceTime, serviceStartDate + serviceTime, serviceStartDate - arrivalDate)
  }

  /** A customer whose end of service and wait are those `__init__` computes. */
  predicate Consistent(c: Customer)
  {
    c == NewCustomer(c.arrivalDate, c.serviceStartDate, c.serviceTime)
  }

  /**
   * The customers the loop creates from the first |gaps| samples: the first
   * arrives after gaps[0] and is served at once; each later one arrives
   * gaps[k] after the previous and starts at `max(arrival_date,
   * Customers[-1].service_end_date)`.
   */
  function Schedule(gaps: seq<real>, services: seq<real>): (cs: seq<Customer>)
    requires |gaps| == |services|
    ensures |cs| == |gaps|
    decreases |gaps|
  {
    if gaps == [] then []
    else
      var k := |gaps| - 1;
      var before := Schedule(gaps[..k], services[..k]);
      before + [Next(before, gaps[k], services[k])]
  }

  /** The customer created after those in `before`, from the next two samples. */
  function Next(before: seq<Customer>, gap: real, service: real): (c: Customer)
    ensures before == [] ==> c.arrivalDate == gap && c.wait == 0.0
    ensures before != [] ==>
      (c.arrivalDate == before[|before| - 1].arrivalDate + gap &&
       c.serviceStartDate == Max(c.arrivalDate, before[|before| - 1].serviceEndDate))
    ensures Consistent(c) && c.serviceTime == service && c.wait >= 0.0
  {
    if before == [] then NewCustomer(gap, gap, service)
    else
      var previous := before[|before| - 1];
      var arrival := previous.arrivalDate + gap;
      NewCustomer(arrival, Max(arrival, previous.serviceEndDate), service)
  }

  /** One more pair of samples adds one customer. */
  lemma ScheduleStep(gaps: seq<real>, services: seq<real>, i: nat)
    requires |gaps| == |services| && i < |gaps|
    ensures Schedule(gaps[..i + 1], services[..i + 1]) ==
            Schedule(gaps[..i], services[..i]) + [Next(Schedule(gaps[..i], services[..i]), gaps[i], services[i])]
  {
    assert gaps[..i + 1][..i] == gaps[..i] && services[..i + 1][..i] == services[..i];
  }

  /** The k-th customer (from 0) arrives at the sum of the first k + 1 inter-arrival times. */
  lemma {:induction false} ArrivalIsSum(gaps: seq<real>, services: seq<real>, k: nat)
    requires |gaps| == |services| && k < |gaps|
    ensures Schedule(gaps, services)[k].arrivalDate == Sum(gaps[..k + 1])
    decreases |gaps|
  {
    var n := |gaps| - 1;
    if k < n {
      ArrivalIsSum(gaps[..n], services[..n], k);
      assert gaps[..n][..k + 1] == gaps[..k + 1];
    } else if n > 0 {
      ArrivalIsSum(gaps[..n], services[..n], n - 1);
      assert gaps[..n][..n] == gaps[..n];
      assert gaps[..n + 1][..n] == gaps[..n];
    } else {
      assert gaps[..1] == [gaps[0]];
      assert Sum([gaps[0]]) == Sum([]) + gaps[0];
    }
  }

  /** Every scheduled customer is consistent, starts no earlier than it arrives, and the first starts at once. */
  lemma {:induction false} WellFormed(gaps: seq<real>, services: seq<real>)
    requires |gaps| == |services|
    ensures var cs := Schedule(gaps, services);
      (forall k :: 0 <= k < |cs| ==> Consistent(cs[k]) && cs[k].wait >= 0.0) &&
      (|cs| > 0 ==> cs[0].wait == 0.0 && cs[0].serviceStartDate == cs[0].arrivalDate)
    decreases |gaps|
  {
    if gaps != [] {
      var n := |gaps| - 1;
      WellFormed(gaps[..n], services[..n]);
    }
  }

  /**
   * Services never overlap: each customer after the first starts once the
   * previous one has left, and starts exactly then if it arrived earlier.
   */
  ghost predicate BackToBack(cs: seq<Customer>)
  {
    forall k :: 0 < k < |cs| ==>
      cs[k - 1].serviceEndDate <= cs[k].serviceStartDate &&
      cs[k].serviceStartDate == Max(cs[k].arrivalDate, cs[k - 1].serviceEndDate)
  }

  lemma {:induction false} NoOverlap(gaps: seq<real>, services: seq<real>)
    requires |gaps| == |services|
    ensures BackToBack(Schedule(gaps, services))
    decreases |gaps|
  {
    if gaps != [] {
      var n := |gaps| - 1;
      NoOverlap(gaps[..n], services[..n]);
      var before, cs := Schedule(gaps[..n], services[..n]), Schedule(gaps, services);
      assert cs == before + [Next(before, gaps[n], services[n])];
      forall k | 0 < k < |cs|
        ensures cs[k - 1].serviceEndDate <= cs[k].serviceStartDate
        ensures cs[k].serviceStartDate == Max(cs[k].arrivalDate, cs[k - 1].serviceEndDate)
      {
        if k < n {
          assert cs[k] == before[k] && cs[k - 1] == before[k - 1];
        }
      }
    }
  }

  /** Arrival dates and service start dates never go down along cs. */
  ghost predicate InOrder(cs: seq<Customer>)
  {
    forall j, k :: 0 <= j < k < |cs| ==>
      cs[j].arrivalDate <= cs[k].arrivalDate && cs[j].serviceStartDate <= cs[k].serviceStartDate
  }

  /**
   * With non-negative samples (as exponential ones are), arrivals and
   * service starts never go down: customers are served first come, first
   * served.
   */
  lemma {:induction false} FirstComeFirstServed(gaps: seq<real>, services: seq<real>)
    requires |gaps| == |services|
    requires forall k :: 0 <= k < |gaps| ==> 0.0 <= gaps[k] && 0.0 <= services[k]
    ensures InOrder(Schedule(gaps, services))
    decreases |gaps|
  {
    if gaps != [] {
      var n := |gaps| - 1;
      FirstComeFirstServed(gaps[..n], services[..n]);
      var before, cs := Schedule(gaps[..n], services[..n]), Schedule(gaps, services);
      assert cs == before + [Next(before, gaps[n], services[n])];
      if n > 0 {
        WellFormed(gaps, services);
        NoOverlap(gaps, services);
        assert cs[n - 1].serviceStartDate <= cs[n - 1].serviceEndDate <= cs[n].serviceStartDate;
        assert cs[n - 1].arrivalDate <= cs[n].arrivalDate;
      }
      forall j, k | 0 <= j < k < |cs|
        ensures cs[j].arrivalDate <= cs[k].arrivalDate && cs[j].serviceStartDate <= cs[k].serviceStartDate
      {
        if k == n && j < n - 1 {
          assert before[j].arrivalDate <= before[n - 1].arrivalDate;
        }
      }
    }
  }

  /** The customer one pass of the loop creates is the next one of the schedule. */
  lemma StepMatchesSchedule(gaps: seq<real>, services: seq<real>, i: nat, before: seq<Customer>,
                            arrival: real, start: real)
    requires |gaps| == |services| && i < |gaps| && before == Schedule(gaps[..i], services[..i])
    requires i == 0 ==> arrival == gaps[i] && start == arrival
    requires i > 0 ==> arrival == before[i - 1].arrivalDate + gaps[i] &&
                       start == Max(arrival, before[i - 1].serviceEndDate)
    ensures before + [NewCustomer(arrival, start, services[i])] == Schedule(gaps[..i + 1], services[..i + 1])
    ensures i + 1 == |gaps| ==> arrival == Sum(gaps)
  {
    ScheduleStep(gaps, services, i);
    if i + 1 == |gaps| {
      assert gaps[..i + 1] == gaps && services[..i + 1] == services;
      ArrivalIsSum(gaps, services, i);
    }
  }

  /** The loop stops at customer n: all before the last arrived before simulation_time, the last at or after it. */
  ghost predicate StopsAt(cs: seq<Customer>, simulationTime: real)
  {
    (cs == [] <==> simulationTime <= 0.0) &&
    (cs != [] ==> simulationTime <= cs[|cs| - 1].arrivalDate) &&
    forall k :: 0 <= k < |cs| - 1 ==> cs[k].arrivalDate < simulationTime
  }

  /** The samples carry the clock to the end: there are enough of them for the loop to stop. */
  predicate Enough(gaps: seq<real>, simulationTime: real)
  {
    simulationTime <= 0.0 || (gaps != [] && simulationTime <= Sum(gaps))
  }

  /**
   * The loop of `QSim` (lines 33-55): creates customers until the clock t,
   * the latest arrival date, reaches simulation_time. Returns the customers
   * and the final t.
   */
  method Simulate(gaps: seq<real>, services: seq<real>, simulationTime: real)
    returns (customers: seq<Customer>, t: real)
    requires |gaps| == |services| && Enough(gaps, simulationTime)
    ensures |customers| <= |gaps|
    ensures customers == Schedule(gaps[..|customers|], services[..|customers|])
    ensures StopsAt(customers, simulationTime)
    ensures t == if customers == [] then 0.0 else customers[|customers| - 1].arrivalDate
  {
    t := 0.0;
    customers := [];
    var arrival, start := 0.0, 0.0;
    var i := 0;
    while t < simulationTime
      invariant i == |customers| <= |gaps|
      invariant customers == Schedule(gaps[..i], services[..i])
      invariant t == if i == 0 then 0.0 else customers[i - 1].arrivalDate
      invariant i > 0 ==> arrival == t
      invariant i > 0 ==> 0.0 < simulationTime
      invariant forall k :: 0 <= k < i - 1 ==> customers[k].arrivalDate < simulationTime
      invariant i == |gaps| ==> simulationTime <= t
      decreases |gaps| - i
    {
      if |customers| == 0 {
        arrival := gaps[i];
        start := arrival;
      } else {
        arrival := arrival + gaps[i];
        start := Max(arrival, customers[|customers| - 1].serviceEndDate);
      }
      var service := services[i];
      StepMatchesSchedule(gaps, services, i, customers, arrival, start);
      customers := customers + [NewCustomer(arrival, start, service)];
      t := arrival;
      i := i + 1;
    }
  }

  /** The summary statistics of lines 59-68. */
  datatype QueueSummary = QueueSummary(customers: nat, meanServiceTime: real, meanWait: real, meanTime: real,
                                       utilisation: real)

  function Waits(cs: seq<Customer>): (r: seq<real>)
    ensures |r| == |cs| && forall k :: 0 <= k < |cs| ==> r[k] == cs[k].wait
  {
    seq(|cs|, k requires 0 <= k < |cs| => cs[k].wait)
  }

  function ServiceTimes(cs: seq<Customer>): (r: seq<real>)
    ensures |r| == |cs| && forall k :: 0 <= k < |cs| ==> r[k] == cs[k].serviceTime
  {
    seq(|cs|, k requires 0 <= k < |cs| => cs[k].serviceTime)
  }

  /** `Total_Times`: each customer's wait plus its service time. */
  function TotalTimes(cs: seq<Customer>): (r: seq<real>)
    ensures |r| == |cs| && forall k :: 0 <= k < |cs| ==> r[k] == cs[k].wait + cs[k].serviceTime
  {
    seq(|cs|, k requires 0 <= k < |cs| => cs[k].wait + cs[k].serviceTime)
  }

  /**
   * Lines 59-68: `sum(...)/len(...)` of the waits, total times and service
   * times, and `sum(Service_Times)/t`. With no customer the first division
   * raises ZeroDivisionError, and so does the last when t is 0.
   */
  function Summarise(cs: seq<Customer>, t: real): (r: Result<QueueSummary>)
    ensures r.Err? <==> cs == [] || t == 0.0
    ensures r.Ok? ==> r.value.customers == |cs| && r.value.utilisation * t == Sum(ServiceTimes(cs))
    ensures r.Ok? ==> r.value.meanWait * (|cs| as real) == Sum(Waits(cs))
    ensures r.Ok? ==> r.value.meanServiceTime * (|cs| as real) == Sum(ServiceTimes(cs))
  {
    if cs == [] then Err(ZeroDivision)
    else if t == 0.0 then Err(ZeroDivision)
    else
      Ok(QueueSummary(|cs|, Mean(ServiceTimes(cs)).value, Mean(Waits(cs)).value, Mean(TotalTimes(cs)).value,
                      Sum(ServiceTimes(cs)) / t))
  }

  /** The mean time in the system is the mean wait plus the mean service time. */
  lemma MeanTimeAddsUp(cs: seq<Customer>, t: real)
    requires Summarise(cs, t).Ok?
    ensures var s := Summarise(cs, t).value; s.meanTime == s.meanWait + s.meanServiceTime
  {
    assert TotalTimes(cs) == Pointwise(Waits(cs), ServiceTimes(cs));
    MeanPointwise(Waits(cs), ServiceTimes(cs));
  }

  /** For a simulated run the mean wait is never negative. */
  lemma MeanWaitNotNegative(gaps: seq<real>, services: seq<real>, t: real)
    requires |gaps| == |services|
    requires Summarise(Schedule(gaps, services), t).Ok?
    ensures Summarise(Schedule(gaps, services), t).value.meanWait >= 0.0
  {
    var cs := Schedule(gaps, services);
    WellFormed(gaps, services);
    MeanAtLeast(Waits(cs), 0.0);
  }

  /** The service times recorded are the samples drawn, in order. */
  lemma {:induction false} ServiceTimesAreSamples(gaps: seq<real>, services: seq<real>)
    requires |gaps| == |services|
    ensures ServiceTimes(Schedule(gaps, services)) == services
    decreases |gaps|
  {
    if gaps != [] {
      var n := |gaps| - 1;
      ServiceTimesAreSamples(gaps[..n], services[..n]);
      assert services == services[..n] + [services[n]];
    }
  }

  /**
   * With non-negative samples the server works one customer at a time from
   * time 0 on, so all the service delivered fits before the last customer
   * leaves: sum(Service_Times) is at most the last service end date.
   */
  lemma {:induction false} ServiceFitsBeforeLastDeparture(gaps: seq<real>, services: seq<real>)
    requires |gaps| == |services| && gaps != []
    requires forall k :: 0 <= k < |gaps| ==> 0.0 <= gaps[k] && 0.0 <= services[k]
    ensures Sum(ServiceTimes(Schedule(gaps, services))) <= Schedule(gaps, services)[|gaps| - 1].serviceEndDate
    decreases |gaps|
  {
    var n := |gaps| - 1;
    ServiceTimesAreSamples(gaps, services);
    var before := Schedule(gaps[..n], services[..n]);
    assert Schedule(gaps, services) == before + [Next(before, gaps[n], services[n])];
    if n > 0 {
      ServiceFitsBeforeLastDeparture(gaps[..n], services[..n]);
      ServiceTimesAreSamples(gaps[..n], services[..n]);
    }
  }

  /**
   * Utilisation divides by the last arrival date, not by the time the
   * server was open, so it can exceed 1: two customers arriving at 1 and 2
   * who each need 5 give 10/2.
   */
  lemma UtilisationCanExceedOne()
    ensures var cs := Schedule([1.0, 1.0], [5.0, 5.0]);
      StopsAt(cs, 2.0) && cs[1].arrivalDate == 2.0 && Summarise(cs, 2.0).value.utilisation == 5.0
  {
    var cs := Schedule([1.0, 1.0], [5.0, 5.0]);
    assert [1.0, 1.0][..1] == [1.0] && [5.0, 5.0][..1] == [5.0];
    assert [1.0][..0] == [] && [5.0][..0] == [];
    assert cs[0] == NewCustomer(1.0, 1.0, 5.0);
    assert cs[1] == NewCustomer(2.0, 6.0, 5.0);
    ServiceTimesAreSamples([1.0, 1.0], [5.0, 5.0]);
    assert Sum([5.0, 5.0]) == 10.0 by {
      assert [5.0, 5.0][..1] == [5.0];
      assert [5.0][..0] == [];
    }
  }

  /** A simulated run that produced a customer has a positive clock, so only the empty run fails. */
  lemma OnlyEmptyRunFails(cs: seq<Customer>, t: real, simulationTime: real)
    requires StopsAt(cs, simulationTime)
    requires t == if cs == [] then 0.0 else cs[|cs| - 1].arrivalDate
    ensures Summarise(cs, t).Err? <==> simulationTime <= 0.0
  {
  }

  /** A CSV cell: the customer number, a date or duration, or a header name. */
  datatype Cell = Number(n: int) | Quantity(x: real) | Text(s: string)

  const Header: seq<Cell> :=
    [Text("Customer"), Text("Arrival_Date"), Text("Wait"), Text("Service_Start_Date"), Text("Service_Time"),
     Text("Service_End_Date")]

  /** The row written for customer number i (counted from 1). */
  function Row(i: int, c: Customer): (row: seq<Cell>)
    ensures |row| == |Header| && row[0] == Number(i)
  {
    [Number(i), Quantity(c.arrivalDate), Quantity(c.wait), Quantity(c.serviceStartDate), Quantity(c.serviceTime),
     Quantity(c.serviceEndDate)]
  }

  /** Reads a data row back: its number and the customer made from its arrival, start and service. */
  function ParseRow(row: seq<Cell>): (r: Option<(int, Customer)>)
    ensures r.Some? ==> |row| == 6 && Consistent(r.value.1) && row[0] == Number(r.value.0)
  {
    if |row| == 6 && row[0].Number? && row[1].Quantity? && row[2].Quantity? && row[3].Quantity? &&
       row[4].Quantity? && row[5].Quantity? &&
       row[2].x == row[3].x - row[1].x && row[5].x == row[3].x + row[4].x
    then Some((row[0].n, NewCustomer(row[1].x, row[3].x, row[4].x)))
    else None
  }

  /** A row reads back as the customer written, exactly when the customer is consistent. */
  lemma RowRoundTrip(i: int, c: Customer)
    ensures ParseRow(Row(i, c)) == Some((i, c)) <==> Consistent(c)
  {
  }

  /**
   * Lines 85-96: the header, then for each customer in order the row
   * [i, arrival_date, wait, service_start_date, service_time,
   * service_end_date] with i counting from 1.
   */
  method CsvRows(customers: seq<Customer>) returns (rows: seq<seq<Cell>>)
    ensures |rows| == |customers| + 1 && rows[0] == Header
    ensures forall k :: 0 <= k < |customers| ==> rows[k + 1] == Row(k + 1, customers[k])
  {
    rows := [Header];
    var i := 0;
    for k := 0 to |customers|
      invariant i == k && |rows| == k + 1 && rows[0] == Header
      invariant forall j :: 0 <= j < k ==> rows[j + 1] == Row(j + 1, customers[j])
    {
      i := i + 1;
      var c := customers[k];
      rows := rows + [[Number(i), Quantity(c.arrivalDate), Quantity(c.wait), Quantity(c.serviceStartDate),
                       Quantity(c.serviceTime), Quantity(c.serviceEndDate)]];
    }
  }

  /** What `QSim` computes: the customers, the summary statistics and the rows it can write to CSV. */
  datatype Run = Run(customers: seq<Customer>, summary: QueueSummary, rows: seq<seq<Cell>>)

  /**
   * `QSim(lambd, mu, simulation_time)` with its samples given: simulates,
   * summarises, and builds the CSV rows. With no customer (simulation_time
   * not positive) the summary raises ZeroDivisionError.
   */
  method QSim(gaps: seq<real>, services: seq<real>, simulationTime: real) returns (r: Result<Run>)
    requires |gaps| == |services| && Enough(gaps, simulationTime)
    ensures r.Err? <==> simulationTime <= 0.0
    ensures r.Err? ==> r.error == ZeroDivision
    ensures r.Ok? ==> var n := |r.value.customers|;
      0 < n <= |gaps| && r.value.customers == Schedule(gaps[..n], services[..n]) &&
      StopsAt(r.value.customers, simulationTime) &&
      Summarise(r.value.customers, r.value.customers[n - 1].arrivalDate) == Ok(r.value.summary) &&
      |r.value.rows| == n + 1 && r.value.rows[0] == Header &&
      forall k :: 0 <= k < n ==> r.value.rows[k + 1] == Row(k + 1, r.value.customers[k])
  {
    var customers, t := Simulate(gaps, services, simulationTime);
    OnlyEmptyRunFails(customers, t, simulationTime);
    var summary := Summarise(customers, t);
    if summary.Err? {
      return Err(summary.error);
    }
    var rows := CsvRows(customers);
    r := Ok(Run(customers, summary.value, rows));
  }
}
