/**
 * The discrete-event core shared by the four simulator variants: orders
 * arrive at a fixed interval, each takes one operator from the pool, holds it
 * for the service time, and on completion is counted and its cycle time
 * (completion minus arrival, so queueing included) is recorded.
 *
 * Time is integer ticks (hundredths of a minute).  The loop visits every tick
 * below the horizon; at each tick it first finishes the orders whose service
 * ends there (each freed operator goes straight to the head of the queue) and
 * then admits the order that arrives there.  SimPy runs same-time events in
 * scheduling order; because grants are FIFO and service times constant, that
 * order never changes when an order starts, so the fixed order here loses
 * nothing.
 */
module OrderFlow {
  import opened Numeric
  import opened Resources
  import opened Stats

  /** An order that holds an operator: its 0-based sequence number and the tick its service began. */
  datatype Job = Job(id: nat, start: nat)

  /**
   * What distinguishes the variants: operator count, service ticks, arrival
   * interval, tick of the first arrival, and how many orders the generator
   * makes (None: it never stops).
   */
  datatype Plan = Plan(capacity: nat, service: nat, interval: nat, firstArrival: nat, limit: Option<nat>)

  predicate PlanOk(p: Plan)
  {
    p.capacity > 0 && p.service > 0 && p.interval > 0
  }

  /** Tick at which order `k` (0-based) arrives: one interval after order `k - 1`. */
  function Arrival(p: Plan, k: nat): nat
  {
    if k == 0 then p.firstArrival else Arrival(p, k - 1) + p.interval
  }

  /** The `k`-th order arrives `k` intervals after the first one. */
  lemma {:induction false} ArrivalClosedForm(p: Plan, k: nat)
    ensures Arrival(p, k) == p.firstArrival + k * p.interval
  {
    if k > 0 {
      ArrivalClosedForm(p, k - 1);
      assert (k - 1) * p.interval + p.interval == k * p.interval;
    }
  }

  /** Arrivals are strictly increasing, at least one interval apart. */
  lemma {:induction false} ArrivalsIncrease(p: Plan, j: nat, k: nat)
    requires PlanOk(p) && j < k
    ensures Arrival(p, j) + p.interval <= Arrival(p, k)
  {
    if j < k - 1 {
      ArrivalsIncrease(p, j, k - 1);
    }
  }

  /** Why a run cannot start or is aborted by SimPy. */
  datatype SimError =
    | ZeroDivision          // efficiency 0: the service time divides by zero
    | NonPositiveCapacity   // simpy.Resource refuses a capacity below 1
    | NegativeDelay         // a negative service time: env.timeout refuses it
    | OffTickGrid           // a service time that is not a whole number of ticks
    | UntilNotAfterNow      // env.run(until) with an `until` that is not after the current time

  /** Service time `base / eff` in ticks, for an order of `base` ticks at efficiency `eff`. */
  function ServiceTicks(base: nat, eff: real): (r: Result<nat, SimError>)
    requires base > 0
    ensures eff == 0.0 ==> r == Err(ZeroDivision)
    ensures eff < 0.0 ==> r == Err(NegativeDelay)
    ensures eff > 0.0 ==> r.Ok? || r == Err(OffTickGrid)
    ensures r.Ok? ==> r.value > 0 && r.value as real * eff == base as real
  {
    if eff == 0.0 then Err(ZeroDivision)
    else if eff < 0.0 then Err(NegativeDelay)
    else
      var t := base as real / eff;
      if t.Floor as real == t then Ok(t.Floor) else Err(OffTickGrid)
  }

  /** The efficiencies the scenarios use give whole tick counts. */
  lemma ScenarioServiceTicks()
    ensures ServiceTicks(1500, 1.0) == Ok(1500) && ServiceTicks(1500, 1.2) == Ok(1250)
    ensures ServiceTicks(1500, 1.25) == Ok(1200) && ServiceTicks(1500, 1.5) == Ok(1000)
    ensures ServiceTicks(1500, 2.0) == Ok(750)
  {
  }

  /** The generator has not yet made all of its orders. */
  predicate MayGenerate(p: Plan, generated: nat)
  {
    p.limit.None? || generated < p.limit.value
  }

  /**
   * The reference schedule of a first-come-first-served pool of `capacity`
   * operators with a constant service time: order `k` starts at its arrival,
   * or when the operator of order `k - capacity` comes free, whichever is
   * later.
   */
  function FifoStart(p: Plan, k: nat): (t: nat)
    requires p.capacity > 0
    ensures t >= Arrival(p, k)
  {
    if k < p.capacity then Arrival(p, k)
    else
      var free := FifoStart(p, k - p.capacity) + p.service;
      if Arrival(p, k) >= free then Arrival(p, k) else free
  }

  lemma {:induction false} FifoStartStep(p: Plan, k: nat)
    requires PlanOk(p)
    ensures FifoStart(p, k) <= FifoStart(p, k + 1)
  {
    if k >= p.capacity {
      FifoStartStep(p, k - p.capacity);
      assert k + 1 - p.capacity == k - p.capacity + 1;
    }
  }

  /** Later orders never start earlier. */
  lemma {:induction false} FifoStartMonotone(p: Plan, j: nat, k: nat)
    requires PlanOk(p) && j <= k
    ensures FifoStart(p, j) <= FifoStart(p, k)
  {
    if j < k {
      FifoStartMonotone(p, j, k - 1);
      FifoStartStep(p, k - 1);
    }
  }

  /**
   * When the operators together free up at least as fast as orders arrive
   * (`service <= capacity × interval`), nobody ever waits: each order starts
   * on arrival.
   */
  lemma {:induction false} FifoStartIsArrival(p: Plan, k: nat)
    requires PlanOk(p) && p.service <= p.capacity * p.interval
    ensures FifoStart(p, k) == Arrival(p, k)
  {
    if k >= p.capacity {
      FifoStartIsArrival(p, k - p.capacity);
      ArrivalClosedForm(p, k);
      ArrivalClosedForm(p, k - p.capacity);
      assert k * p.interval == (k - p.capacity) * p.interval + p.capacity * p.interval;
    }
  }

  /** The orders the generator makes that the reference schedule finishes before `until` are exactly the first `n`. */
  ghost predicate CountsFifo(p: Plan, until: nat, n: nat)
    requires p.capacity > 0
  {
    forall k: nat :: MayGenerate(p, k) ==> (k < n <==> FifoStart(p, k) + p.service < until)
  }

  /**
   * Once the generator has stopped before `until`, the orders it never made
   * cannot finish in time either: a characterisation over the orders made
   * extends to every order it may make.
   */
  lemma CountsFifoBeyondGenerated(p: Plan, until: nat, generated: nat, n: nat)
    requires PlanOk(p)
    requires forall k :: 0 <= k < generated ==> (k < n <==> FifoStart(p, k) + p.service < until)
    requires n <= generated
    requires MayGenerate(p, generated) ==> Arrival(p, generated) >= until
    ensures CountsFifo(p, until, n)
  {
    forall k: nat | MayGenerate(p, k)
      ensures k < n <==> FifoStart(p, k) + p.service < until
    {
      if k > generated {
        ArrivalsIncrease(p, generated, k);
      }
    }
  }

  /** Total time in the system of the first `n` orders of the reference schedule. */
  function FifoCycleTotal(p: Plan, n: nat): int
    requires p.capacity > 0
  {
    if n == 0 then 0 else FifoCycleTotal(p, n - 1) + (FifoStart(p, n - 1) + p.service - Arrival(p, n - 1))
  }

  /** A log holding the reference cycle times of the first orders sums to their reference total. */
  lemma {:induction false} LogSumsToFifoTotal(p: Plan, log: seq<int>)
    requires p.capacity > 0
    requires forall k :: 0 <= k < |log| ==> log[k] == FifoStart(p, k) + p.service - Arrival(p, k)
    ensures SumInts(log) == FifoCycleTotal(p, |log|)
  {
    if log != [] {
      LogSumsToFifoTotal(p, log[..|log| - 1]);
    }
  }

  /** Without waiting, `n` orders spend `n` service times in the system. */
  lemma {:induction false} FifoTotalWithoutWaiting(p: Plan, n: nat)
    requires PlanOk(p) && p.service <= p.capacity * p.interval
    ensures FifoCycleTotal(p, n) == n * p.service
  {
    if n > 0 {
      FifoTotalWithoutWaiting(p, n - 1);
      FifoStartIsArrival(p, n - 1);
    }
  }

  /** When nobody waits and the last order the generator makes finishes before `until`, all of them are counted. */
  lemma CountsAllWithoutWaiting(p: Plan, until: nat, n: nat)
    requires PlanOk(p) && p.service <= p.capacity * p.interval
    requires p.limit.Some? && 0 < p.limit.value && n <= p.limit.value
    requires Arrival(p, p.limit.value - 1) + p.service < until
    requires CountsFifo(p, until, n)
    ensures n == p.limit.value
  {
    FifoStartIsArrival(p, p.limit.value - 1);
    assert MayGenerate(p, p.limit.value - 1);
  }

  /** After `processed` finished orders, the next ones hold operators in id order and the rest wait in id order. */
  ghost predicate FifoLine(generated: nat, processed: nat, line: seq<Job>, queue: seq<nat>)
  {
    generated == processed + |line| + |queue| &&
    (forall i :: 0 <= i < |line| ==> line[i].id == processed + i) &&
    (forall j :: 0 <= j < |queue| ==> queue[j] == processed + |line| + j)
  }

  /**
   * Each order in service started at its reference start time and has not
   * outstayed its service time at `now`; waiting orders have arrived.
   */
  ghost predicate TimingLine(p: Plan, line: seq<Job>, queue: seq<nat>, now: nat)
    requires p.capacity > 0
  {
    (forall i {:trigger line[i]} :: 0 <= i < |line| ==>
      line[i].start == FifoStart(p, line[i].id) && line[i].start <= now <= line[i].start + p.service) &&
    (forall i, j :: 0 <= i < j < |line| ==> line[i].start <= line[j].start) &&
    (forall j {:trigger queue[j]} :: 0 <= j < |queue| ==> Arrival(p, queue[j]) <= now)
  }

  /** The head of the service line is the next order to finish, and the rest of the line keeps both invariants. */
  lemma HeadLeaves(p: Plan, generated: nat, processed: nat, line: seq<Job>, queue: seq<nat>, now: nat)
    requires p.capacity > 0 && line != []
    requires FifoLine(generated, processed, line, queue) && TimingLine(p, line, queue, now)
    ensures line[0].id == processed && line[0].start == FifoStart(p, processed)
    ensures FifoLine(generated, processed + 1, line[1..], queue) && TimingLine(p, line[1..], queue, now)
  {
    var rest := line[1..];
    forall i | 0 <= i < |rest|
      ensures rest[i] == line[i + 1]
    {
    }
  }

  /** `log` holds the reference cycle times of the first orders, each of which has finished by `now`. */
  ghost predicate ReferenceLog(p: Plan, log: seq<int>, now: nat)
    requires p.capacity > 0
  {
    forall k {:trigger log[k]} :: 0 <= k < |log| ==>
      FifoStart(p, k) + p.service <= now && log[k] == FifoStart(p, k) + p.service - Arrival(p, k)
  }

  /** The next order, finishing exactly at `now`, extends the log with its cycle time. */
  lemma LogGrows(p: Plan, log: seq<int>, now: nat)
    requires p.capacity > 0 && ReferenceLog(p, log, now)
    requires FifoStart(p, |log|) + p.service == now
    ensures ReferenceLog(p, log + [now - Arrival(p, |log|)], now)
  {
    var log' := log + [now - Arrival(p, |log|)];
    forall k | 0 <= k < |log'|
      ensures FifoStart(p, k) + p.service <= now && log'[k] == FifoStart(p, k) + p.service - Arrival(p, k)
    {
      if k < |log| {
        assert log'[k] == log[k];
      }
    }
  }

  class OrderEngine {
    const plan: Plan
    const pool: OperatorPool
    const stats: StatsCollector
    /** The next tick to be processed: every event before it has happened. */
    var now: nat
    /** Orders created so far, numbered 0 .. generated - 1. */
    var generated: nat
    var nextArrival: nat
    /** Orders holding an operator, in the order they got it. */
    var inService: seq<Job>
    /** `processed_orders_count` and `total_cycle_time_min` of the source. */
    var processedCount: nat
    var totalCycle: int

    ghost predicate Valid()
      reads this, pool, stats
    {
      ValidHolding(0)
    }

    /**
     * The engine state, with `held` operators still held by orders that have
     * already left the service line (between a completion and its release).
     */
    ghost predicate ValidHolding(held: nat)
      reads this, pool, stats
    {
      PlanOk(plan) && pool.Valid() && stats.Valid() &&
      pool.capacity == plan.capacity && pool.inUse == |inService| + held &&
      GeneratorState() && Fifo() && Timing() && Finished()
    }

    /** The generator has made `generated` orders, the next one due at `nextArrival`. */
    ghost predicate GeneratorState()
      reads this`generated, this`nextArrival, this`now
    {
      nextArrival == Arrival(plan, generated) &&
      (plan.limit.Some? ==> generated <= plan.limit.value) &&
      (MayGenerate(plan, generated) ==> nextArrival >= now) &&
      (generated > 0 ==> Arrival(plan, generated - 1) <= now)
    }

    /** Every order created is finished, in service or waiting, and they are served in arrival order. */
    ghost predicate Fifo()
      reads this`generated, this`processedCount, this`inService, pool`queue
    {
      FifoLine(generated, processedCount, inService, pool.queue)
    }

    /**
     * Each order in service started at its reference start time and has not
     * outstayed its service time; waiting orders have arrived.
     */
    ghost predicate Timing()
      reads this`inService, this`now, pool`queue
    {
      plan.capacity > 0 && TimingLine(plan, inService, pool.queue, now)
    }

    /** Each finished order completed at its reference time, and its logged cycle time runs from its arrival. */
    ghost predicate Finished()
      reads this`processedCount, this`totalCycle, this`now, stats
    {
      plan.capacity > 0 &&
      processedCount == stats.completedOrders && |stats.cycleTimes| == processedCount &&
      totalCycle == SumInts(stats.cycleTimes) && ReferenceLog(plan, stats.cycleTimes, now)
    }

    /** Between ticks: the finished orders are exactly those whose reference completion is before `now`. */
    ghost predicate Settled()
      reads this`generated, this`processedCount, this`now
    {
      plan.capacity > 0 &&
      forall k :: 0 <= k < generated ==> (k < processedCount <==> FifoStart(plan, k) + plan.service < now)
    }

    constructor (plan: Plan)
      requires PlanOk(plan)
      ensures Valid() && Settled() && this.plan == plan && fresh(pool) && fresh(stats)
      ensures now == 0 && generated == 0 && processedCount == 0 && totalCycle == 0
      ensures inService == [] && pool.queue == [] && stats.cycleTimes == []
    {
      this.plan := plan;
      pool := new OperatorPool(plan.capacity);
      stats := new StatsCollector();
      now := 0;
      generated := 0;
      nextArrival := plan.firstArrival;
      inService := [];
      processedCount := 0;
      totalCycle := 0;
    }

    /**
     * Finish the order at the head of the service line, at tick `now`, and
     * pass its operator to the first waiting order, which starts now.
     */
    method CompleteHead()
      requires Valid() && inService != [] && inService[0].start + plan.service == now
      modifies this, pool, stats
      ensures Valid()
      ensures now == old(now) && generated == old(generated) && nextArrival == old(nextArrival)
      ensures processedCount == old(processedCount) + 1
      ensures FifoStart(plan, old(processedCount)) + plan.service == now
      ensures stats.cycleTimes == old(stats.cycleTimes) + [now - Arrival(plan, old(processedCount))]
      ensures totalCycle == old(totalCycle) + (now - Arrival(plan, old(processedCount)))
      ensures old(pool.queue) != [] ==>
        inService == old(inService)[1..] + [Job(old(pool.queue)[0], now)] && pool.queue == old(pool.queue)[1..]
      ensures old(pool.queue) == [] ==> inService == old(inService)[1..] && pool.queue == []
    {
      RecordHead();
      HandOver();
    }

    /** The head order's service ends: count it and log its cycle time; its operator is not yet released. */
    method RecordHead()
      requires Valid() && inService != [] && inService[0].start + plan.service == now
      modifies this, stats
      ensures ValidHolding(1)
      ensures now == old(now) && generated == old(generated) && nextArrival == old(nextArrival)
      ensures processedCount == old(processedCount) + 1
      ensures FifoStart(plan, old(processedCount)) + plan.service == now
      ensures stats.cycleTimes == old(stats.cycleTimes) + [now - Arrival(plan, old(processedCount))]
      ensures totalCycle == old(totalCycle) + (now - Arrival(plan, old(processedCount)))
      ensures inService == old(inService)[1..]
    {
      var job := inService[0];
      var arrival := Arrival(plan, job.id);
      ghost var oldCycles := stats.cycleTimes;
      HeadLeaves(plan, generated, processedCount, inService, pool.queue, now);
      LogGrows(plan, oldCycles, now);
      inService := inService[1..];
      stats.LogOrderCompletion(arrival, now);
      SumIntsAppend(oldCycles, now - arrival);
      processedCount := processedCount + 1;
      totalCycle := totalCycle + (now - arrival);
    }

    /**
     * The freed operator goes to the first waiting order, which starts now;
     * with nobody waiting it becomes free.  `processedCount - 1` is the order
     * that has just finished.
     */
    method HandOver()
      requires ValidHolding(1)
      requires processedCount > 0 && FifoStart(plan, processedCount - 1) + plan.service == now
      modifies this, pool
      ensures Valid()
      ensures now == old(now) && generated == old(generated) && nextArrival == old(nextArrival)
      ensures processedCount == old(processedCount) && totalCycle == old(totalCycle)
      ensures stats.cycleTimes == old(stats.cycleTimes)
      ensures old(pool.queue) != [] ==>
        inService == old(inService) + [Job(old(pool.queue)[0], now)] && pool.queue == old(pool.queue)[1..]
      ensures old(pool.queue) == [] ==> inService == old(inService) && pool.queue == [] && pool.inUse == old(pool.inUse) - 1
    {
      if pool.queue != [] {
        ghost var q := pool.queue[0];
        assert q == processedCount + plan.capacity - 1;
        assert Arrival(plan, q) <= now;
        assert FifoStart(plan, q) == now;
      }
      var next := pool.Release();
      if next.Some? {
        inService := inService + [Job(next.value, now)];
      }
      assert Fifo();
    }

    /** Admit the order that arrives at tick `now`: it requests an operator, and gets one or queues. */
    method Admit()
      requires Valid() && MayGenerate(plan, generated) && nextArrival == now
      requires forall i :: 0 <= i < |inService| ==> inService[i].start + plan.service > now
      modifies this, pool
      ensures Valid()
      ensures now == old(now) && generated == old(generated) + 1 && processedCount == old(processedCount)
      ensures totalCycle == old(totalCycle) && stats.cycleTimes == old(stats.cycleTimes)
      ensures nextArrival == now + plan.interval
      ensures old(pool.inUse) < pool.capacity ==>
        inService == old(inService) + [Job(old(generated), now)] && pool.queue == old(pool.queue)
      ensures old(pool.inUse) == pool.capacity ==>
        inService == old(inService) && pool.queue == old(pool.queue) + [old(generated)]
      ensures forall i :: 0 <= i < |inService| ==> inService[i].start + plan.service > now
    {
      if pool.inUse < pool.capacity {
        AdmitToService();
      } else {
        AdmitToQueue();
      }
    }

    /** An operator is free: the new order takes it and starts at once. */
    method AdmitToService()
      requires Valid() && MayGenerate(plan, generated) && nextArrival == now
      requires pool.inUse < pool.capacity
      requires forall i :: 0 <= i < |inService| ==> inService[i].start + plan.service > now
      modifies this, pool
      ensures Valid()
      ensures now == old(now) && generated == old(generated) + 1 && processedCount == old(processedCount)
      ensures totalCycle == old(totalCycle) && stats.cycleTimes == old(stats.cycleTimes)
      ensures nextArrival == now + plan.interval
      ensures inService == old(inService) + [Job(old(generated), now)] && pool.queue == old(pool.queue)
      ensures forall i :: 0 <= i < |inService| ==> inService[i].start + plan.service > now
    {
      ghost var g := generated;
      if g >= plan.capacity {
        ghost var m := g - plan.capacity;
        assert Finished();
        assert m < processedCount;
        assert stats.cycleTimes[m] == FifoStart(plan, m) + plan.service - Arrival(plan, m);
      }
      assert FifoStart(plan, g) == now;
      var granted := pool.Request(generated);
      assert granted;
      inService := inService + [Job(generated, now)];
      generated := generated + 1;
      nextArrival := nextArrival + plan.interval;
    }

    /** Every operator is busy: the new order joins the back of the queue. */
    method AdmitToQueue()
      requires Valid() && MayGenerate(plan, generated) && nextArrival == now
      requires pool.inUse == pool.capacity
      modifies this, pool
      ensures Valid()
      ensures now == old(now) && generated == old(generated) + 1 && processedCount == old(processedCount)
      ensures totalCycle == old(totalCycle) && stats.cycleTimes == old(stats.cycleTimes)
      ensures nextArrival == now + plan.interval && inService == old(inService)
      ensures pool.queue == old(pool.queue) + [old(generated)]
    {
      var granted := pool.Request(generated);
      assert !granted;
      generated := generated + 1;
      nextArrival := nextArrival + plan.interval;
    }

    /**
     * Process every event of tick `now` and move to the next tick: afterwards
     * the finished orders are exactly those the reference schedule completes
     * before the new `now`.
     */
    method Step()
      requires Valid()
      modifies this, pool, stats
      ensures Valid() && Settled() && now == old(now) + 1
      ensures processedCount >= old(processedCount)
      ensures generated == old(generated) + (if MayGenerate(plan, old(generated)) && old(nextArrival) == old(now) then 1 else 0)
      ensures generated > 0 ==> Arrival(plan, generated - 1) < now
    {
      FinishDue();
      if MayGenerate(plan, generated) && nextArrival == now {
        Admit();
      }
      Tick();
    }

    /**
     * Complete, in FIFO order, every order whose service ends at tick `now`:
     * the newly finished orders are those whose reference completion is `now`.
     */
    method FinishDue()
      requires Valid()
      modifies this, pool, stats
      ensures Valid()
      ensures now == old(now) && generated == old(generated) && nextArrival == old(nextArrival)
      ensures processedCount >= old(processedCount)
      ensures forall k :: old(processedCount) <= k < processedCount ==> FifoStart(plan, k) + plan.service == now
      ensures forall i :: 0 <= i < |inService| ==> inService[i].start + plan.service > now
    {
      while inService != [] && inService[0].start + plan.service == now
        invariant Valid() && now == old(now) && generated == old(generated) && nextArrival == old(nextArrival)
        invariant processedCount >= old(processedCount)
        invariant forall k :: old(processedCount) <= k < processedCount ==> FifoStart(plan, k) + plan.service == now
        decreases |inService| + |pool.queue|
      {
        CompleteHead();
      }
      forall i | 0 <= i < |inService|
        ensures inService[i].start + plan.service > now
      {
        assert inService[0].start <= inService[i].start;
      }
    }

    /**
     * With every due order finished, the finished orders are exactly those
     * whose reference completion is not after `now`: an order still waiting
     * inherits the operator of an order still in service.
     */
    lemma DueSettled()
      requires Valid()
      requires forall i :: 0 <= i < |inService| ==> inService[i].start + plan.service > now
      ensures forall k :: 0 <= k < generated ==> (k < processedCount <==> FifoStart(plan, k) + plan.service <= now)
    {
      forall k | 0 <= k < generated
        ensures k < processedCount <==> FifoStart(plan, k) + plan.service <= now
      {
        assert Timing() && Finished() && Fifo();
        if k < processedCount {
          assert stats.cycleTimes[k] == FifoStart(plan, k) + plan.service - Arrival(plan, k);
        } else if k < processedCount + |inService| {
          var i := k - processedCount;
          assert inService[i].id == k && inService[i].start + plan.service > now;
        } else {
          assert pool.queue[k - processedCount - |inService|] == k;
          assert |inService| == plan.capacity;
          assert inService[0].id == processedCount && inService[0].start + plan.service > now;
          var m := k - plan.capacity;
          FifoStartMonotone(plan, processedCount, m);
          assert FifoStart(plan, k) >= FifoStart(plan, m) + plan.service;
        }
      }
    }

    /** Every event of tick `now` has happened: move the clock on; nothing else changes. */
    method Tick()
      requires Valid()
      requires forall i :: 0 <= i < |inService| ==> inService[i].start + plan.service > now
      requires MayGenerate(plan, generated) ==> nextArrival > now
      modifies this
      ensures Valid() && Settled() && now == old(now) + 1
      ensures generated == old(generated) && processedCount == old(processedCount)
      ensures inService == old(inService) && pool.queue == old(pool.queue) && totalCycle == old(totalCycle)
      ensures generated > 0 ==> Arrival(plan, generated - 1) < now
    {
      DueSettled();
      now := now + 1;
      assert Timing();
      assert Finished();
    }

    /** `env.run(until=...)`: process every tick below `until`. */
    method Run(until: nat)
      requires Valid() && Settled() && now <= until
      modifies this, pool, stats
      ensures Valid() && Settled() && now == until
      ensures processedCount >= old(processedCount)
      ensures old(now) < until && generated > 0 ==> Arrival(plan, generated - 1) < now
      ensures old(now) == until ==> generated == old(generated)
    {
      while now < until
        invariant Valid() && Settled() && now <= until
        invariant processedCount >= old(processedCount)
        invariant old(now) < now && generated > 0 ==> Arrival(plan, generated - 1) < now
        invariant old(now) == now ==> generated == old(generated)
        decreases until - now
      {
        Step();
      }
    }

    /** Every finished order spent at least the service time in the system. */
    lemma TotalCycleAtLeast()
      requires Valid()
      ensures totalCycle >= processedCount * plan.service
    {
      forall k | 0 <= k < |stats.cycleTimes|
        ensures stats.cycleTimes[k] >= plan.service
      {
        assert FifoStart(plan, k) >= Arrival(plan, k);
      }
      SumIntsAtLeast(stats.cycleTimes, plan.service);
    }
  }

  /** What a run leaves behind: the source's two counters, the collector's log and summary, and the orders made. */
  datatype Outcome = Outcome(processedCount: nat, totalCycle: int, cycleTimes: seq<int>, summary: Summary, generated: nat)

  /** The two counters of a run up to `until`, as the reference schedule fixes them. */
  method Counters(plan: Plan, until: nat) returns (count: nat, total: int)
    requires PlanOk(plan)
    ensures plan.limit.Some? ==> count <= plan.limit.value
    ensures CountsFifo(plan, until, count)
    ensures total == FifoCycleTotal(plan, count) && total >= count * plan.service
  {
    var out := Simulate(plan, until);
    count, total := out.processedCount, out.totalCycle;
  }

  /**
   * Build the environment for `plan`, start the generator and run the clock
   * over every tick below `until`.  The orders counted are exactly those the
   * generator makes whose reference completion falls before `until`, each
   * logged with its reference cycle time.
   */
  method Simulate(plan: Plan, until: nat) returns (out: Outcome)
    requires PlanOk(plan)
    ensures out.processedCount <= out.generated
    ensures plan.limit.Some? ==> out.generated <= plan.limit.value
    ensures MayGenerate(plan, out.generated) ==> Arrival(plan, out.generated) >= until
    ensures out.generated > 0 ==> Arrival(plan, out.generated - 1) < until
    ensures CountsFifo(plan, until, out.processedCount)
    ensures |out.cycleTimes| == out.processedCount && out.totalCycle == SumInts(out.cycleTimes)
    ensures forall k :: 0 <= k < |out.cycleTimes| ==> out.cycleTimes[k] == FifoStart(plan, k) + plan.service - Arrival(plan, k)
    ensures out.totalCycle == FifoCycleTotal(plan, out.processedCount)
    ensures out.totalCycle >= out.processedCount * plan.service
    ensures out.summary.achievedThroughput == out.processedCount
    ensures out.summary.averageCycleTimeMin == AverageMinutes(out.cycleTimes)
  {
    var engine := new OrderEngine(plan);
    engine.Run(until);
    engine.TotalCycleAtLeast();
    assert engine.Finished();
    LogSumsToFifoTotal(plan, engine.stats.cycleTimes);
    CountsFifoBeyondGenerated(plan, until, engine.generated, engine.processedCount);
    var summary := engine.stats.GetSummary();
    out := Outcome(engine.processedCount, engine.totalCycle, engine.stats.cycleTimes, summary, engine.generated);
  }
}
