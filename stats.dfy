/**
 * `StatsCollector` of simulation_model.py: a completion counter and the list
 * of per-order cycle times.  Times are integer ticks, one tick being a
 * hundredth of a minute, so a summary average rounded to two decimals of a
 * minute is the average in ticks rounded to a whole tick.
 */
module Stats {
  import opened Numeric

  /** The dictionary `get_summary` returns. */
  datatype Summary = Summary(achievedThroughput: nat, averageCycleTimeMin: real)

  /** Arithmetic mean of a non-empty list of tick counts. */
  function Mean(s: seq<int>): real
    requires s != []
  {
    SumInts(s) as real / |s| as real
  }

  /** The mean of a list whose entries are all at least `lo` is at least `lo`. */
  lemma MeanAtLeast(s: seq<int>, lo: int)
    requires s != []
    requires forall i :: 0 <= i < |s| ==> s[i] >= lo
    ensures Mean(s) >= lo as real
  {
    SumIntsAtLeast(s, lo);
    assert SumInts(s) as real >= (|s| * lo) as real;
  }

  /** The summary average, in minutes, before it leaves the collector. */
  function AverageMinutes(cycleTimes: seq<int>): (avg: real)
    ensures cycleTimes == [] ==> avg == 0.0
    ensures cycleTimes != [] ==> Mean(cycleTimes) - 0.5 <= avg * 100.0 <= Mean(cycleTimes) + 0.5
  {
    if cycleTimes == [] then 0.0 else RoundHalfEven(Mean(cycleTimes)) as real / 100.0
  }

  /** A rounded average never drops below a whole-tick lower bound of every entry. */
  lemma AverageMinutesAtLeast(cycleTimes: seq<int>, lo: int)
    requires cycleTimes != []
    requires forall i :: 0 <= i < |cycleTimes| ==> cycleTimes[i] >= lo
    ensures AverageMinutes(cycleTimes) * 100.0 >= lo as real
  {
    MeanAtLeast(cycleTimes, lo);
    var m := Mean(cycleTimes);
    var r := RoundHalfEven(m);
    assert r as real >= m - 0.5;
    assert r >= lo;
  }

  class StatsCollector {
    var completedOrders: nat
    var cycleTimes: seq<int>

    /** The counter and the list always agree. */
    ghost predicate Valid()
      reads this
    {
      completedOrders == |cycleTimes|
    }

    constructor ()
      ensures Valid() && completedOrders == 0 && cycleTimes == []
    {
      completedOrders := 0;
      cycleTimes := [];
    }

    /** One order finished: count it and record `end - start`. */
    method LogOrderCompletion(startTime: int, endTime: int)
      requires Valid()
      modifies this
      ensures Valid()
      ensures completedOrders == old(completedOrders) + 1
      ensures cycleTimes == old(cycleTimes) + [endTime - startTime]
    {
      completedOrders := completedOrders + 1;
      cycleTimes := cycleTimes + [endTime - startTime];
    }

    /** Throughput and the average cycle time to the nearest hundredth of a minute; reads only. */
    method GetSummary() returns (s: Summary)
      requires Valid()
      ensures s.achievedThroughput == |cycleTimes| && s.averageCycleTimeMin == AverageMinutes(cycleTimes)
      ensures cycleTimes == [] ==> s.averageCycleTimeMin == 0.0
      ensures cycleTimes != [] ==> Mean(cycleTimes) - 0.5 <= s.averageCycleTimeMin * 100.0 <= Mean(cycleTimes) + 0.5
    {
      s := Summary(completedOrders, AverageMinutes(cycleTimes));
    }
  }
}
