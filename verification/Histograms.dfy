/** Histograms: one bucketed object per series, updated in place by every observation. */
module Histograms {
  import opened Rows
  import opened Metrics

  // -- What the buckets say of a list of observations --------------------------------------------

  function AtMost(values: seq<real>, bound: real): (count: nat)
    ensures count <= |values|
  {
    if values == [] then 0
    else AtMost(values[..|values| - 1], bound) + if values[|values| - 1] <= bound then 1 else 0
  }

  /** Each observation at or below the bound counts once, and nothing else does. */
  lemma {:induction false} AtMostCounts(values: seq<real>, bound: real)
    ensures AtMost(values, bound) == |set i | 0 <= i < |values| && values[i] <= bound|
  {
    var counted := set i | 0 <= i < |values| && values[i] <= bound;
    if values == [] {
      assert counted == {};
    } else {
      var n := |values| - 1;
      var before := set i | 0 <= i < n && values[..n][i] <= bound;
      AtMostCounts(values[..n], bound);
      assert counted == before + if values[n] <= bound then {n} else {};
    }
  }

  function CountsOf(bounds: seq<real>, values: seq<real>): seq<nat> {
    seq(|bounds|, i requires 0 <= i < |bounds| => AtMost(values, bounds[i]))
  }

  predicate Ascending(bounds: seq<real>) {
    forall i, j | 0 <= i < j < |bounds| :: bounds[i] <= bounds[j]
  }

  lemma {:induction false} AtMostGrows(values: seq<real>, low: real, high: real)
    requires low <= high
    ensures AtMost(values, low) <= AtMost(values, high)
  {
    if values != [] {
      AtMostGrows(values[..|values| - 1], low, high);
    }
  }

  /** Buckets are cumulative: a later one counts whatever an earlier one does, and none more than there were. */
  lemma BucketsAreCumulative(bounds: seq<real>, values: seq<real>, i: nat, j: nat)
    requires Ascending(bounds) && i <= j < |bounds|
    ensures CountsOf(bounds, values)[i] <= CountsOf(bounds, values)[j] <= |values|
  {
    AtMostGrows(values, bounds[i], bounds[j]);
  }

  lemma AscendingSnoc(sorted: seq<real>, last: real)
    requires Ascending(sorted) && forall b | b in sorted :: b <= last
    ensures Ascending(sorted + [last])
  {
    assert forall i | 0 <= i < |sorted| :: sorted[i] in sorted;
  }

  function Insert(bound: real, sorted: seq<real>): (result: seq<real>)
    requires Ascending(sorted)
    ensures Ascending(result)
    ensures forall b | b in result :: b == bound || b in sorted
    ensures multiset(result) == multiset(sorted) + multiset{bound}
  {
    if sorted == [] then [bound]
    else
      var front, last := sorted[..|sorted| - 1], sorted[|sorted| - 1];
      assert sorted == front + [last];
      if last <= bound then
        AscendingSnoc(sorted, bound);
        sorted + [bound]
      else
        AscendingSnoc(Insert(bound, front), last);
        Insert(bound, front) + [last]
  }

  /** `sorted(buckets)` */
  function Sorted(bounds: seq<real>): (result: seq<real>)
    ensures Ascending(result) && multiset(result) == multiset(bounds)
  {
    if bounds == [] then []
    else
      assert bounds == bounds[..|bounds| - 1] + [bounds[|bounds| - 1]];
      Insert(bounds[|bounds| - 1], Sorted(bounds[..|bounds| - 1]))
  }

  // -- The objects ---------------------------------------------------------------------------------

  class Bucketed {
    var counts: seq<nat>
    var total: real
    var observations: nat

    constructor (size: nat)
      ensures counts == seq(size, _ => 0) && total == 0.0 && observations == 0
    {
      counts, total, observations := seq(size, _ => 0), 0.0, 0;
    }

    ghost predicate Tells(bounds: seq<real>, values: seq<real>)
      reads this
    {
      counts == CountsOf(bounds, values) && total == Sum(values) && observations == |values|
    }

    method Add(bounds: seq<real>, value: real, ghost values: seq<real>)
      requires Tells(bounds, values)
      modifies this
      ensures Tells(bounds, values + [value])
    {
      ghost var after := values + [value];
      assert after[..|values|] == values;
      for index := 0 to |bounds|
        invariant |counts| == |bounds| && total == old(total) && observations == old(observations)
        invariant forall i | 0 <= i < index :: counts[i] == AtMost(after, bounds[i])
        invariant forall i | index <= i < |bounds| :: counts[i] == AtMost(values, bounds[i])
      {
        if value <= bounds[index] {
          counts := counts[index := counts[index] + 1];
        }
      }
      total := total + value;
      observations := observations + 1;
    }
  }

  class Histogram {
    const labels: Labelling
    const buckets: seq<real>
    var series: map<Key, Bucketed>
    ghost var history: seq<Entry>

    ghost function Repr(): set<Bucketed>
      reads this
    {
      set key | key in series :: series[key]
    }

    /** One object per series, none shared, each telling what the history says it holds. */
    ghost predicate Valid()
      reads this, Repr()
    {
      && Declared(labels) && Ascending(buckets)
      && series.Keys == KeySet(SeriesOf(history, Other(labels)))
      && |series| <= MAX_SERIES_PER_METRIC
      && (forall s, s' | s in series && s' in series && series[s] == series[s'] :: s == s')
      && (forall s | s in series :: series[s].Tells(buckets, Held(history, Other(labels), s)))
    }

    constructor (labels: Labelling, bounds: seq<real>)
      requires Declared(labels)
      ensures Valid() && this.labels == labels && history == [] && fresh(Repr())
      ensures multiset(buckets) == multiset(bounds)
    {
      this.labels, buckets := labels, Sorted(bounds);
      series, history := map[], [];
    }

    /** The series a key lands in, made if it is not there. */
    method SeriesFor(key: Key, ghost e: Entry) returns (landed: Key)
      requires Valid() && e.key == key
      modifies this`series
      ensures landed == Route(history + [e], Other(labels), key)
      ensures landed in series && series.Keys == old(series.Keys) + {landed}
      ensures forall s | s in old(series) :: series[s] == old(series[s])
      ensures forall s, s' | s in series && s' in series && series[s] == series[s'] :: s == s'
      ensures landed !in old(series) ==> fresh(series[landed])
      ensures series[landed].Tells(buckets, Held(history, Other(labels), landed))
    {
      hide KeyOf, SeriesOf, Held, KeySet, Sum, CountsOf;
      SeriesOneMore(history, e, Other(labels));
      landed := key;
      if landed !in series && |series| >= CEILING { landed := Other(labels); }
      if landed !in series {
        var made := new Bucketed(|buckets|);
        FreshTells(made, buckets, history, Other(labels), landed);
        series := series[landed := made];
      }
    }

    /** The observation reaches one object; every other series is untouched. */
    method Record(landed: Key, value: real, ghost held: seq<real>)
      requires landed in series && series[landed].Tells(buckets, held)
      requires forall s | s in series && series[s] == series[landed] :: s == landed
      modifies series[landed]
      ensures series[landed].Tells(buckets, held + [value])
      ensures forall s, values | s in series && s != landed && old(series[s].Tells(buckets, values)) ::
                series[s].Tells(buckets, values)
    {
      series[landed].Add(buckets, value, held);
    }

    method Observe(value: real, labelValues: seq<string>) returns (ok: bool)
      requires Valid()
      modifies this, Repr()
      ensures Valid() && fresh(Repr() - old(Repr()))
      ensures ok <==> |labelValues| == |labels.names|
      ensures history == old(history) + if ok then [Entry(KeyOf(labels, labelValues).value, value)] else []
      ensures !ok ==> series == old(series)
    {
      hide KeyOf, SeriesOf, Held, KeySet, Sum, CountsOf, Bucketed.Tells, Ascending, Declared, Admitted, Route, Other;
      var normalised := KeyOf(labels, labelValues);
      if normalised.None? { return false; }
      ghost var e := Entry(normalised.value, value);
      ghost var before, other := history, Other(labels);
      SeriesOneMore(before, e, other);
      SeriesAreUnique(before + [e], other);
      var landed := SeriesFor(normalised.value, e);
      assert forall s | s in series :: series[s].Tells(buckets, Held(before, other, s));
      Record(landed, value, Held(before, other, landed));
      history := history + [e];
      forall s | s in series
        ensures series[s].Tells(buckets, Held(history, other, s))
      {
        HeldAfter(before, e, other, landed, s);
      }
      return true;
    }

    /** `count` and `sum`, of the series a call with these labels would name. */
    method CountAndSum(labelValues: seq<string>) returns (read: Option<(nat, real)>)
      requires Valid()
      ensures read.Some? <==> |labelValues| == |labels.names|
      ensures read.Some? ==>
                var key := KeyOf(labels, labelValues).value;
                var held := Held(history, Other(labels), key);
                read.value == if key in SeriesOf(history, Other(labels)) then (|held|, Sum(held)) else (0, 0.0)
    {
      var normalised := KeyOf(labels, labelValues);
      if normalised.None? { return None; }
      var key := normalised.value;
      KeySetHas(SeriesOf(history, Other(labels)), key);
      if key in series { return Some((series[key].observations, series[key].total)); }
      return Some((0, 0.0));
    }
  }

  lemma HeldAfter(before: seq<Entry>, e: Entry, other: Key, landed: Key, series: Key)
    requires landed == Route(before + [e], other, e.key)
    ensures Held(before + [e], other, series)
            == if series == landed then Held(before, other, series) + [e.amount] else Held(before, other, series)
  {
    OneMoreHeld(before, e, other, series);
    assert Held(before, other, series) + [] == Held(before, other, series);
  }

  lemma FreshTells(made: Bucketed, bounds: seq<real>, history: seq<Entry>, other: Key, series: Key)
    requires made.counts == seq(|bounds|, _ => 0) && made.total == 0.0 && made.observations == 0
    requires series !in KeySet(SeriesOf(history, other))
    ensures made.Tells(bounds, Held(history, other, series))
  {
    KeySetHas(SeriesOf(history, other), series);
    OutsidersHoldNothing(history, other, series);
  }
}
