/**
 The metrics registry: a bounded index of label combinations, kept up to date one call at a time,
 against what the whole history of calls says it should hold.
 */
module Metrics {
  import opened Rows

  type Key = seq<string>

  const MAX_SERIES_PER_METRIC: nat := 256
  const CEILING: nat := MAX_SERIES_PER_METRIC - 1
  const OVERFLOW: string := "other"

  // -- Labels --------------------------------------------------------------------------------

  /** The names of a metric's labels and, unless it is empty, the values each may take; {} permits any. */
  datatype Labelling = Labelling(names: seq<string>, allowed: seq<set<string>>)

  predicate Declared(l: Labelling) {
    l.allowed == [] || |l.allowed| == |l.names|
  }

  predicate Permits(permitted: set<string>, value: string) {
    permitted == {} || value in permitted
  }

  /** `_key`: a value outside its declared set becomes `other`, and the wrong number of values is an error. */
  function KeyOf(l: Labelling, values: seq<string>): (key: Option<Key>)
    requires Declared(l)
    ensures key.Some? <==> |values| == |l.names|
    ensures key.Some? ==>
              |key.value| == |values|
              && forall i | 0 <= i < |values| ::
                   if l.allowed == [] || l.allowed[i] == {} || values[i] in l.allowed[i] then key.value[i] == values[i]
                   else key.value[i] == "other"
  {
    if |values| != |l.names| then None
    else if l.allowed == [] then Some(values)
    else Some(seq(|values|, i requires 0 <= i < |values| => if Permits(l.allowed[i], values[i]) then values[i] else OVERFLOW))
  }

  /** A label that declares its values yields one of them, or `other`: the index cannot outgrow the declaration. */
  lemma KeysStayDeclared(l: Labelling, values: seq<string>, i: nat)
    requires Declared(l) && KeyOf(l, values).Some? && l.allowed != [] && i < |values| && l.allowed[i] != {}
    ensures KeyOf(l, values).value[i] in l.allowed[i] || KeyOf(l, values).value[i] == "other"
  {
  }

  function Other(l: Labelling): Key {
    seq(|l.names|, _ => OVERFLOW)
  }

  // -- What a history of calls says ------------------------------------------------------------

  /** One accepted call: a normalised key and an amount. */
  datatype Entry = Entry(key: Key, amount: real)

  /** The first keys a metric met, as many as it may hold. */
  function Admitted(history: seq<Entry>): seq<Key> {
    if history == [] then []
    else
      var front := Admitted(history[..|history| - 1]);
      var key := history[|history| - 1].key;
      if key in front || |front| >= CEILING then front else front + [key]
  }

  function Landing(admitted: seq<Key>, other: Key, key: Key): Key {
    if key in admitted then key else other
  }

  /** The series a call with this key lands in. */
  function Route(history: seq<Entry>, other: Key, key: Key): Key {
    Landing(Admitted(history), other, key)
  }

  predicate Overflowed(history: seq<Entry>) {
    exists i :: 0 <= i < |history| && history[i].key !in Admitted(history)
  }

  /** The series there are, in the order they came to be. */
  function SeriesOf(history: seq<Entry>, other: Key): seq<Key> {
    if Overflowed(history) && other !in Admitted(history) then Admitted(history) + [other] else Admitted(history)
  }

  function KeySet(keys: seq<Key>): set<Key> {
    set k | k in keys
  }

  /** What one series should hold: the amounts of the calls that land in it, by the whole history's routing. */
  function Held(history: seq<Entry>, other: Key, series: Key): (amounts: seq<real>) {
    HeldBy(history, Admitted(history), other, series)
  }

  function HeldBy(history: seq<Entry>, admitted: seq<Key>, other: Key, series: Key): seq<real> {
    if history == [] then []
    else
      var last := history[|history| - 1];
      HeldBy(history[..|history| - 1], admitted, other, series)
      + if Landing(admitted, other, last.key) == series then [last.amount] else []
  }

  function Sum(amounts: seq<real>): real {
    if amounts == [] then 0.0 else Sum(amounts[..|amounts| - 1]) + amounts[|amounts| - 1]
  }

  /** Keys already seen in a history. */
  function Seen(history: seq<Entry>): set<Key> {
    set i | 0 <= i < |history| :: history[i].key
  }

  predicate Unique(keys: seq<Key>) {
    forall i, j | 0 <= i < j < |keys| :: keys[i] != keys[j]
  }

  lemma {:induction false} UniqueSize(keys: seq<Key>)
    requires Unique(keys)
    ensures |KeySet(keys)| == |keys|
  {
    if keys != [] {
      var front := keys[..|keys| - 1];
      UniqueSize(front);
      assert KeySet(keys) == KeySet(front) + {keys[|keys| - 1]};
    }
  }

  lemma {:induction false} AdmittedIsBounded(history: seq<Entry>)
    ensures Unique(Admitted(history)) && |Admitted(history)| <= CEILING
    ensures |Admitted(history)| < CEILING ==> forall i | 0 <= i < |history| :: history[i].key in Admitted(history)
    ensures forall k | k in Admitted(history) :: k in Seen(history)
  {
    if history != [] {
      var front := history[..|history| - 1];
      AdmittedIsBounded(front);
      assert forall i | 0 <= i < |front| :: front[i] == history[i];
    }
  }

  lemma {:induction false} SubsetSize(a: set<Key>, b: set<Key>)
    requires a <= b
    ensures |a| <= |b|
  {
    if a != {} {
      var k :| k in a;
      SubsetSize(a - {k}, b - {k});
    }
  }

  /** The `i`-th call brought `key` while fewer than 255 others were known. */
  predicate Early(history: seq<Entry>, key: Key, i: nat)
    requires i < |history|
  {
    history[i].key == key && |Seen(history[..i]) - {key}| < 255
  }

  lemma RoomMeansFewSeen(history: seq<Entry>, key: Key)
    requires key !in Admitted(history)
    ensures |Admitted(history)| < CEILING <==> |Seen(history) - {key}| < CEILING
  {
    AdmittedIsBounded(history);
    UniqueSize(Admitted(history));
    if |Admitted(history)| < CEILING {
      assert Seen(history) == KeySet(Admitted(history));
      assert Seen(history) - {key} == Seen(history);
    } else {
      assert KeySet(Admitted(history)) <= Seen(history) - {key};
      SubsetSize(KeySet(Admitted(history)), Seen(history) - {key});
    }
  }

  lemma AdmittedOneMore(history: seq<Entry>, key: Key)
    requires history != []
    ensures var front, last := history[..|history| - 1], history[|history| - 1].key;
            key in Admitted(history) <==> key in Admitted(front) || (key == last && |Admitted(front)| < CEILING)
  {
  }

  lemma EarlyOneMore(history: seq<Entry>, key: Key)
    requires history != []
    ensures var front := history[..|history| - 1];
            (exists i :: 0 <= i < |history| && Early(history, key, i))
            <==> (exists i :: 0 <= i < |front| && Early(front, key, i)) || Early(history, key, |history| - 1)
  {
    hide Early;
    var front := history[..|history| - 1];
    forall i | 0 <= i < |front| ensures Early(front, key, i) <==> Early(history, key, i) {
      EarlyInFront(history, key, i);
    }
  }

  lemma EarlyInFront(history: seq<Entry>, key: Key, i: nat)
    requires i < |history| - 1
    ensures Early(history[..|history| - 1], key, i) <==> Early(history, key, i)
  {
    assert history[..|history| - 1][..i] == history[..i];
  }

  /** A key is admitted exactly when some call brought it while fewer than 255 others were known. */
  lemma {:induction false} AdmittedExactly(history: seq<Entry>, key: Key)
    ensures key in Admitted(history) <==> exists i :: 0 <= i < |history| && Early(history, key, i)
  {
    if history != [] {
      hide Admitted;
      var n := |history| - 1;
      var front := history[..n];
      AdmittedExactly(front, key);
      AdmittedOneMore(history, key);
      EarlyOneMore(history, key);
      if key !in Admitted(front) {
        RoomMeansFewSeen(front, key);
      }
    }
  }

  // -- One more call -----------------------------------------------------------------------------

  lemma MaintainsAdmitted(history: seq<Entry>, e: Entry)
    ensures Admitted(history + [e])
            == if e.key in Admitted(history) || |Admitted(history)| >= CEILING then Admitted(history)
               else Admitted(history) + [e.key]
  {
    assert (history + [e])[..|history|] == history;
  }

  /** Admitting another key moves no earlier call: while there is room, nothing has overflowed. */
  lemma {:induction false} HeldSurvives(history: seq<Entry>, admitted: seq<Key>, key: Key, other: Key, series: Key)
    requires forall i | 0 <= i < |history| :: history[i].key in admitted
    ensures HeldBy(history, admitted + [key], other, series) == HeldBy(history, admitted, other, series)
  {
    if history != [] {
      HeldSurvives(history[..|history| - 1], admitted, key, other, series);
    }
  }

  lemma OneMoreHeld(history: seq<Entry>, e: Entry, other: Key, series: Key)
    ensures var after := history + [e];
            Held(after, other, series)
            == Held(history, other, series) + if Route(after, other, e.key) == series then [e.amount] else []
  {
    var after := history + [e];
    assert after[..|history|] == history;
    MaintainsAdmitted(history, e);
    AdmittedIsBounded(history);
    if Admitted(after) != Admitted(history) {
      HeldSurvives(history, Admitted(history), e.key, other, series);
    }
  }

  lemma OverflowsWhenFull(history: seq<Entry>)
    ensures Overflowed(history) ==> |Admitted(history)| == CEILING
  {
    AdmittedIsBounded(history);
  }

  lemma SeriesAreUnique(history: seq<Entry>, other: Key)
    ensures Unique(SeriesOf(history, other)) && |SeriesOf(history, other)| <= MAX_SERIES_PER_METRIC
    ensures |KeySet(SeriesOf(history, other))| == |SeriesOf(history, other)|
    ensures |SeriesOf(history, other)| >= CEILING <==> |Admitted(history)| == CEILING
  {
    AdmittedIsBounded(history);
    OverflowsWhenFull(history);
    UniqueSize(SeriesOf(history, other));
  }

  lemma OverflowedOneMore(history: seq<Entry>, e: Entry)
    ensures Overflowed(history + [e]) <==> Overflowed(history) || e.key !in Admitted(history + [e])
  {
    var after := history + [e];
    MaintainsAdmitted(history, e);
    AdmittedIsBounded(history);
    if Overflowed(history) {
      var i :| 0 <= i < |history| && history[i].key !in Admitted(history);
      OverflowsWhenFull(history);
      assert after[i].key !in Admitted(after);
    }
    if e.key !in Admitted(after) { assert after[|history|].key !in Admitted(after); }
  }

  /** The index grows by the series the call lands in; where it lands is what the index says. */
  lemma SeriesOneMore(history: seq<Entry>, e: Entry, other: Key)
    ensures var before, after := KeySet(SeriesOf(history, other)), KeySet(SeriesOf(history + [e], other));
            && after == before + {Route(history + [e], other, e.key)}
            && Route(history + [e], other, e.key) == (if e.key in before || |before| < CEILING then e.key else other)
  {
    hide Admitted, Overflowed;
    MaintainsAdmitted(history, e);
    AdmittedIsBounded(history);
    OverflowsWhenFull(history);
    OverflowedOneMore(history, e);
    SeriesAreUnique(history, other);
  }

  // -- What is conserved ------------------------------------------------------------------------

  function Totals(order: seq<Key>, history: seq<Entry>, admitted: seq<Key>, other: Key): real {
    if order == [] then 0.0
    else Totals(order[..|order| - 1], history, admitted, other)
         + Sum(HeldBy(history, admitted, other, order[|order| - 1]))
  }

  function Amounts(history: seq<Entry>): seq<real> {
    seq(|history|, i requires 0 <= i < |history| => history[i].amount)
  }

  lemma SumOneMore(amounts: seq<real>, amount: real)
    ensures Sum(amounts + [amount]) == Sum(amounts) + amount
  {
    assert (amounts + [amount])[..|amounts|] == amounts;
  }

  lemma SumIfLanded(amounts: seq<real>, amount: real, landed: bool)
    ensures Sum(amounts + if landed then [amount] else []) == Sum(amounts) + if landed then amount else 0.0
  {
    if landed { SumOneMore(amounts, amount); } else { assert amounts + [] == amounts; }
  }

  lemma HeldOneMore(history: seq<Entry>, admitted: seq<Key>, other: Key, series: Key)
    requires history != []
    ensures var last := history[|history| - 1];
            HeldBy(history, admitted, other, series)
            == HeldBy(history[..|history| - 1], admitted, other, series)
               + if Landing(admitted, other, last.key) == series then [last.amount] else []
  {
  }

  lemma TotalsSplit(order: seq<Key>, history: seq<Entry>, admitted: seq<Key>, other: Key)
    requires order != []
    ensures Totals(order, history, admitted, other)
            == Totals(order[..|order| - 1], history, admitted, other) + Sum(HeldBy(history, admitted, other, order[|order| - 1]))
  {
  }

  lemma {:induction false} TotalsOneMore(order: seq<Key>, history: seq<Entry>, admitted: seq<Key>, other: Key)
    requires Unique(order) && history != []
    ensures var last := history[|history| - 1];
            Totals(order, history, admitted, other)
            == Totals(order, history[..|history| - 1], admitted, other)
               + if Landing(admitted, other, last.key) in order then last.amount else 0.0
  {
    if order != [] {
      hide Landing, Totals, HeldBy, Sum;
      var rest, series := order[..|order| - 1], order[|order| - 1];
      var front, last := history[..|history| - 1], history[|history| - 1];
      var landing := Landing(admitted, other, last.key);
      TotalsOneMore(rest, history, admitted, other);
      SumIfLanded(HeldBy(front, admitted, other, series), last.amount, landing == series);
      HeldOneMore(history, admitted, other, series);
      TotalsSplit(order, history, admitted, other);
      TotalsSplit(order, front, admitted, other);
      assert landing in order <==> landing in rest || landing == series;
    }
  }

  lemma {:induction false} NothingHeld(order: seq<Key>, admitted: seq<Key>, other: Key)
    ensures Totals(order, [], admitted, other) == 0.0
  {
    if order != [] { NothingHeld(order[..|order| - 1], admitted, other); }
  }

  lemma {:induction false} TotalsConserve(order: seq<Key>, history: seq<Entry>, admitted: seq<Key>, other: Key)
    requires Unique(order)
    requires forall i | 0 <= i < |history| :: Landing(admitted, other, history[i].key) in order
    ensures Totals(order, history, admitted, other) == Sum(Amounts(history))
  {
    hide Landing, Totals, HeldBy;
    if history == [] {
      NothingHeld(order, admitted, other);
    } else {
      var front := history[..|history| - 1];
      TotalsConserve(order, front, admitted, other);
      TotalsOneMore(order, history, admitted, other);
      SumOneMore(Amounts(front), history[|history| - 1].amount);
      assert Amounts(history) == Amounts(front) + [history[|history| - 1].amount];
    }
  }

  /** Nothing is lost and nothing counted twice: the series sum to what was put in. */
  lemma SeriesConserve(history: seq<Entry>, other: Key)
    ensures Totals(SeriesOf(history, other), history, Admitted(history), other) == Sum(Amounts(history))
  {
    SeriesAreUnique(history, other);
    TotalsConserve(SeriesOf(history, other), history, Admitted(history), other);
  }

  /** The amounts of one key's own calls. */
  function Own(history: seq<Entry>, key: Key): seq<real> {
    if history == [] then []
    else Own(history[..|history| - 1], key)
         + if history[|history| - 1].key == key then [history[|history| - 1].amount] else []
  }

  /** An admitted key's series holds that key's calls and no others, whatever else overflowed. */
  lemma AdmittedHoldTheirOwn(history: seq<Entry>, other: Key, key: Key)
    requires key in Admitted(history) && key != other
    ensures Held(history, other, key) == Own(history, key)
  {
    HeldAreOwn(history, Admitted(history), other, key);
  }

  lemma {:induction false} HeldAreOwn(history: seq<Entry>, admitted: seq<Key>, other: Key, key: Key)
    requires key in admitted && key != other
    ensures HeldBy(history, admitted, other, key) == Own(history, key)
  {
    if history != [] {
      HeldAreOwn(history[..|history| - 1], admitted, other, key);
    }
  }

  // -- Counters -----------------------------------------------------------------------------------

  class Counter {
    const labels: Labelling
    var values: map<Key, real>
    ghost var history: seq<Entry>

    /** Every series holds exactly what the history says, and there are no others. */
    ghost predicate Valid()
      reads this
    {
      && Declared(labels)
      && values.Keys == KeySet(SeriesOf(history, Other(labels)))
      && (forall s | s in values :: values[s] == Sum(Held(history, Other(labels), s)))
      && |values| <= MAX_SERIES_PER_METRIC
    }

    constructor (labels: Labelling)
      requires Declared(labels)
      ensures Valid() && this.labels == labels && history == []
    {
      this.labels := labels;
      values, history := map[], [];
    }

    /** False where the original raises; a refused call leaves no trace. */
    method Increment(labelValues: seq<string>, amount: real) returns (ok: bool)
      requires Valid()
      modifies this
      ensures Valid()
      ensures ok <==> amount >= 0.0 && |labelValues| == |labels.names|
      ensures history == old(history) + if ok then [Entry(KeyOf(labels, labelValues).value, amount)] else []
      ensures !ok ==> values == old(values)
    {
      hide KeyOf, SeriesOf, Held, KeySet, Sum;
      if amount < 0.0 { return false; }
      var normalised := KeyOf(labels, labelValues);
      if normalised.None? { return false; }
      var key := normalised.value;
      if key !in values && |values| >= CEILING { key := Other(labels); }
      var held := if key in values then values[key] else 0.0;

      ghost var e := Entry(normalised.value, amount);
      CountOneMore(values, history, e, Other(labels), key);
      values := values[key := held + amount];
      history := history + [e];
      SeriesAreUnique(history, Other(labels));
      return true;
    }

    /** What one series holds; a key that overflowed has none of its own. */
    method Value(labelValues: seq<string>) returns (value: Option<real>)
      requires Valid()
      ensures value.Some? <==> |labelValues| == |labels.names|
      ensures value.Some? ==>
                var key := KeyOf(labels, labelValues).value;
                value.value == (if key in SeriesOf(history, Other(labels)) then Sum(Held(history, Other(labels), key)) else 0.0)
    {
      var normalised := KeyOf(labels, labelValues);
      if normalised.None? { return None; }
      return Some(if normalised.value in values then values[normalised.value] else 0.0);
    }
  }

  /** A series nobody has landed in yet holds nothing. */
  lemma {:induction false} StrangersHoldNothing(history: seq<Entry>, admitted: seq<Key>, other: Key, series: Key)
    requires forall i | 0 <= i < |history| :: Landing(admitted, other, history[i].key) != series
    ensures HeldBy(history, admitted, other, series) == []
  {
    if history != [] {
      StrangersHoldNothing(history[..|history| - 1], admitted, other, series);
    }
  }

  lemma OutsidersHoldNothing(history: seq<Entry>, other: Key, series: Key)
    requires series !in SeriesOf(history, other)
    ensures Held(history, other, series) == []
  {
    StrangersHoldNothing(history, Admitted(history), other, series);
  }

  lemma CountOneMore(values: map<Key, real>, history: seq<Entry>, e: Entry, other: Key, key: Key)
    requires values.Keys == KeySet(SeriesOf(history, other))
    requires forall s | s in values :: values[s] == Sum(Held(history, other, s))
    requires key == if e.key in values || |values.Keys| < CEILING then e.key else other
    ensures var after := history + [e];
            var values' := values[key := (if key in values then values[key] else 0.0) + e.amount];
            && values'.Keys == KeySet(SeriesOf(after, other))
            && forall s | s in values' :: values'[s] == Sum(Held(after, other, s))
  {
    hide SeriesOf, Held, KeySet;
    var after := history + [e];
    var values' := values[key := (if key in values then values[key] else 0.0) + e.amount];
    SeriesOneMore(history, e, other);
    assert key == Route(after, other, e.key);
    forall s | s in values' ensures values'[s] == Sum(Held(after, other, s)) {
      OneMoreHeld(history, e, other, s);
      SumIfLanded(Held(history, other, s), e.amount, key == s);
      if s !in values {
        assert s !in SeriesOf(history, other) by { KeySetHas(SeriesOf(history, other), s); }
        OutsidersHoldNothing(history, other, s);
      }
    }
  }

  lemma KeySetHas(keys: seq<Key>, k: Key)
    ensures k in KeySet(keys) <==> k in keys
  {
  }
}
