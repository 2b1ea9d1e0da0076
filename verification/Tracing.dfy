/**
 Trace context, per section 3.2 of W3C Trace Context: reading and writing `traceparent`, deciding
 what is sampled, and the ambient context that makes nested work one trace.
 */
module Tracing {
  import opened Rows

  const VERSION: string := "00"
  const TRACE_ID_HEX: nat := 32
  const SPAN_ID_HEX: nat := 16

  datatype TraceContext = TraceContext(traceId: string, spanId: string, sampled: bool)

  // -- Writing ------------------------------------------------------------------------------------

  function Traceparent(c: TraceContext): string {
    VERSION + "-" + c.traceId + "-" + c.spanId + "-" + if c.sampled then "01" else "00"
  }

  // -- Reading ------------------------------------------------------------------------------------

  predicate IsHexDigit(c: char) {
    '0' <= c <= '9' || 'a' <= c <= 'f'
  }

  predicate IsHex(s: string, length: nat) {
    |s| == length && forall i | 0 <= i < |s| :: IsHexDigit(s[i])
  }

  predicate AllZero(s: string) {
    forall i | 0 <= i < |s| :: s[i] == '0'
  }

  /** An id that is not the one reserved for "invalid". */
  predicate ValidId(s: string, length: nat) {
    IsHex(s, length) && !AllZero(s)
  }

  predicate Valid(c: TraceContext) {
    ValidId(c.traceId, TRACE_ID_HEX) && ValidId(c.spanId, SPAN_ID_HEX)
  }

  function DigitValue(c: char): (value: nat)
    requires IsHexDigit(c)
    ensures value < 16 && "0123456789abcdef"[value] == c
  {
    if c <= '9' then (c - '0') as nat else (c - 'a') as nat + 10
  }

  function HexValue(s: string): nat
    requires forall i | 0 <= i < |s| :: IsHexDigit(s[i])
  {
    if s == "" then 0 else 16 * HexValue(s[..|s| - 1]) + DigitValue(s[|s| - 1])
  }

  /** What `str.strip` takes off. */
  predicate IsSpace(c: char) {
    var code := c as int;
    || 9 <= code <= 13 || 28 <= code <= 32 || code == 0x85 || code == 0xA0 || code == 0x1680
    || 0x2000 <= code <= 0x200A || code == 0x2028 || code == 0x2029 || code == 0x202F || code == 0x205F || code == 0x3000
  }

  function StripLeft(s: string): string {
    if s != "" && IsSpace(s[0]) then StripLeft(s[1..]) else s
  }

  function StripRight(s: string): string {
    if s != "" && IsSpace(s[|s| - 1]) then StripRight(s[..|s| - 1]) else s
  }

  function Strip(s: string): string {
    StripRight(StripLeft(s))
  }

  /** `split("-")`: always at least one part. */
  function Split(s: string): (parts: seq<string>)
    ensures parts != []
  {
    if s == "" then [""]
    else
      var rest := Split(s[1..]);
      if s[0] == '-' then [""] + rest else [[s[0]] + rest[0]] + rest[1..]
  }

  function Parse(raw: Option<string>): Option<TraceContext> {
    if raw.None? || raw.value == "" then None
    else
      var parts := Split(Strip(raw.value));
      if |parts| != 4 then None
      else if parts[0] != VERSION then None
      else if !IsHex(parts[1], TRACE_ID_HEX) || AllZero(parts[1]) then None
      else if !IsHex(parts[2], SPAN_ID_HEX) || AllZero(parts[2]) then None
      else if !IsHex(parts[3], 2) then None
      else Some(TraceContext(parts[1], parts[2], HexValue(parts[3]) % 2 == 1))
  }

  // -- Reading undoes writing ------------------------------------------------------------------------

  predicate NoDash(s: string) {
    forall i | 0 <= i < |s| :: s[i] != '-'
  }

  lemma {:induction false} SplitOnePart(s: string)
    requires NoDash(s)
    ensures Split(s) == [s]
  {
    if s != "" {
      SplitOnePart(s[1..]);
      assert [s[0]] + s[1..] == s;
    }
  }

  lemma {:induction false} SplitFirstPart(part: string, rest: string)
    requires NoDash(part)
    ensures Split(part + "-" + rest) == [part] + Split(rest)
  {
    var s := part + "-" + rest;
    if part == "" {
      assert s[1..] == rest;
    } else {
      SplitFirstPart(part[1..], rest);
      assert s[1..] == part[1..] + "-" + rest;
      assert [part[0]] + part[1..] == part;
    }
  }

  function Joined(a: string, b: string, c: string, d: string): string {
    a + "-" + b + "-" + c + "-" + d
  }

  lemma SplitJoined(a: string, b: string, c: string, d: string)
    requires NoDash(a) && NoDash(b) && NoDash(c) && NoDash(d)
    ensures Split(Joined(a, b, c, d)) == [a, b, c, d]
  {
    hide Split, NoDash;
    SplitOnePart(d);
    SplitFirstPart(c, d);
    SplitFirstPart(b, c + "-" + d);
    SplitFirstPart(a, b + "-" + (c + "-" + d));
    assert Joined(a, b, c, d) == a + "-" + (b + "-" + (c + "-" + d));
  }

  /** Each part behind a dash. */
  function Dashed(parts: seq<string>): string {
    if parts == [] then "" else "-" + (parts[0] + Dashed(parts[1..]))
  }

  function Join(parts: seq<string>): string
    requires parts != []
  {
    parts[0] + Dashed(parts[1..])
  }

  lemma JoinDash(rest: seq<string>)
    requires rest != []
    ensures Join([""] + rest) == "-" + Join(rest)
  {
    assert ([""] + rest)[1..] == rest;
  }

  lemma JoinChar(c: char, rest: seq<string>)
    requires rest != []
    ensures Join([[c] + rest[0]] + rest[1..]) == [c] + Join(rest)
  {
    hide Dashed;
    assert ([[c] + rest[0]] + rest[1..])[1..] == rest[1..];
    assert ([c] + rest[0]) + Dashed(rest[1..]) == [c] + (rest[0] + Dashed(rest[1..]));
  }

  /** Splitting loses nothing. */
  lemma {:induction false} JoinSplit(s: string)
    ensures Join(Split(s)) == s
  {
    if s != "" {
      hide Join;
      var rest := Split(s[1..]);
      JoinSplit(s[1..]);
      JoinDash(rest);
      JoinChar(s[0], rest);
      assert s == [s[0]] + s[1..];
    } else {
      assert Join([""]) == "";
    }
  }

  lemma FourJoin(parts: seq<string>)
    requires |parts| == 4
    ensures Join(parts) == Joined(parts[0], parts[1], parts[2], parts[3])
  {
    assert parts[1..][1..] == parts[2..] && parts[2..][1..] == parts[3..] && parts[3..][1..] == [];
    assert Dashed(parts[3..]) == "-" + parts[3];
    assert Dashed(parts[2..]) == "-" + (parts[2] + ("-" + parts[3]));
  }

  /** Blank on both sides, and nothing else, is what strip takes off. */
  predicate Blank(s: string) {
    forall i | 0 <= i < |s| :: IsSpace(s[i])
  }

  lemma {:induction false} StripLeftOf(left: string, s: string)
    requires Blank(left) && (s != "" ==> !IsSpace(s[0]))
    ensures StripLeft(left + s) == s
  {
    if left == "" {
      assert left + s == s;
    } else {
      assert (left + s)[1..] == left[1..] + s;
      StripLeftOf(left[1..], s);
    }
  }

  lemma {:induction false} StripRightOf(s: string, right: string)
    requires Blank(right) && (s != "" ==> !IsSpace(s[|s| - 1]))
    ensures StripRight(s + right) == s
  {
    if right == "" {
      assert s + right == s;
    } else {
      assert (s + right)[..|s + right| - 1] == s + right[..|right| - 1];
      StripRightOf(s, right[..|right| - 1]);
    }
  }

  lemma HexIsPlain(s: string, length: nat)
    requires IsHex(s, length)
    ensures NoDash(s) && forall i | 0 <= i < |s| :: !IsSpace(s[i])
  {
  }

  lemma FlagsSaySampled(sampled: bool)
    ensures var flags := if sampled then "01" else "00"; IsHex(flags, 2) && (HexValue(flags) % 2 == 1 <==> sampled)
  {
    var flags := if sampled then "01" else "00";
    assert flags[..1] == "0" && "0"[..0] == "";
    assert HexValue("0") == 0;
  }

  /** Reading inverts writing on every valid context, whatever blanks a proxy put around it. */
  lemma ParseInvertsPrinting(c: TraceContext, left: string, right: string)
    requires Valid(c) && Blank(left) && Blank(right)
    ensures Parse(Some(left + Traceparent(c) + right)) == Some(c)
  {
    hide Split, StripLeft, StripRight, HexValue, IsSpace;
    var flags := if c.sampled then "01" else "00";
    var s := Traceparent(c);
    HexIsPlain(c.traceId, TRACE_ID_HEX);
    HexIsPlain(c.spanId, SPAN_ID_HEX);
    FlagsSaySampled(c.sampled);
    SplitJoined(VERSION, c.traceId, c.spanId, flags);
    assert s == Joined(VERSION, c.traceId, c.spanId, flags);
    assert s[0] == '0' && s[|s| - 1] == flags[1] && IsHexDigit(s[0]) && IsHexDigit(flags[1]);
    HexIsPlain([s[0]], 1);
    HexIsPlain([flags[1]], 1);
    assert !IsSpace([s[0]][0]) && !IsSpace([flags[1]][0]);
    assert left + s + right == left + (s + right);
    StripLeftOf(left, s + right);
    StripRightOf(s, right);
  }

  /** So many lower-case hexadecimal digits. */
  predicate HexDigits(s: string, length: nat) {
    |s| == length && forall i | 0 <= i < |s| :: s[i] in "0123456789abcdef"
  }

  lemma HexIsSpelled(s: string, length: nat)
    ensures IsHex(s, length) <==> HexDigits(s, length)
  {
    forall c ensures IsHexDigit(c) <==> c in "0123456789abcdef" {
      if IsHexDigit(c) { assert "0123456789abcdef"[DigitValue(c)] == c; }
    }
  }

  /** The low bit of the last digit. */
  lemma FlagsAreOdd(flags: string)
    requires IsHex(flags, 2)
    ensures HexValue(flags) % 2 == 1 <==> flags[1] in "13579bdf"
  {
    var value := DigitValue(flags[1]);
    assert HexValue(flags) == 16 * HexValue(flags[..1]) + value;
    assert "0123456789abcdef"[value] == flags[1];
    assert value % 2 == 1 <==> value == 1 || value == 3 || value == 5 || value == 7 || value == 9 || value == 11 || value == 13 || value == 15;
    if value % 2 == 1 { assert "13579bdf"[value / 2] == flags[1]; }
  }

  /** A header, stripped, that says `c` with these flags: version 00, two ids that are not all zeros, and the sampled bit. */
  predicate Accepted(s: string, c: TraceContext, flags: string) {
    && HexDigits(c.traceId, 32) && (exists i :: 0 <= i < 32 && c.traceId[i] != '0')
    && HexDigits(c.spanId, 16) && (exists i :: 0 <= i < 16 && c.spanId[i] != '0')
    && HexDigits(flags, 2) && (c.sampled <==> flags[1] in "13579bdf")
    && s == "00" + "-" + c.traceId + "-" + c.spanId + "-" + flags
  }

  lemma AcceptedMeans(s: string, c: TraceContext, flags: string)
    ensures Accepted(s, c, flags) <==>
              && Valid(c) && IsHex(flags, 2) && (c.sampled <==> HexValue(flags) % 2 == 1)
              && s == Joined(VERSION, c.traceId, c.spanId, flags)
  {
    HexIsSpelled(c.traceId, 32);
    HexIsSpelled(c.spanId, 16);
    HexIsSpelled(flags, 2);
    if IsHex(flags, 2) { FlagsAreOdd(flags); }
    hide HexDigits, IsHexDigit, HexValue;
  }

  /** What is accepted is version 00, two valid ids and two hex digits of flags, between blanks; nothing else is. */
  lemma ParseAcceptsExactly(raw: string)
    ensures Parse(Some(raw)).Some? <==>
              exists c: TraceContext, flags: string :: Accepted(Strip(raw), c, flags)
    ensures Parse(Some(raw)).Some? ==> exists flags :: Accepted(Strip(raw), Parse(Some(raw)).value, flags)
  {
    hide Accepted, HexDigits;
    if Parse(Some(raw)).Some? {
      var parts := Split(Strip(raw));
      JoinSplit(Strip(raw));
      FourJoin(parts);
      AcceptedMeans(Strip(raw), Parse(Some(raw)).value, parts[3]);
    }
    if exists c: TraceContext, flags: string :: Accepted(Strip(raw), c, flags) {
      var c: TraceContext, flags: string :| Accepted(Strip(raw), c, flags);
      AcceptedMeans(Strip(raw), c, flags);
      HexIsPlain(c.traceId, TRACE_ID_HEX);
      HexIsPlain(c.spanId, SPAN_ID_HEX);
      HexIsPlain(flags, 2);
      SplitJoined(VERSION, c.traceId, c.spanId, flags);
      assert raw != "" by { StripOfNothing(raw); }
    }
  }

  lemma StripOfNothing(raw: string)
    ensures raw == "" ==> Strip(raw) == ""
  {
  }

  /** What is accepted is printed back the same, but for the blanks around it and the bits of its flags. */
  lemma AcceptedReprints(raw: string)
    requires Parse(Some(raw)).Some?
    ensures var c := Parse(Some(raw)).value;
            exists flags :: Accepted(Strip(raw), c, flags)
                            && Traceparent(c)[..|Traceparent(c)| - 2] == Strip(raw)[..|Strip(raw)| - 2]
  {
    var parts, c := Split(Strip(raw)), Parse(Some(raw)).value;
    JoinSplit(Strip(raw));
    FourJoin(parts);
    AcceptedMeans(Strip(raw), c, parts[3]);
    var head := VERSION + "-" + c.traceId + "-" + c.spanId + "-";
    assert Strip(raw) == head + parts[3];
    assert Traceparent(c) == head + if c.sampled then "01" else "00";
  }

  // -- Sampling --------------------------------------------------------------------------------------

  /** Decided from the low eight digits of the id, as a fraction of their range. */
  predicate SampledByRatio(traceId: string, ratio: real)
    requires IsHex(traceId, TRACE_ID_HEX)
  {
    if ratio >= 1.0 then true
    else if ratio <= 0.0 then false
    else HexValue(traceId[|traceId| - 8..]) as real / 4294967296.0 < ratio
  }

  function PowerOf16(n: nat): nat {
    if n == 0 then 1 else 16 * PowerOf16(n - 1)
  }

  lemma {:induction false} HexIsBounded(s: string)
    requires forall i | 0 <= i < |s| :: IsHexDigit(s[i])
    ensures HexValue(s) < PowerOf16(|s|)
  {
    if s != "" { HexIsBounded(s[..|s| - 1]); }
  }

  /** A digit more is sixteen times as much, and the digit. */
  lemma HexIsPositional(s: string, digit: char)
    requires (forall i | 0 <= i < |s| :: IsHexDigit(s[i])) && IsHexDigit(digit)
    ensures HexValue("") == 0
    ensures var value := HexValue(s + [digit]) - 16 * HexValue(s);
            0 <= value < 16 && "0123456789abcdef"[value] == digit
  {
    hide IsHexDigit;
    assert (s + [digit])[..|s|] == s;
    assert HexValue(s + [digit]) == 16 * HexValue(s) + DigitValue(digit);
  }

  /** A higher ratio records whatever a lower one does, and the two ends are the two extremes of one rule. */
  lemma SamplingIsMonotone(traceId: string, low: real, high: real)
    requires IsHex(traceId, TRACE_ID_HEX) && low <= high
    ensures SampledByRatio(traceId, low) ==> SampledByRatio(traceId, high)
    ensures SampledByRatio(traceId, low) <==> HexValue(traceId[|traceId| - 8..]) as real < low * 4294967296.0
  {
    var tail := traceId[|traceId| - 8..];
    HexIsBounded(tail);
    assert PowerOf16(8) == 4294967296 by { assert PowerOf16(4) == 65536; }
    var value := HexValue(tail) as real;
    assert value < 4294967296.0;
    FractionBelow(value, low);
  }

  lemma FractionBelow(value: real, ratio: real)
    ensures value / 4294967296.0 < ratio <==> value < ratio * 4294967296.0
  {
  }

  // -- Spans ---------------------------------------------------------------------------------------

  /** A traced block: what runs inside it in order, whether it lets an inner exception out, whether it raises itself. */
  datatype Work = Work(parent: Option<TraceContext>, inner: seq<Work>, catches: bool, raises: bool)

  datatype Status = Ok | Error

  datatype Opened = Opened(context: TraceContext, parentSpanId: Option<string>)

  /** What the exporter received: the span's position in opening order, and how it ended. */
  datatype Emitted = Emitted(span: nat, status: Status)

  /** Nothing inside names a parent of its own. */
  predicate Ambient(w: Work) {
    forall i | 0 <= i < |w.inner| :: w.inner[i].parent.None? && Ambient(w.inner[i])
  }

  /** The random ids, in the order they are drawn. */
  datatype Ids = Ids(trace: nat -> string, span: nat -> string)

  class Tracer {
    const enabled: bool
    const ratio: real
    const ids: Ids
    var current: Option<TraceContext>
    var spans: seq<Opened>
    var emitted: seq<Emitted>

    /** The draws are what the generator promises: hex digits. */
    ghost predicate Sound()
    {
      forall n: nat :: IsHex(ids.trace(n), TRACE_ID_HEX)
    }

    constructor (enabled: bool, ratio: real, ids: Ids)
      ensures this.enabled == enabled && this.ratio == ratio && this.ids == ids
      ensures current.None? && spans == [] && emitted == []
    {
      this.enabled, this.ratio, this.ids := enabled, ratio, ids;
      current, spans, emitted := None, [], [];
    }

    /** The spans opened from `n` on belong to one trace. */
    predicate OneTrace(n: nat, traceId: string, sampled: bool)
      reads this`spans
    {
      forall i | n <= i < |spans| :: spans[i].context.traceId == traceId && spans[i].context.sampled == sampled
    }

    /** Each span after the `n`-th hangs off one opened before it, itself the `n`-th or later. */
    predicate Hangs(n: nat)
      reads this`spans
    {
      HangsIn(spans, n)
    }

    /**
     `span`: however the work inside ends, the ambient context is afterwards what it was before.
     Everything opened inside keeps the trace id and the sampling decision of the block's own span,
     which are its parent's if it has one, and hangs under that span.
     */
    method Span(w: Work) returns (raised: bool)
      requires Sound()
      modifies this
      ensures current == old(current)
      ensures old(spans) <= spans && old(emitted) <= emitted
      ensures !enabled ==> spans == old(spans) && emitted == old(emitted)
      ensures enabled ==> |spans| > |old(spans)|
      ensures enabled ==>
                var parent := if w.parent.Some? then w.parent else old(current);
                var root := spans[|old(spans)|];
                && root.parentSpanId == (if parent.Some? then Some(parent.value.spanId) else None)
                && root.context.spanId == ids.span(|old(spans)|)
                && (if parent.Some? then root.context.traceId == parent.value.traceId && root.context.sampled == parent.value.sampled
                    else root.context.traceId == ids.trace(|old(spans)|)
                         && (root.context.sampled <==> SampledByRatio(root.context.traceId, ratio)))
                && (Ambient(w) ==> OneTrace(|old(spans)|, root.context.traceId, root.context.sampled) && Hangs(|old(spans)|))
                && (root.context.sampled ==>
                      |emitted| > |old(emitted)|
                      && emitted[|emitted| - 1] == Emitted(|old(spans)|, if raised then Error else Ok))
      decreases w, 1
    {
      if !enabled {
        raised := Inside(w, 0);
        return;
      }
      var parent := if w.parent.Some? then w.parent else current;
      ghost var before := spans;
      var n := |spans|;
      var context := match parent
        case Some(p) => TraceContext(p.traceId, ids.span(n), p.sampled)
        case None => TraceContext(ids.trace(n), ids.span(n), SampledByRatio(ids.trace(n), ratio));
      spans := spans + [Opened(context, if parent.Some? then Some(parent.value.spanId) else None)];
      var token := current;
      current := Some(context);
      raised := Inside(w, n);
      current := token;
      if context.sampled {
        emitted := emitted + [Emitted(n, if raised then Error else Ok)];
      }
    }

    /** The body of a block, under the span it opened; `n` is that span's place. */
    method Inside(w: Work, ghost n: nat) returns (raised: bool)
      requires Sound()
      requires enabled ==> n == |spans| - 1 && current == Some(spans[n].context)
      modifies this
      ensures current == old(current)
      ensures old(spans) <= spans && old(emitted) <= emitted
      ensures !enabled ==> spans == old(spans) && emitted == old(emitted)
      ensures enabled && Ambient(w) ==> OneTrace(n, spans[n].context.traceId, spans[n].context.sampled) && Hangs(n)
      decreases w, 0
    {
      for k := 0 to |w.inner|
        invariant current == old(current)
        invariant old(spans) <= spans && old(emitted) <= emitted
        invariant !enabled ==> spans == old(spans) && emitted == old(emitted)
        invariant enabled && Ambient(w) ==> OneTrace(n, spans[n].context.traceId, spans[n].context.sampled) && Hangs(n)
      {
        ghost var before := spans;
        var inner := Span(w.inner[k]);
        if enabled && Ambient(w) {
          assert spans[n] == before[n];
          HangsOn(before, spans, n);
        }
        if inner && !w.catches { return true; }
      }
      return w.raises;
    }
  }

  predicate HangsIn(spans: seq<Opened>, n: nat) {
    forall i | n < i < |spans| :: exists j | n <= j < i :: spans[i].parentSpanId == Some(spans[j].context.spanId)
  }

  /** A subtree hung under the `n`-th span hangs with what was already there. */
  lemma HangsOn(before: seq<Opened>, after: seq<Opened>, n: nat)
    requires n < |before| < |after| && before <= after && HangsIn(before, n)
    requires after[|before|].parentSpanId == Some(before[n].context.spanId) && HangsIn(after, |before|)
    ensures HangsIn(after, n)
  {
    forall i | n < i < |after| ensures exists j | n <= j < i :: after[i].parentSpanId == Some(after[j].context.spanId) {
      if i < |before| {
        var j :| n <= j < i && before[i].parentSpanId == Some(before[j].context.spanId);
        assert after[i] == before[i] && after[j] == before[j];
      } else if i == |before| {
        assert after[n] == before[n];
      } else {
        var j :| |before| <= j < i && after[i].parentSpanId == Some(after[j].context.spanId);
      }
    }
  }
}
