/**
 copy_audit_common.py from normalized events on: the summary of one trace, and the verdict
 of comparing a managed trace with a reference trace.
 */
module CopyAudit {

  import opened BufferModel

  datatype EventType = Kernel | MemoryCopy | UnknownEvent

  /** A normalized event.  A memory copy's direction may be the text "unknown". */
  datatype Event = Event(
    eventType: EventType, operation: string, bytes: Option<int>, direction: string,
    source: string, destination: string, frame: Option<int>)

  datatype Signature = Signature(operation: string, bytes: Option<int>, direction: string, source: string,
      destination: string)

  function SignatureOf(e: Event): Signature {
    Signature(e.operation, e.bytes, e.direction, e.source, e.destination)
  }

  function DirectionOf(e: Event): string {
    if e.direction == "" then "unknown" else e.direction
  }

  datatype Total = Total(count: nat, bytes: int)

  /** The counters.  `frames` counts (frame, signature) pairs, which is the source's counter
      per frame id. */
  datatype Counters = Counters(
    kernels: multiset<string>, memcopies: multiset<Signature>, payloads: multiset<(int, string)>,
    frames: multiset<(int, Signature)>, incomplete: multiset<Signature>)
  {
    function Plus(o: Counters): Counters {
      Counters(kernels + o.kernels, memcopies + o.memcopies, payloads + o.payloads, frames + o.frames,
          incomplete + o.incomplete)
    }
  }

  const NO_COUNTERS := Counters(multiset{}, multiset{}, multiset{}, multiset{}, multiset{})

  /** `totals` is the dictionary of counts and bytes per direction. */
  datatype Summary = Summary(
    events: nat, unknown: nat, unknownDirection: nat, counters: Counters, totals: map<string, Total>)

  const NO_EVENTS := Summary(0, 0, 0, NO_COUNTERS, map[])

  // ---------- Merging

  function Touch(totals: map<string, Total>, d: string): Total {
    if d in totals then totals[d] else Total(0, 0)
  }

  function PlusTotals(a: map<string, Total>, b: map<string, Total>): map<string, Total> {
    map d | d in a.Keys + b.Keys :: Total(Touch(a, d).count + Touch(b, d).count, Touch(a, d).bytes + Touch(b, d).bytes)
  }

  /** Adding up two summaries, counter by counter. */
  function Merge(a: Summary, b: Summary): Summary {
    Summary(a.events + b.events, a.unknown + b.unknown, a.unknownDirection + b.unknownDirection,
            a.counters.Plus(b.counters), PlusTotals(a.totals, b.totals))
  }

  lemma TotalsAt(a: map<string, Total>, b: map<string, Total>, d: string)
    ensures d in PlusTotals(a, b) <==> d in a || d in b
    ensures Touch(PlusTotals(a, b), d)
              == Total(Touch(a, d).count + Touch(b, d).count, Touch(a, d).bytes + Touch(b, d).bytes)
  {}

  lemma TotalsCommute(a: map<string, Total>, b: map<string, Total>)
    ensures PlusTotals(a, b) == PlusTotals(b, a)
  {}

  lemma TotalsAssociate(a: map<string, Total>, b: map<string, Total>, c: map<string, Total>)
    ensures PlusTotals(a, PlusTotals(b, c)) == PlusTotals(PlusTotals(a, b), c)
  {
    var left, right := PlusTotals(a, PlusTotals(b, c)), PlusTotals(PlusTotals(a, b), c);
    assert left.Keys == right.Keys;
    forall d | d in left
      ensures left[d] == right[d]
    {
      TotalsAt(a, PlusTotals(b, c), d);
      TotalsAt(b, c, d);
      TotalsAt(PlusTotals(a, b), c, d);
      TotalsAt(a, b, d);
      assert left[d] == Touch(left, d) && right[d] == Touch(right, d);
    }
  }

  lemma CountersAssociate(a: Counters, b: Counters, c: Counters)
    ensures a.Plus(b.Plus(c)) == a.Plus(b).Plus(c)
  {}

  lemma CountersCommute(a: Counters, b: Counters)
    ensures a.Plus(b) == b.Plus(a)
  {}

  lemma MergeAssociates(a: Summary, b: Summary, c: Summary)
    ensures Merge(a, Merge(b, c)) == Merge(Merge(a, b), c)
  {
    TotalsAssociate(a.totals, b.totals, c.totals);
    CountersAssociate(a.counters, b.counters, c.counters);
  }

  lemma MergeCommutes(a: Summary, b: Summary)
    ensures Merge(a, b) == Merge(b, a)
  {
    TotalsCommute(a.totals, b.totals);
    CountersCommute(a.counters, b.counters);
  }

  lemma MergeNothing(a: Summary)
    ensures Merge(a, NO_EVENTS) == a
  {
    assert PlusTotals(a.totals, map[]) == a.totals;
    assert a.counters.Plus(NO_COUNTERS) == a.counters;
  }

  // ---------- The summary of a trace

  /** What one event adds. */
  function One(e: Event, payload: set<int>): Summary {
    match e.eventType
    case Kernel => Summary(1, 0, 0, NO_COUNTERS.(kernels := multiset{e.operation}), map[])
    case UnknownEvent => Summary(1, 1, 0, NO_COUNTERS, map[])
    case MemoryCopy =>
      var d := DirectionOf(e);
      Summary(1, 0, if d == "unknown" then 1 else 0,
              Counters(multiset{}, multiset{SignatureOf(e)},
                       if e.bytes.Some? && e.bytes.value in payload then multiset{(e.bytes.value, d)} else multiset{},
                       if e.frame.Some? then multiset{(e.frame.value, SignatureOf(e))} else multiset{},
                       if e.bytes.None? then multiset{SignatureOf(e)} else multiset{}),
              map[d := Total(1, if e.bytes.Some? then e.bytes.value else 0)])
  }

  function Summarize(events: seq<Event>, payload: set<int>): Summary {
    if events == [] then NO_EVENTS
    else Merge(Summarize(events[..|events| - 1], payload), One(events[|events| - 1], payload))
  }

  /** The accumulating loop of summarize_events. */
  method SummarizeEvents(events: seq<Event>, payload: set<int>) returns (s: Summary)
    ensures s == Summarize(events, payload)
  {
    s := NO_EVENTS;
    for n := 0 to |events|
      invariant s == Summarize(events[..n], payload)
    {
      SummaryOfNext(events, n, payload);
      s := AddEvent(s, events[n], payload);
    }
    assert events[..|events|] == events;
  }

  lemma SummaryOfNext(events: seq<Event>, n: nat, payload: set<int>)
    requires n < |events|
    ensures Summarize(events[..n + 1], payload) == Merge(Summarize(events[..n], payload), One(events[n], payload))
  {
    assert events[..n + 1][..n] == events[..n];
  }

  method AddEvent(before: Summary, e: Event, payload: set<int>) returns (s: Summary)
    ensures s == Merge(before, One(e, payload))
  {
    if e.eventType == MemoryCopy {
      s := AddCopy(before, e, payload);
    } else {
      s := AddOther(before, e, payload);
    }
  }

  lemma PlusEmpty<T>(m: multiset<T>)
    ensures m + multiset{} == m
  {}

  method AddOther(before: Summary, e: Event, payload: set<int>) returns (s: Summary)
    requires e.eventType != MemoryCopy
    ensures s == Merge(before, One(e, payload))
  {
    assert PlusTotals(before.totals, map[]) == before.totals;
    var c := before.counters;
    PlusEmpty(c.kernels);
    PlusEmpty(c.memcopies);
    PlusEmpty(c.payloads);
    PlusEmpty(c.frames);
    PlusEmpty(c.incomplete);
    s := before.(events := before.events + 1);
    if e.eventType == Kernel {
      s := s.(counters := c.(kernels := c.kernels + multiset{e.operation}));
    } else {
      s := s.(unknown := s.unknown + 1);
    }
  }

  lemma PlusOneTotal(totals: map<string, Total>, d: string, t: Total)
    ensures PlusTotals(totals, map[d := t]) ==
            totals[d := Total(Touch(totals, d).count + t.count, Touch(totals, d).bytes + t.bytes)]
  {
    var sum := PlusTotals(totals, map[d := t]);
    assert sum.Keys == totals.Keys + {d};
  }

  method AddCopy(before: Summary, e: Event, payload: set<int>) returns (s: Summary)
    requires e.eventType == MemoryCopy
    ensures s == Merge(before, One(e, payload))
  {
    var d := DirectionOf(e);
    var t := Touch(before.totals, d);
    var bytes := if e.bytes.Some? then e.bytes.value else 0;
    var totals := before.totals[d := Total(t.count + 1, t.bytes + bytes)];
    PlusOneTotal(before.totals, d, Total(1, bytes));
    var counters := CountCopy(before.counters, e, payload);
    s := Summary(before.events + 1, before.unknown, before.unknownDirection + if d == "unknown" then 1 else 0,
        counters, totals);
  }

  method CountCopy(before: Counters, e: Event, payload: set<int>) returns (c: Counters)
    requires e.eventType == MemoryCopy
    ensures c == before.Plus(One(e, payload).counters)
  {
    var sig := SignatureOf(e);
    var payloads, frames, incomplete := before.payloads, before.frames, before.incomplete;
    PlusEmpty(before.kernels);
    PlusEmpty(payloads);
    PlusEmpty(frames);
    PlusEmpty(incomplete);
    if e.bytes.None? {
      incomplete := incomplete + multiset{sig};
    } else if e.bytes.value in payload {
      payloads := payloads + multiset{(e.bytes.value, DirectionOf(e))};
    }
    if e.frame.Some? {
      frames := frames + multiset{(e.frame.value, sig)};
    }
    c := Counters(before.kernels, before.memcopies + multiset{sig}, payloads, frames, incomplete);
  }

  lemma SummarySnoc(a: seq<Event>, e: Event, payload: set<int>)
    ensures Summarize(a + [e], payload) == Merge(Summarize(a, payload), One(e, payload))
  {
    assert (a + [e])[..|a|] == a;
  }

  lemma MergedStep(a: Summary, b: Summary, one: Summary, ab: Summary, whole: Summary, bOne: Summary)
    requires ab == Merge(a, b) && whole == Merge(ab, one) && bOne == Merge(b, one)
    ensures whole == Merge(a, bOne)
  {
    MergeAssociates(a, b, one);
  }

  lemma ConcatenationStep(a: seq<Event>, b: seq<Event>, e: Event, whole: seq<Event>, more: seq<Event>,
      payload: set<int>)
    requires Summarize(a + b, payload) == Merge(Summarize(a, payload), Summarize(b, payload))
    requires whole == a + b + [e] && more == b + [e]
    ensures Summarize(whole, payload) == Merge(Summarize(a, payload), Summarize(more, payload))
  {
    var x, y, z := Summarize(whole, payload), Summarize(more, payload), Summarize(a + b, payload);
    SummarySnoc(a + b, e, payload);
    SummarySnoc(b, e, payload);
    MergedStep(Summarize(a, payload), Summarize(b, payload), One(e, payload), z, x, y);
  }

  lemma LastOut(a: seq<Event>, b: seq<Event>)
    requires b != []
    ensures b == b[..|b| - 1] + [b[|b| - 1]] && a + b == a + b[..|b| - 1] + [b[|b| - 1]]
  {}

  /** The summary of two traces run together is the sum of their summaries. */
  lemma {:induction false} SummaryOfConcatenation(a: seq<Event>, b: seq<Event>, payload: set<int>)
    ensures Summarize(a + b, payload) == Merge(Summarize(a, payload), Summarize(b, payload))
  {
    if b == [] {
      ConcatenationWithNothing(a, b, payload);
    } else {
      SummaryOfConcatenation(a, b[..|b| - 1], payload);
      LastOut(a, b);
      ConcatenationStep(a, b[..|b| - 1], b[|b| - 1], a + b, b, payload);
    }
  }

  lemma ConcatenationWithNothing(a: seq<Event>, b: seq<Event>, payload: set<int>)
    requires b == []
    ensures Summarize(a + b, payload) == Merge(Summarize(a, payload), Summarize(b, payload))
  {
    assert a + b == a;
    assert Summarize(b, payload) == NO_EVENTS;
    MergeNothing(Summarize(a, payload));
  }

  /** Moving an event to the end of a trace does not change its summary. */
  lemma MoveToEnd(a: seq<Event>, e: Event, b: seq<Event>, payload: set<int>)
    ensures Summarize(a + [e] + b, payload) == Summarize(a + b + [e], payload)
  {
    var x, y, z := Summarize(a, payload), Summarize(b, payload), One(e, payload);
    SummarySnoc(a, e, payload);
    SummaryOfConcatenation(a + [e], b, payload);
    SummaryOfConcatenation(a, b, payload);
    SummarySnoc(a + b, e, payload);
    MergeAssociates(x, z, y);
    MergeCommutes(z, y);
    MergeAssociates(x, y, z);
  }

  /** An event taken out of the middle of a trace. */
  lemma TakeOut(b: seq<Event>, e: Event) returns (x: seq<Event>, y: seq<Event>)
    requires e in b
    ensures b == x + [e] + y && multiset(x + y) == multiset(b) - multiset{e}
  {
    var i :| 0 <= i < |b| && b[i] == e;
    x, y := b[..i], b[i + 1..];
    assert b == x + [e] + y;
  }

  /** The summary depends on which events occur how often, not on their order. */
  lemma {:induction false} SummaryOfPermutation(a: seq<Event>, b: seq<Event>, payload: set<int>)
    requires multiset(a) == multiset(b)
    ensures Summarize(a, payload) == Summarize(b, payload)
    decreases |a|
  {
    assert |a| == |multiset(a)| == |b|;
    if a == [] {
    } else {
      var rest, e := a[..|a| - 1], a[|a| - 1];
      assert a == rest + [e];
      assert e in multiset(a) && e in multiset(b);
      assert e in b;
      var x, y := TakeOut(b, e);
      assert multiset(rest) == multiset(a) - multiset{e};
      SummaryOfPermutation(rest, x + y, payload);
      MoveToEnd(x, e, y, payload);
      SummarySnoc(rest, e, payload);
      SummarySnoc(x + y, e, payload);
    }
  }

  lemma {:induction false} ListOf(m: multiset<Event>) returns (s: seq<Event>)
    ensures multiset(s) == m
    decreases |m|
  {
    if m == multiset{} {
      s := [];
    } else {
      var e :| e in m;
      s := ListOf(m - multiset{e});
      s := s + [e];
    }
  }

  /** A trace with more events has a summary with more in it. */
  lemma MoreEvents(a: seq<Event>, b: seq<Event>, payload: set<int>) returns (extra: Summary)
    requires multiset(a) <= multiset(b)
    ensures Summarize(b, payload) == Merge(Summarize(a, payload), extra)
  {
    var c := ListOf(multiset(b) - multiset(a));
    SummaryOfPermutation(b, a + c, payload);
    SummaryOfConcatenation(a, c, payload);
    extra := Summarize(c, payload);
  }

  // ---------- The verdict

  datatype Status = Fail | Inconclusive | Pass

  /** `frames` is None when no frame counts are given.  `confirmed` and `unresolved` count the
      evidence items handed in; `bindingErrors` the problems of the binding reports.
      `upper` and `lower` are the case conversions of the host language. */
  datatype Options = Options(
    payload: set<int>, referenceFrames: Option<int>, managedFrames: Option<int>, maxRateDelta: real,
    adapters: set<string>, requireAdapters: bool, confirmed: nat, unresolved: nat,
    profilerComplete: bool, riskNames: set<string>, bindingErrors: nat,
    upper: string -> string, lower: string -> string)
  {
    /** What build_pair_report answers with ValueError. */
    predicate Acceptable() {
      && (referenceFrames.None? <==> managedFrames.None?)
      && (referenceFrames.Some? && managedFrames.Some? ==> referenceFrames.value > 0 && managedFrames.value > 0)
      && maxRateDelta >= 0.0
    }
  }

  predicate IsAdapter(direction: string, o: Options) {
    o.upper(direction) in o.adapters
  }

  /** A copy of a payload's size with a signature the reference does not show. */
  predicate ExtraCopy(r: Summary, m: Summary, o: Options, sig: Signature) {
    && sig in m.counters.memcopies && sig !in r.counters.memcopies
    && sig.bytes.Some? && sig.bytes.value in o.payload && !IsAdapter(sig.direction, o)
  }

  function RateDelta(r: Summary, m: Summary, o: Options, key: (int, string)): real
    requires o.Acceptable() && o.referenceFrames.Some?
  {
    m.counters.payloads[key] as real / o.managedFrames.value as real
        - r.counters.payloads[key] as real / o.referenceFrames.value as real
  }

  predicate RateExceeded(r: Summary, m: Summary, o: Options, key: (int, string))
    requires o.Acceptable() && o.referenceFrames.Some?
  {
    key.0 in o.payload && (key in r.counters.payloads || key in m.counters.payloads)
    && RateDelta(r, m, o, key) > o.maxRateDelta && !IsAdapter(key.1, o)
  }

  ghost predicate Fails(r: Summary, m: Summary, o: Options)
    requires o.Acceptable()
  {
    || o.confirmed > 0
    || (exists sig :: ExtraCopy(r, m, o, sig))
    || (o.referenceFrames.Some? && exists key :: RateExceeded(r, m, o, key))
  }

  predicate Explainable(s: Summary) {
    s.counters.kernels != multiset{} || s.counters.memcopies != multiset{}
  }

  predicate TraceComplete(r: Summary, m: Summary, o: Options) {
    && o.profilerComplete && Explainable(r) && Explainable(m)
    && r.counters.incomplete == multiset{} && m.counters.incomplete == multiset{}
    && (o.requireAdapters ==> o.adapters <= m.totals.Keys)
  }

  predicate Contains(s: string, part: string) {
    part <= s || (s != [] && Contains(s[1..], part))
  }

  predicate LooksLikePayloadKernel(name: string, o: Options) {
    var n := o.lower(name);
    Contains(n, "copy") || Contains(n, "memcpy") || Contains(n, "memmove") || Contains(n, "blit")
        || Contains(n, "transfer")
  }

  /** A kernel only the managed trace shows, whose name asks for a closer look. */
  predicate RiskyKernel(r: Summary, m: Summary, o: Options, name: string) {
    name in m.counters.kernels && name !in r.counters.kernels
        && (name in o.riskNames || LooksLikePayloadKernel(name, o))
  }

  ghost predicate Unresolved(r: Summary, m: Summary, o: Options) {
    o.unresolved > 0 || exists name :: RiskyKernel(r, m, o, name)
  }

  ghost function Verdict(r: Summary, m: Summary, o: Options): Status
    requires o.Acceptable()
  {
    if Fails(r, m, o) then Fail
    else if !TraceComplete(r, m, o) || o.bindingErrors > 0 || Unresolved(r, m, o) then Inconclusive
    else Pass
  }

  // ---------- build_pair_report

  function Keys<T>(m: multiset<T>): set<T> {
    set x | x in m
  }

  /** The loop over the managed-only signatures: how many failures it appends. */
  method CountExtraCopies(r: Summary, m: Summary, o: Options) returns (failures: nat)
    ensures failures > 0 <==> exists sig :: ExtraCopy(r, m, o, sig)
  {
    failures := 0;
    var left := Keys(m.counters.memcopies);
    while left != {}
      invariant left <= Keys(m.counters.memcopies)
      invariant failures > 0 <==> exists sig :: sig in Keys(m.counters.memcopies) - left && ExtraCopy(r, m, o, sig)
      decreases |left|
    {
      var sig :| sig in left;
      left := left - {sig};
      if sig !in r.counters.memcopies && sig.bytes.Some? && sig.bytes.value in o.payload
          && !IsAdapter(sig.direction, o) {
        assert ExtraCopy(r, m, o, sig) && sig in Keys(m.counters.memcopies) - left;
        failures := failures + 1;
      }
    }
    forall sig | ExtraCopy(r, m, o, sig)
      ensures sig in Keys(m.counters.memcopies) - left
    {
    }
  }

  /** The loop over the payload keys of both lanes. */
  method CountExceededRates(r: Summary, m: Summary, o: Options) returns (failures: nat)
    requires o.Acceptable() && o.referenceFrames.Some?
    ensures failures > 0 <==> exists key :: RateExceeded(r, m, o, key)
  {
    failures := 0;
    var all := Keys(r.counters.payloads) + Keys(m.counters.payloads);
    var left := all;
    while left != {}
      invariant left <= all
      invariant failures > 0 <==> exists key :: key in all - left && RateExceeded(r, m, o, key)
      decreases |left|
    {
      var key :| key in left;
      left := left - {key};
      var withinLimit := RateDelta(r, m, o, key) <= o.maxRateDelta || IsAdapter(key.1, o);
      if !withinLimit && key.0 in o.payload {
        assert RateExceeded(r, m, o, key) && key in all - left;
        failures := failures + 1;
      }
    }
    forall key | RateExceeded(r, m, o, key)
      ensures key in all - left
    {
    }
  }

  method CountRiskyKernels(r: Summary, m: Summary, o: Options) returns (risks: nat)
    ensures risks > 0 <==> exists name :: RiskyKernel(r, m, o, name)
  {
    risks := 0;
    var left := Keys(m.counters.kernels);
    while left != {}
      invariant left <= Keys(m.counters.kernels)
      invariant risks > 0 <==> exists name :: name in Keys(m.counters.kernels) - left && RiskyKernel(r, m, o, name)
      decreases |left|
    {
      var name :| name in left;
      left := left - {name};
      if name !in r.counters.kernels && (name in o.riskNames || LooksLikePayloadKernel(name, o)) {
        assert RiskyKernel(r, m, o, name) && name in Keys(m.counters.kernels) - left;
        risks := risks + 1;
      }
    }
    forall name | RiskyKernel(r, m, o, name)
      ensures name in Keys(m.counters.kernels) - left
    {
    }
  }

  /** None stands for ValueError. */
  method BuildPairReport(reference: seq<Event>, managed: seq<Event>, o: Options) returns (status: Option<Status>)
    ensures status.Some? <==> o.Acceptable()
    ensures status.Some? ==> status.value == Verdict(Summarize(reference, o.payload), Summarize(managed, o.payload), o)
  {
    if !o.Acceptable() {
      return None;
    }
    var r := SummarizeEvents(reference, o.payload);
    var m := SummarizeEvents(managed, o.payload);
    var decided := Decide(r, m, o);
    status := Some(decided);
  }

  method Decide(r: Summary, m: Summary, o: Options) returns (status: Status)
    requires o.Acceptable()
    ensures status == Verdict(r, m, o)
  {
    var extra := CountExtraCopies(r, m, o);
    var exceeded := 0;
    if o.referenceFrames.Some? {
      exceeded := CountExceededRates(r, m, o);
    }
    var risks := CountRiskyKernels(r, m, o);
    assert extra + exceeded + o.confirmed > 0 <==> Fails(r, m, o);
    assert risks + o.unresolved > 0 <==> Unresolved(r, m, o);
    if extra + exceeded + o.confirmed > 0 {
      status := Fail;
    } else if !TraceComplete(r, m, o) || o.bindingErrors > 0 || risks + o.unresolved > 0 {
      status := Inconclusive;
    } else {
      status := Pass;
    }
  }

  // ---------- What the verdict depends on

  /** Reordering either trace does not change the verdict. */
  lemma VerdictIgnoresOrder(r: seq<Event>, m: seq<Event>, r': seq<Event>, m': seq<Event>, o: Options)
    requires o.Acceptable() && multiset(r) == multiset(r') && multiset(m) == multiset(m')
    ensures Verdict(Summarize(r, o.payload), Summarize(m, o.payload), o)
              == Verdict(Summarize(r', o.payload), Summarize(m', o.payload), o)
  {
    SummaryOfPermutation(r, r', o.payload);
    SummaryOfPermutation(m, m', o.payload);
  }

  lemma QuotientMonotone(a: real, b: real, d: real)
    requires a <= b && d > 0.0
    ensures a / d <= b / d
  {
    var x, y := a / d, b / d;
    assert x * d == a && y * d == b;
    assert (x - y) * d == a - b;
    assert x > y ==> (x - y) * d > 0.0;
  }

  /** A rate can only exceed a limit of at least zero if the managed lane has such a copy. */
  lemma RateWithoutManaged(r: Summary, m: Summary, o: Options, key: (int, string))
    requires o.Acceptable() && o.referenceFrames.Some? && key !in m.counters.payloads
    ensures RateDelta(r, m, o, key) <= 0.0
  {
    QuotientMonotone(0.0, r.counters.payloads[key] as real, o.referenceFrames.value as real);
  }

  lemma RateStaysExceeded(r: Summary, m: Summary, r': Summary, m': Summary, o: Options, key: (int, string))
    requires o.Acceptable() && o.referenceFrames.Some? && RateExceeded(r, m, o, key)
    requires r'.counters.payloads <= r.counters.payloads && m.counters.payloads <= m'.counters.payloads
    ensures RateExceeded(r', m', o, key)
  {
    QuotientMonotone(m.counters.payloads[key] as real, m'.counters.payloads[key] as real,
        o.managedFrames.value as real);
    QuotientMonotone(r'.counters.payloads[key] as real, r.counters.payloads[key] as real,
        o.referenceFrames.value as real);
    if key !in m'.counters.payloads {
      RateWithoutManaged(r', m', o, key);
      assert false;
    }
  }

  /** With frame counts, payload sizes and evidence fixed, a failing comparison keeps failing
      when the managed trace gains events or the reference trace loses some. */
  lemma FailIsMonotone(r: seq<Event>, m: seq<Event>, r': seq<Event>, m': seq<Event>, o: Options)
    requires o.Acceptable() && multiset(r') <= multiset(r) && multiset(m) <= multiset(m')
    requires Verdict(Summarize(r, o.payload), Summarize(m, o.payload), o) == Fail
    ensures Verdict(Summarize(r', o.payload), Summarize(m', o.payload), o) == Fail
  {
    var a, b := Summarize(r, o.payload), Summarize(m, o.payload);
    var a', b' := Summarize(r', o.payload), Summarize(m', o.payload);
    CountersGrow(r', r, o.payload);
    CountersGrow(m, m', o.payload);
    VerdictFails(a, b, o);
    FailStays(a, b, a', b', o);
    VerdictFails(a', b', o);
  }

  lemma VerdictFails(r: Summary, m: Summary, o: Options)
    requires o.Acceptable()
    ensures Verdict(r, m, o) == Fail <==> Fails(r, m, o)
  {}

  lemma CountersGrow(a: seq<Event>, b: seq<Event>, payload: set<int>)
    requires multiset(a) <= multiset(b)
    ensures Summarize(a, payload).counters.payloads <= Summarize(b, payload).counters.payloads
    ensures Summarize(a, payload).counters.memcopies <= Summarize(b, payload).counters.memcopies
  {
    var extra := MoreEvents(a, b, payload);
  }

  lemma FailStays(r: Summary, m: Summary, r': Summary, m': Summary, o: Options)
    requires o.Acceptable() && Fails(r, m, o)
    requires r'.counters.payloads <= r.counters.payloads && m.counters.payloads <= m'.counters.payloads
    requires r'.counters.memcopies <= r.counters.memcopies && m.counters.memcopies <= m'.counters.memcopies
    ensures Fails(r', m', o)
  {
    if o.confirmed > 0 {
    } else if sig :| ExtraCopy(r, m, o, sig) {
      assert sig in m'.counters.memcopies && sig !in r'.counters.memcopies;
      assert ExtraCopy(r', m', o, sig);
    } else {
      var key :| RateExceeded(r, m, o, key);
      RateStaysExceeded(r, m, r', m', o, key);
    }
  }

  /** A trace compared with itself over the same frames fails only on confirmed evidence. */
  lemma SelfComparisonDoesNotFail(t: seq<Event>, u: seq<Event>, o: Options)
    requires o.Acceptable() && multiset(t) == multiset(u) && o.referenceFrames == o.managedFrames && o.confirmed == 0
    ensures Verdict(Summarize(t, o.payload), Summarize(u, o.payload), o) != Fail
  {
    SummaryOfPermutation(t, u, o.payload);
  }
}
