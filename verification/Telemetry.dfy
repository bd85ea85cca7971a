/** Retry telemetry: one pass over the event log, checked against counts of the log and against the
    retry counters of the tasks. */
module Telemetry {
  import opened TaskModel
  import opened GraphInvariant
  import opened SchedulerSafety
  import opened Scheduler
  import opened SchedulerTheorems

  datatype RetryTelemetry = RetryTelemetry(scheduled: nat, rejected: nat, waitsStarted: nat, waitsCompleted: nat,
                                           waitsCancelled: nat, totalDelay: real, totalJitter: real,
                                           codes: map<string, nat>, reasons: map<RetryReason, nat>)

  function CountIf(events: seq<Event>, p: Event -> bool): nat {
    if events == [] then 0
    else CountIf(events[..|events| - 1], p) + if p(events[|events| - 1]) then 1 else 0
  }

  predicate IsRejection(e: Event) { e.RetryRejected? }

  predicate IsWaitStart(e: Event) { e.WaitStarted? }

  predicate IsWaitEnd(e: Event) { e.WaitCompleted? }

  predicate IsCancelledWait(e: Event) { e.WaitCompleted? && !e.completed }

  /** The event names a retry code. */
  predicate Coded(e: Event) {
    (e.RetryScheduled? || e.RetryRejected?) && e.code != ""
  }

  function CodeCount(events: seq<Event>, code: string): nat {
    if events == [] then 0
    else
      var e := events[|events| - 1];
      CodeCount(events[..|events| - 1], code) + if Coded(e) && e.code == code then 1 else 0
  }

  function ReasonCount(events: seq<Event>, reason: RetryReason): nat {
    if events == [] then 0
    else
      var e := events[|events| - 1];
      ReasonCount(events[..|events| - 1], reason) + if e.RetryRejected? && e.why == reason then 1 else 0
  }

  function NonNegative(x: real): real {
    if x >= 0.0 then x else 0.0
  }

  function DelaySum(events: seq<Event>): real {
    if events == [] then 0.0
    else
      var e := events[|events| - 1];
      DelaySum(events[..|events| - 1]) + if e.RetryScheduled? then NonNegative(e.decision.delay) else 0.0
  }

  function JitterSum(events: seq<Event>): real {
    if events == [] then 0.0
    else
      var e := events[|events| - 1];
      JitterSum(events[..|events| - 1]) + if e.RetryScheduled? then NonNegative(e.decision.jitter) else 0.0
  }

  /** The map holds exactly the keys that occur, each with its number of occurrences. */
  ghost predicate Tallies<K(!new)>(m: map<K, nat>, count: K -> nat) {
    forall k :: (k in m <==> count(k) > 0) && (k in m ==> m[k] == count(k))
  }

  function Increment<K>(m: map<K, nat>, k: K): map<K, nat> {
    m[k := (if k in m then m[k] else 0) + 1]
  }

  lemma IncrementTallies<K(!new)>(m: map<K, nat>, count: K -> nat, k: K, after: K -> nat)
    requires Tallies(m, count)
    requires forall x :: after(x) == count(x) + if x == k then 1 else 0
    ensures Tallies(Increment(m, k), after)
  {
  }

  ghost function CodeCounts(events: seq<Event>): string -> nat {
    c => CodeCount(events, c)
  }

  ghost function ReasonCounts(events: seq<Event>): RetryReason -> nat {
    r => ReasonCount(events, r)
  }

  /** The telemetry of a log, by independent counts. */
  ghost predicate Aggregates(t: RetryTelemetry, events: seq<Event>) {
    && t.scheduled == AllScheduled(events)
    && t.rejected == CountIf(events, IsRejection)
    && t.waitsStarted == CountIf(events, IsWaitStart)
    && t.waitsCompleted == CountIf(events, IsWaitEnd)
    && t.waitsCancelled == CountIf(events, IsCancelledWait)
    && t.totalDelay == DelaySum(events) && t.totalJitter == JitterSum(events)
    && Tallies(t.codes, CodeCounts(events)) && Tallies(t.reasons, ReasonCounts(events))
  }

  /** One event moves the counters. */
  function Observe(t: RetryTelemetry, e: Event): RetryTelemetry {
    match e
    case RetryScheduled(_, code, d) =>
      t.(scheduled := t.scheduled + 1,
         totalDelay := t.totalDelay + NonNegative(d.delay),
         totalJitter := t.totalJitter + NonNegative(d.jitter),
         codes := if code != "" then Increment(t.codes, code) else t.codes)
    case RetryRejected(_, code, why) =>
      t.(rejected := t.rejected + 1,
         codes := if code != "" then Increment(t.codes, code) else t.codes,
         reasons := Increment(t.reasons, why))
    case WaitStarted(_) => t.(waitsStarted := t.waitsStarted + 1)
    case WaitCompleted(_, completed) =>
      t.(waitsCompleted := t.waitsCompleted + 1,
         waitsCancelled := t.waitsCancelled + if completed then 0 else 1)
    case _ => t
  }

  lemma ObserveCodes(t: RetryTelemetry, init: seq<Event>, e: Event)
    requires Tallies(t.codes, CodeCounts(init))
    ensures Tallies(Observe(t, e).codes, CodeCounts(init + [e]))
  {
    hide Tallies, Increment;
    assert (init + [e])[..|init|] == init;
    if Coded(e) {
      IncrementTallies(t.codes, CodeCounts(init), e.code, CodeCounts(init + [e]));
    } else {
      SameTallies(t.codes, CodeCounts(init), CodeCounts(init + [e]));
    }
  }

  lemma ObserveReasons(t: RetryTelemetry, init: seq<Event>, e: Event)
    requires Tallies(t.reasons, ReasonCounts(init))
    ensures Tallies(Observe(t, e).reasons, ReasonCounts(init + [e]))
  {
    hide Tallies, Increment;
    assert (init + [e])[..|init|] == init;
    if e.RetryRejected? {
      IncrementTallies(t.reasons, ReasonCounts(init), e.why, ReasonCounts(init + [e]));
    } else {
      SameTallies(t.reasons, ReasonCounts(init), ReasonCounts(init + [e]));
    }
  }

  lemma ObserveAggregates(t: RetryTelemetry, init: seq<Event>, e: Event)
    requires Aggregates(t, init)
    ensures Aggregates(Observe(t, e), init + [e])
  {
    hide Tallies, Increment, NonNegative, CodeCounts, ReasonCounts;
    assert (init + [e])[..|init|] == init;
    ObserveCodes(t, init, e);
    ObserveReasons(t, init, e);
  }

  lemma SameTallies<K(!new)>(m: map<K, nat>, count: K -> nat, after: K -> nat)
    requires Tallies(m, count) && forall x :: after(x) == count(x)
    ensures Tallies(m, after)
  {
  }

  method AggregateRetryTelemetry(events: seq<Event>) returns (t: RetryTelemetry)
    ensures Aggregates(t, events)
  {
    hide Aggregates, Observe;
    t := RetryTelemetry(0, 0, 0, 0, 0, 0.0, 0.0, map[], map[]);
    NothingAggregates();
    for i := 0 to |events|
      invariant Aggregates(t, events[..i])
    {
      ObserveAggregates(t, events[..i], events[i]);
      assert events[..i] + [events[i]] == events[..i + 1];
      t := Observe(t, events[i]);
    }
    assert events[..|events|] == events;
  }

  lemma NothingAggregates()
    ensures Aggregates(RetryTelemetry(0, 0, 0, 0, 0, 0.0, 0.0, map[], map[]), [])
  {
  }

  ghost function CodeMap(events: seq<Event>, codes: set<string>): map<string, nat> {
    map c | c in codes :: CodeCount(events, c)
  }

  lemma {:induction false} CodesAddUp(events: seq<Event>, codes: set<string>)
    requires forall e :: e in events && Coded(e) ==> e.code in codes
    ensures Sum(CodeMap(events, codes), codes) == CountIf(events, Coded)
  {
    var m := CodeMap(events, codes);
    if events == [] {
      SumZero(m, codes);
    } else {
      var init, e := events[..|events| - 1], events[|events| - 1];
      CodesAddUp(init, codes);
      if Coded(e) {
        assert e in events;
        SumOneMore(CodeMap(init, codes), m, codes, e.code);
      } else {
        SumSame(CodeMap(init, codes), m, codes);
      }
    }
  }

  lemma {:induction false} CodeOccurs(events: seq<Event>, e: Event)
    requires e in events && Coded(e)
    ensures CodeCount(events, e.code) > 0
  {
    if e == events[|events| - 1] {
    } else {
      assert e in events[..|events| - 1];
      CodeOccurs(events[..|events| - 1], e);
    }
  }

  /** The tallies of the codes add up to the events that name one. */
  lemma CodesAreComplete(events: seq<Event>, t: RetryTelemetry)
    requires Aggregates(t, events)
    ensures Sum(t.codes, t.codes.Keys) == CountIf(events, Coded) <= t.scheduled + t.rejected
  {
    var codes := t.codes.Keys;
    forall e | e in events && Coded(e) ensures e.code in codes {
      CodeOccurs(events, e);
      assert CodeCounts(events)(e.code) > 0;
    }
    CodesAddUp(events, codes);
    assert forall c :: c in codes ==> CodeCounts(events)(c) == CodeCount(events, c);
    SumSame(t.codes, CodeMap(events, codes), codes);
    CodedAreRetryEvents(events);
  }

  lemma {:induction false} CodedAreRetryEvents(events: seq<Event>)
    ensures CountIf(events, Coded) <= AllScheduled(events) + CountIf(events, IsRejection)
  {
    if events == [] {
    } else {
      CodedAreRetryEvents(events[..|events| - 1]);
    }
  }

  /** Telemetry taken from the result of a run, or from any graph it saved, reports as many scheduled
      retries as the tasks have counted. */
  lemma TelemetryMatchesTasks(col: Collaborators, w: World, g: Graph, t: RetryTelemetry)
    requires ColOk(col) && Safe(w) && (g in Run(col, w).saves || g == Run(col, w).graph)
    requires Aggregates(t, g.events)
    ensures t.scheduled == Sum(Retries(g), g.nodes.Keys)
  {
    hide Inv, Run, Tallies, PortsOk, NoRunning, Follows;
    RunIsSafe(col, w);
    Conservation(g);
  }
}
