/**
 * The screener (mexc_mm_screener/screener.py): per-symbol state, the
 * two-threshold GO rule, edge-triggered `go_on`/`go_off` events, and the
 * periodic ranked snapshot.
 *
 * The metrics provider and the clock are inputs: a tick receives, for each
 * symbol in order, the metrics fetched for it and the clock reading at which
 * its event (if any) is stamped.
 */
module Screening {
  import opened Common
  import opened EventLog

  /** What the metrics provider returns for one symbol in one tick. */
  datatype Metrics = Metrics(spread: real, notional: real, refill: real, midRange: real, score: real)

  /** `SymbolState`: the latest observation of one symbol and its GO flag. */
  datatype SymbolState = SymbolState(
    symbol: string,
    go: bool,
    score: real,
    spread: real,
    notional: real,
    refill: real,
    midRange: real)

  /** A new symbol: OFF, with every value 0. */
  function Fresh(symbol: string): SymbolState
  {
    SymbolState(symbol, false, 0.0, 0.0, 0.0, 0.0, 0.0)
  }

  /** The metrics a state last observed. */
  function Observed(s: SymbolState): Metrics
  {
    Metrics(s.spread, s.notional, s.refill, s.midRange, s.score)
  }

  /** `SymbolState.metrics`: the five observed values under their log names. */
  function MetricsOf(s: SymbolState): Payload
  {
    map[
      "spread_bps_med_60s" := Num(s.spread),
      "notional_60s_usd" := Num(s.notional),
      "refill_rate_5m" := Num(s.refill),
      "mid_range_bps_60s" := Num(s.midRange),
      "score" := Num(s.score)]
  }

  predicate HasNum(d: Payload, k: string)
  {
    k in d && d[k].Num?
  }

  /** Reads a metric dict back into the five values; `None` when one is missing. */
  function ReadMetrics(d: Payload): Option<Metrics>
  {
    if HasNum(d, "spread_bps_med_60s") && HasNum(d, "notional_60s_usd") && HasNum(d, "refill_rate_5m")
       && HasNum(d, "mid_range_bps_60s") && HasNum(d, "score")
    then Some(Metrics(d["spread_bps_med_60s"].x, d["notional_60s_usd"].x, d["refill_rate_5m"].x,
                      d["mid_range_bps_60s"].x, d["score"].x))
    else None
  }

  /** The metric dict has exactly the five keys and carries the state's values. */
  lemma MetricsRoundTrip(s: SymbolState)
    ensures |MetricsOf(s).Keys| == 5
    ensures ReadMetrics(MetricsOf(s)) == Some(Observed(s))
  {
    var d := MetricsOf(s);
    assert d.Keys == {"spread_bps_med_60s", "notional_60s_usd", "refill_rate_5m", "mid_range_bps_60s", "score"};
  }

  /* ---------------------------------------------------------------------- */
  /* Thresholds and the hysteresis rule                                      */
  /* ---------------------------------------------------------------------- */

  /** `go_off_threshold`: the given value as it is, or 0.8 times the entry threshold. */
  function ExitThreshold(entry: real, given: Option<real>): real
  {
    match given
    case Some(exit) => exit
    case None => entry * 0.8
  }

  /**
   * The default exit threshold is 0.8 times the entry and lies below it
   * exactly when the entry is not negative; a given exit is used unchecked,
   * even above the entry.
   */
  lemma ExitThresholdSpec(entry: real, exit: real)
    ensures ExitThreshold(entry, None) == 0.8 * entry
    ensures ExitThreshold(entry, None) <= entry <==> entry >= 0.0
    ensures ExitThreshold(entry, Some(exit)) == exit
  {
  }

  /** The GO flag after observing `score`. */
  function NextGo(wasGo: bool, score: real, entry: real, exit: real): bool
  {
    if wasGo then score >= exit else score >= entry
  }

  /** Schmitt trigger: OFF turns ON iff score >= entry; ON turns OFF iff score < exit. */
  lemma Hysteresis(wasGo: bool, score: real, entry: real, exit: real)
    ensures !wasGo ==> (NextGo(wasGo, score, entry, exit) <==> score >= entry)
    ensures wasGo ==> (!NextGo(wasGo, score, entry, exit) <==> score < exit)
  {
  }

  /** One symbol's update in a tick: every observed value overwritten, the flag re-evaluated. */
  function Update(s: SymbolState, m: Metrics, entry: real, exit: real): SymbolState
  {
    SymbolState(s.symbol, NextGo(s.go, m.score, entry, exit), m.score, m.spread, m.notional, m.refill, m.midRange)
  }

  /** All symbols' updates in a tick, in dict order. */
  function Tick(states: seq<SymbolState>, fetched: seq<Metrics>, entry: real, exit: real): (r: seq<SymbolState>)
    requires |fetched| == |states|
    ensures |r| == |states|
  {
    seq(|states|, i requires 0 <= i < |states| => Update(states[i], fetched[i], entry, exit))
  }

  /**
   * A tick keeps the symbols, their order and their number; each state then
   * holds the values fetched for it and the flag the hysteresis rule gives,
   * and the symbols stay distinct.
   */
  lemma TickSpec(states: seq<SymbolState>, fetched: seq<Metrics>, entry: real, exit: real)
    requires |fetched| == |states|
    ensures var r := Tick(states, fetched, entry, exit);
      && |r| == |states|
      && (forall i :: 0 <= i < |states| ==>
        && r[i].symbol == states[i].symbol
        && Observed(r[i]) == fetched[i]
        && r[i].go == NextGo(states[i].go, fetched[i].score, entry, exit))
      && (Distinct(states) <==> Distinct(r))
  {
  }

  /** The states part-way through a tick: the first `i` updated, the rest as they were. */
  function PartialTick(states: seq<SymbolState>, fetched: seq<Metrics>, entry: real, exit: real, i: nat): seq<SymbolState>
    requires |fetched| == |states| && i <= |states|
  {
    Tick(states[..i], fetched[..i], entry, exit) + states[i..]
  }

  /** Updating the next state advances a partial tick by one symbol, keeping the keys distinct. */
  lemma PartialTickStep(states: seq<SymbolState>, fetched: seq<Metrics>, entry: real, exit: real, i: nat)
    requires |fetched| == |states| && i < |states|
    ensures PartialTick(states, fetched, entry, exit, i)[i] == states[i]
    ensures PartialTick(states, fetched, entry, exit, i)[i := Update(states[i], fetched[i], entry, exit)]
         == PartialTick(states, fetched, entry, exit, i + 1)
  {
    var p := PartialTick(states, fetched, entry, exit, i);
    var q := PartialTick(states, fetched, entry, exit, i + 1);
    assert |p| == |q|;
    forall k | 0 <= k < |q|
      ensures p[i := Update(states[i], fetched[i], entry, exit)][k] == q[k]
    {
    }
  }

  lemma PartialTickDone(states: seq<SymbolState>, fetched: seq<Metrics>, entry: real, exit: real)
    requires |fetched| == |states|
    ensures PartialTick(states, fetched, entry, exit, |states|) == Tick(states, fetched, entry, exit)
  {
    assert states[..|states|] == states && fetched[..|fetched|] == fetched;
  }

  /** The flags a single symbol goes through over successive ticks. */
  function GoTrace(go: bool, scores: seq<real>, entry: real, exit: real): seq<bool>
    decreases scores
  {
    if scores == [] then []
    else
      var next := NextGo(go, scores[0], entry, exit);
      [next] + GoTrace(next, scores[1..], entry, exit)
  }

  /** Entry 80, exit 64: scores 50, 85, 90, 70, 60 give OFF, ON, ON, ON, OFF. */
  lemma HysteresisExample()
    ensures GoTrace(false, [50.0, 85.0, 90.0, 70.0, 60.0], 80.0, 64.0) == [false, true, true, true, false]
  {
  }

  /**
   * With an exit threshold above the entry, which the constructor accepts,
   * a constant score between the two flips the flag on every tick.
   */
  lemma UncheckedExitFlaps()
    ensures ExitThreshold(80.0, Some(90.0)) > 80.0
    ensures GoTrace(false, [85.0, 85.0, 85.0, 85.0], 80.0, ExitThreshold(80.0, Some(90.0))) == [true, false, true, false]
  {
  }

  /**
   * With the exit threshold at or below the entry, a score held constant
   * settles the flag on the first tick and never flips it afterwards: the
   * second threshold is what stops the flapping `UncheckedExitFlaps` shows.
   */
  lemma {:induction false} NoFlapConstant(go: bool, v: real, scores: seq<real>, entry: real, exit: real)
    requires exit <= entry
    requires forall i :: 0 <= i < |scores| ==> scores[i] == v
    ensures |GoTrace(go, scores, entry, exit)| == |scores|
    ensures forall i :: 0 <= i < |GoTrace(go, scores, entry, exit)| ==>
      GoTrace(go, scores, entry, exit)[i] == NextGo(go, v, entry, exit)
    decreases |scores|
  {
    if scores != [] {
      var next := NextGo(go, v, entry, exit);
      assert NextGo(next, v, entry, exit) == next;
      assert forall i :: 0 <= i < |scores[1..]| ==> scores[1..][i] == scores[i + 1];
      NoFlapConstant(next, v, scores[1..], entry, exit);
    }
  }

  /* ---------------------------------------------------------------------- */
  /* Events of a tick                                                        */
  /* ---------------------------------------------------------------------- */

  /** `_emit_event`'s record: the symbol and its (already updated) metrics. */
  function GoEvent(kind: string, s: SymbolState, ts: real): Event
  {
    Event(ts, kind, Some(s.symbol), Some(MetricsOf(s)), None, map[])
  }

  /** The events one symbol's update emits: one on a rising edge, one on a falling edge when go-off events are on. */
  function SymbolEvents(s: SymbolState, m: Metrics, ts: real, entry: real, exit: real, emitGoOff: bool): seq<Event>
  {
    var n := Update(s, m, entry, exit);
    if !s.go && n.go then [GoEvent("go_on", n, ts)]
    else if s.go && !n.go && emitGoOff then [GoEvent("go_off", n, ts)]
    else []
  }

  /**
   * Edge-triggered events: `go_on` exactly on OFF to ON, `go_off` exactly on
   * ON to OFF when `emitGoOff`, and nothing otherwise (an unchanged flag, or
   * a falling edge with go-off events off). An emitted event is of one of
   * those two kinds, stamped with the tick's time, and carries the symbol
   * and the metrics just fetched.
   */
  lemma TransitionEvents(s: SymbolState, m: Metrics, ts: real, entry: real, exit: real, emitGoOff: bool)
    ensures var evs := SymbolEvents(s, m, ts, entry, exit, emitGoOff);
      && |evs| <= 1
      && (evs != [] <==> (!s.go && m.score >= entry) || (s.go && m.score < exit && emitGoOff))
      && (evs != [] && evs[0].kind == "go_on" <==> !s.go && m.score >= entry)
      && (evs != [] && evs[0].kind == "go_off" <==> s.go && m.score < exit && emitGoOff)
      && (Update(s, m, entry, exit).go == s.go ==> evs == [])
      && (evs != [] ==> evs[0].kind in {"go_on", "go_off"} && evs[0].ts == ts)
      && (evs != [] ==> evs[0].symbol == Some(s.symbol) && ReadMetrics(evs[0].metrics.value) == Some(m))
  {
    MetricsRoundTrip(Update(s, m, entry, exit));
  }

  /** The events of a whole tick, in dict order. */
  function TickEvents(states: seq<SymbolState>, fetched: seq<Metrics>, clock: seq<real>,
                      entry: real, exit: real, emitGoOff: bool): (r: seq<Event>)
    requires |fetched| == |states| && |clock| == |states|
    ensures |r| <= |states|
  {
    if states == [] then []
    else
      var n := |states| - 1;
      TickEvents(states[..n], fetched[..n], clock[..n], entry, exit, emitGoOff)
        + SymbolEvents(states[n], fetched[n], clock[n], entry, exit, emitGoOff)
  }

  /** The events about one symbol. */
  function EventsAbout(events: seq<Event>, symbol: string): seq<Event>
  {
    if events == [] then []
    else (if events[0].symbol == Some(symbol) then [events[0]] else []) + EventsAbout(events[1..], symbol)
  }

  lemma {:induction false} EventsAboutConcat(a: seq<Event>, b: seq<Event>, symbol: string)
    ensures EventsAbout(a + b, symbol) == EventsAbout(a, symbol) + EventsAbout(b, symbol)
  {
    if a == [] {
      assert a + b == b;
    } else {
      var head := if a[0].symbol == Some(symbol) then [a[0]] else [];
      DropAppend(a, b);
      EventsAboutConcat(a[1..], b, symbol);
      assert (a + b)[0] == a[0];
      assert EventsAbout(a + b, symbol) == head + EventsAbout(a[1..] + b, symbol);
      assert EventsAbout(a, symbol) == head + EventsAbout(a[1..], symbol);
    }
  }

  /** Symbols are the keys of a dict: no two states share one. */
  predicate Distinct(states: seq<SymbolState>)
  {
    forall i, j :: 0 <= i < j < |states| ==> states[i].symbol != states[j].symbol
  }

  /** A symbol with no state gets no event in a tick. */
  lemma {:induction false} NoEventsForAbsent(states: seq<SymbolState>, fetched: seq<Metrics>, clock: seq<real>,
                                             entry: real, exit: real, emitGoOff: bool, symbol: string)
    requires |fetched| == |states| && |clock| == |states|
    requires forall k :: 0 <= k < |states| ==> states[k].symbol != symbol
    ensures EventsAbout(TickEvents(states, fetched, clock, entry, exit, emitGoOff), symbol) == []
  {
    if states != [] {
      var n := |states| - 1;
      NoEventsForAbsent(states[..n], fetched[..n], clock[..n], entry, exit, emitGoOff, symbol);
      EventsAboutConcat(TickEvents(states[..n], fetched[..n], clock[..n], entry, exit, emitGoOff),
                        SymbolEvents(states[n], fetched[n], clock[n], entry, exit, emitGoOff), symbol);
    }
  }

  /**
   * Within a tick, the events about a symbol are exactly the ones its own
   * update emits: so `go_on` for it appears iff it went OFF to ON, `go_off`
   * iff it went ON to OFF with go-off events on, and nothing otherwise.
   */
  lemma {:induction false} TickEventsPerSymbol(states: seq<SymbolState>, fetched: seq<Metrics>, clock: seq<real>,
                                               entry: real, exit: real, emitGoOff: bool, i: int)
    requires |fetched| == |states| && |clock| == |states|
    requires Distinct(states) && 0 <= i < |states|
    ensures EventsAbout(TickEvents(states, fetched, clock, entry, exit, emitGoOff), states[i].symbol)
         == SymbolEvents(states[i], fetched[i], clock[i], entry, exit, emitGoOff)
  {
    var n := |states| - 1;
    var symbol := states[i].symbol;
    var prefix := states[..n];
    var head := TickEvents(prefix, fetched[..n], clock[..n], entry, exit, emitGoOff);
    var own := SymbolEvents(states[n], fetched[n], clock[n], entry, exit, emitGoOff);
    assert TickEvents(states, fetched, clock, entry, exit, emitGoOff) == head + own;
    EventsAboutConcat(head, own, symbol);
    EventsAboutOwn(states[n], fetched[n], clock[n], entry, exit, emitGoOff, symbol);
    if i == n {
      assert forall k :: 0 <= k < |prefix| ==> prefix[k].symbol != symbol;
      NoEventsForAbsent(prefix, fetched[..n], clock[..n], entry, exit, emitGoOff, symbol);
      assert EventsAbout(head, symbol) + EventsAbout(own, symbol) == [] + own;
    } else {
      assert Distinct(prefix);
      assert prefix[i] == states[i] && fetched[..n][i] == fetched[i] && clock[..n][i] == clock[i];
      assert states[n].symbol != symbol;
      TickEventsPerSymbol(prefix, fetched[..n], clock[..n], entry, exit, emitGoOff, i);
      assert EventsAbout(head, symbol) + EventsAbout(own, symbol)
          == SymbolEvents(states[i], fetched[i], clock[i], entry, exit, emitGoOff) + [];
    }
  }

  /** A symbol's own events are about it, and about no other symbol. */
  lemma EventsAboutOwn(s: SymbolState, m: Metrics, ts: real, entry: real, exit: real, emitGoOff: bool, symbol: string)
    ensures EventsAbout(SymbolEvents(s, m, ts, entry, exit, emitGoOff), symbol)
         == if s.symbol == symbol then SymbolEvents(s, m, ts, entry, exit, emitGoOff) else []
  {
    var own := SymbolEvents(s, m, ts, entry, exit, emitGoOff);
    if own != [] {
      assert own[1..] == [];
      assert own[0].symbol == Some(s.symbol);
    }
  }

  /** The arguments a sequence of events is handed to `emit` as. */
  function Args(events: seq<Event>): seq<Emittable>
  {
    if events == [] then [] else Args(events[..|events| - 1]) + [FromEvent(events[|events| - 1])]
  }

  /** One event is handed to `emit` as itself, and written as its dict. */
  lemma ArgsOne(e: Event)
    ensures Args([e]) == [FromEvent(e)]
    ensures DataOf(Args([e])) == [ToDict(e)]
  {
    assert [e][..0] == [];
  }

  lemma ArgsSnoc(events: seq<Event>, extra: seq<Event>)
    requires |extra| <= 1
    ensures Args(events + extra) == Args(events) + Args(extra)
  {
    if extra != [] {
      assert (events + extra)[..|events + extra| - 1] == events;
      assert extra[..0] == [];
    } else {
      assert events + extra == events;
    }
  }

  /** Emitting one symbol's events after a prefix's extends the calls by the combined arguments. */
  lemma ArgsAppend(start: seq<Emittable>, mid: seq<Emittable>, calls: seq<Emittable>, done: seq<Event>, own: seq<Event>)
    requires |own| <= 1
    requires mid == start + Args(done) && calls == mid + Args(own)
    ensures calls == start + Args(done + own)
  {
    ArgsSnoc(done, own);
  }

  /** A tick over one more symbol emits that symbol's events after the others'. */
  lemma TickEventsSnoc(states: seq<SymbolState>, fetched: seq<Metrics>, clock: seq<real>,
                       entry: real, exit: real, emitGoOff: bool, i: nat)
    requires |fetched| == |states| && |clock| == |states| && i < |states|
    ensures TickEvents(states[..i + 1], fetched[..i + 1], clock[..i + 1], entry, exit, emitGoOff)
         == TickEvents(states[..i], fetched[..i], clock[..i], entry, exit, emitGoOff)
            + SymbolEvents(states[i], fetched[i], clock[i], entry, exit, emitGoOff)
  {
    TakeTake(states, i, i + 1);
    TakeTake(fetched, i, i + 1);
    TakeTake(clock, i, i + 1);
  }

  /** The arguments handed to `emit` grow, symbol by symbol, into those of the whole tick. */
  lemma CallsStep(start: seq<Emittable>, mid: seq<Emittable>, calls: seq<Emittable>,
                  states: seq<SymbolState>, fetched: seq<Metrics>, clock: seq<real>,
                  entry: real, exit: real, emitGoOff: bool, i: nat)
    requires |fetched| == |states| && |clock| == |states| && i < |states|
    requires mid == start + Args(TickEvents(states[..i], fetched[..i], clock[..i], entry, exit, emitGoOff))
    requires calls == mid + Args(SymbolEvents(states[i], fetched[i], clock[i], entry, exit, emitGoOff))
    ensures calls == start + Args(TickEvents(states[..i + 1], fetched[..i + 1], clock[..i + 1], entry, exit, emitGoOff))
  {
    TickEventsSnoc(states, fetched, clock, entry, exit, emitGoOff, i);
    ArgsAppend(start, mid, calls, TickEvents(states[..i], fetched[..i], clock[..i], entry, exit, emitGoOff),
               SymbolEvents(states[i], fetched[i], clock[i], entry, exit, emitGoOff));
  }

  /** The dicts written symbol by symbol add up to those of the whole tick. */
  lemma DataStep(start: seq<Payload>, mid: seq<Payload>, written: seq<Payload>,
                 states: seq<SymbolState>, fetched: seq<Metrics>, clock: seq<real>,
                 entry: real, exit: real, emitGoOff: bool, i: nat)
    requires |fetched| == |states| && |clock| == |states| && i < |states|
    requires mid == start + DataOf(Args(TickEvents(states[..i], fetched[..i], clock[..i], entry, exit, emitGoOff)))
    requires written == mid + DataOf(Args(SymbolEvents(states[i], fetched[i], clock[i], entry, exit, emitGoOff)))
    ensures written == start + DataOf(Args(TickEvents(states[..i + 1], fetched[..i + 1], clock[..i + 1], entry, exit, emitGoOff)))
  {
    var done := TickEvents(states[..i], fetched[..i], clock[..i], entry, exit, emitGoOff);
    var own := SymbolEvents(states[i], fetched[i], clock[i], entry, exit, emitGoOff);
    TickEventsSnoc(states, fetched, clock, entry, exit, emitGoOff, i);
    ArgsSnoc(done, own);
    WrittenAppend(start, mid, written, Args(done), Args(own));
  }

  /** A go event's dict has exactly `ts`, `type`, `symbol` and `metrics`; a snapshot's exactly `ts`, `type` and `top`. */
  lemma EventShapes(kind: string, s: SymbolState, ts: real, rows: seq<Payload>)
    ensures ToDict(GoEvent(kind, s, ts)).Keys == {"ts", "type", "symbol", "metrics"}
    ensures ToDict(Event(ts, "snapshot", None, None, Some(rows), map[])).Keys == {"ts", "type", "top"}
    ensures Get(ToDict(GoEvent(kind, s, ts)), "type") == Str(kind)
    ensures Get(ToDict(GoEvent(kind, s, ts)), "symbol") == Str(s.symbol)
  {
  }

  /* ---------------------------------------------------------------------- */
  /* Snapshots                                                               */
  /* ---------------------------------------------------------------------- */

  /** Scores never increase along the sequence. */
  predicate NonIncreasing(s: seq<SymbolState>)
  {
    forall i, j :: 0 <= i < j < |s| ==> s[i].score >= s[j].score
  }

  /** Places `x` before the first element that does not score strictly higher. */
  function Insert(x: SymbolState, sorted: seq<SymbolState>): seq<SymbolState>
  {
    if sorted == [] || sorted[0].score <= x.score then [x] + sorted
    else [sorted[0]] + Insert(x, sorted[1..])
  }

  /** `sorted(states, key=score, reverse=True)`: stable, by descending score. */
  function SortByScore(s: seq<SymbolState>): seq<SymbolState>
  {
    if s == [] then [] else Insert(s[0], SortByScore(s[1..]))
  }

  /** The states with a given score, in their order. */
  function WithScore(s: seq<SymbolState>, v: real): seq<SymbolState>
  {
    if s == [] then [] else (if s[0].score == v then [s[0]] else []) + WithScore(s[1..], v)
  }

  lemma {:induction false} InsertShape(x: SymbolState, t: seq<SymbolState>)
    ensures |Insert(x, t)| == |t| + 1
    ensures Insert(x, t)[0] == x || (t != [] && Insert(x, t)[0] == t[0])
    ensures multiset(Insert(x, t)) == multiset(t) + multiset{x}
  {
    if t != [] && t[0].score > x.score {
      InsertShape(x, t[1..]);
      SplitFirst(t);
    }
  }

  lemma {:induction false} InsertSorted(x: SymbolState, t: seq<SymbolState>)
    requires NonIncreasing(t)
    ensures NonIncreasing(Insert(x, t))
  {
    if t != [] && t[0].score > x.score {
      var rest := Insert(x, t[1..]);
      InsertSorted(x, t[1..]);
      InsertShape(x, t[1..]);
      assert rest[0].score <= t[0].score;
      assert Insert(x, t) == [t[0]] + rest;
    }
  }

  /** The equal-score states in front, then the rest. */
  lemma WithScoreCons(y: SymbolState, t: seq<SymbolState>, v: real)
    ensures WithScore([y] + t, v) == (if y.score == v then [y] else []) + WithScore(t, v)
  {
    DropCons(y, t);
  }

  lemma {:induction false} InsertWithScore(x: SymbolState, t: seq<SymbolState>, v: real)
    ensures WithScore(Insert(x, t), v) == (if x.score == v then [x] else []) + WithScore(t, v)
  {
    if t == [] || t[0].score <= x.score {
      WithScoreCons(x, t, v);
    } else {
      var rest := Insert(x, t[1..]);
      InsertWithScore(x, t[1..], v);
      WithScoreCons(t[0], rest, v);
      WithScoreCons(t[0], t[1..], v);
      SplitFirst(t);
    }
  }

  /** The sort is a permutation, ordered by descending score, and stable among equal scores. */
  lemma {:induction false} SortByScoreSpec(s: seq<SymbolState>)
    ensures |SortByScore(s)| == |s|
    ensures NonIncreasing(SortByScore(s))
    ensures multiset(SortByScore(s)) == multiset(s)
    ensures forall v :: WithScore(SortByScore(s), v) == WithScore(s, v)
  {
    if s != [] {
      SortByScoreSpec(s[1..]);
      InsertSorted(s[0], SortByScore(s[1..]));
      InsertShape(s[0], SortByScore(s[1..]));
      SplitFirst(s);
      forall v
        ensures WithScore(SortByScore(s), v) == WithScore(s, v)
      {
        InsertWithScore(s[0], SortByScore(s[1..]), v);
      }
    }
  }

  lemma {:induction false} WithScorePrefix(s: seq<SymbolState>, k: nat, v: real)
    requires k <= |s|
    ensures WithScore(s[..k], v) <= WithScore(s, v)
  {
    if k > 0 {
      DropTake(s, k);
      WithScorePrefix(s[1..], k - 1, v);
    }
  }

  /** `sorted(...)[:snapshot_top_n]`. */
  function TopStates(states: seq<SymbolState>, n: int): seq<SymbolState>
  {
    Prefix(SortByScore(states), n)
  }

  /** One snapshot row: symbol, go flag, score and the four metrics. */
  function Row(s: SymbolState): Payload
  {
    map[
      "symbol" := Str(s.symbol),
      "go" := Bool(s.go),
      "score" := Num(s.score),
      "spread_bps_med_60s" := Num(s.spread),
      "notional_60s_usd" := Num(s.notional),
      "refill_rate_5m" := Num(s.refill),
      "mid_range_bps_60s" := Num(s.midRange)]
  }

  /** Reads a row back into the state it mirrors. */
  function ReadRow(r: Payload): Option<SymbolState>
  {
    if "symbol" in r && r["symbol"].Str? && "go" in r && r["go"].Bool?
    then match ReadMetrics(r)
      case Some(m) => Some(SymbolState(r["symbol"].s, r["go"].b, m.score, m.spread, m.notional, m.refill, m.midRange))
      case None => None
    else None
  }

  /** A row mirrors its state's symbol, go flag, score and four metrics. */
  lemma RowRoundTrip(s: SymbolState)
    ensures ReadRow(Row(s)) == Some(s)
  {
  }

  /** The `top` payload of a snapshot. */
  function SnapshotRows(states: seq<SymbolState>, n: int): seq<Payload>
  {
    var top := TopStates(states, n);
    seq(|top|, i requires 0 <= i < |top| => Row(top[i]))
  }

  /** `_emit_snapshot`'s record. */
  function SnapshotEvent(states: seq<SymbolState>, n: int, ts: real): Event
  {
    Event(ts, "snapshot", None, None, Some(SnapshotRows(states, n)), map[])
  }

  /** In a sorted sequence, nothing after position k scores above anything before it. */
  lemma SortedSplit(sorted: seq<SymbolState>, k: nat)
    requires NonIncreasing(sorted) && k <= |sorted|
    ensures forall s, i :: s in multiset(sorted[k..]) && 0 <= i < k ==> s.score <= sorted[i].score
  {
    forall s, i | s in multiset(sorted[k..]) && 0 <= i < k
      ensures s.score <= sorted[i].score
    {
      assert s in sorted[k..];
      var j :| 0 <= j < |sorted[k..]| && sorted[k..][j] == s;
      assert sorted[k + j] == s;
    }
  }

  /** A prefix of a sorted sequence is sorted, and leaves out exactly the rest. */
  lemma SortedPrefix(sorted: seq<SymbolState>, k: nat)
    requires NonIncreasing(sorted) && k <= |sorted|
    ensures NonIncreasing(sorted[..k])
    ensures multiset(sorted[..k]) <= multiset(sorted)
    ensures multiset(sorted) - multiset(sorted[..k]) == multiset(sorted[k..])
  {
    assert sorted == sorted[..k] + sorted[k..];
  }

  /**
   * The snapshot keeps min(n, |states|) states (for n >= 0), in descending
   * score, each state at most as often as it exists, and no left-out state
   * scores above a kept one.
   */
  lemma SnapshotTopN(states: seq<SymbolState>, n: int)
    ensures var top := TopStates(states, n);
      && |top| == (if n >= 0 then Min(n, |states|) else Max(0, |states| + n))
      && NonIncreasing(top)
      && multiset(top) <= multiset(states)
      && (forall s, i :: s in multiset(states) - multiset(top) && 0 <= i < |top| ==> s.score <= top[i].score)
  {
    var sorted := SortByScore(states);
    SortByScoreSpec(states);
    var k := |TopStates(states, n)|;
    SortedPrefix(sorted, k);
    SortedSplit(sorted, k);
  }

  /** Among equal scores the snapshot keeps the states' dict order (a stable sort). */
  lemma SnapshotStable(states: seq<SymbolState>, n: int)
    ensures forall v :: WithScore(TopStates(states, n), v) <= WithScore(states, v)
  {
    var sorted := SortByScore(states);
    SortByScoreSpec(states);
    forall v
      ensures WithScore(TopStates(states, n), v) <= WithScore(states, v)
    {
      WithScorePrefix(sorted, |TopStates(states, n)|, v);
    }
  }

  /** Each snapshot row mirrors its state: symbol, go flag, score and the four metrics. */
  lemma SnapshotRowsMirror(states: seq<SymbolState>, n: int)
    ensures |SnapshotRows(states, n)| == |TopStates(states, n)|
    ensures forall i :: 0 <= i < |TopStates(states, n)| ==> ReadRow(SnapshotRows(states, n)[i]) == Some(TopStates(states, n)[i])
  {
    var top := TopStates(states, n);
    forall i | 0 <= i < |top|
      ensures ReadRow(SnapshotRows(states, n)[i]) == Some(top[i])
    {
      RowRoundTrip(top[i]);
    }
  }

  /** Scores A:10, B:90, C:50 with a top of two give B then C. */
  lemma SnapshotExample()
    ensures var a := Fresh("A").(score := 10.0);
            var b := Fresh("B").(score := 90.0);
            var c := Fresh("C").(score := 50.0);
            TopStates([a, b, c], 2) == [b, c]
  {
    var a := Fresh("A").(score := 10.0);
    var b := Fresh("B").(score := 90.0);
    var c := Fresh("C").(score := 50.0);
    assert [a, b, c][1..] == [b, c];
    assert [b, c][1..] == [c];
    assert [c][1..] == [];
    assert SortByScore([c]) == [c];
    assert Insert(b, [c]) == [b, c];
    assert SortByScore([b, c]) == [b, c];
    assert Insert(a, []) == [a];
    assert Insert(a, [c]) == [c] + Insert(a, []);
    assert Insert(a, [b, c]) == [b] + Insert(a, [c]);
    assert SortByScore([a, b, c]) == [b, c, a];
  }

  /** `run`'s timer: a snapshot is due once `interval` has passed since the last one. */
  predicate SnapshotDue(start: real, last: real, interval: real)
  {
    start - last >= interval
  }

  /* ---------------------------------------------------------------------- */
  /* Construction                                                            */
  /* ---------------------------------------------------------------------- */

  /** The keys of `{sym: ... for sym in symbols}`: first occurrences, in order. */
  function Dedup(symbols: seq<string>): seq<string>
  {
    if symbols == [] then []
    else
      var d := Dedup(symbols[..|symbols| - 1]);
      var last := symbols[|symbols| - 1];
      if last in d then d else d + [last]
  }

  /**
   * The dict's keys are the given symbols, each once, in the order of their
   * first occurrences: any key before another already occurs before every
   * occurrence of the later one.
   */
  lemma {:induction false} DedupSpec(symbols: seq<string>)
    ensures forall i, j :: 0 <= i < j < |Dedup(symbols)| ==> Dedup(symbols)[i] != Dedup(symbols)[j]
    ensures forall s :: s in Dedup(symbols) <==> s in symbols
    ensures forall i, j, q :: 0 <= i < j < |Dedup(symbols)| && 0 <= q < |symbols| && symbols[q] == Dedup(symbols)[j] ==>
      Dedup(symbols)[i] in symbols[..q]
  {
    if symbols != [] {
      var n := |symbols| - 1;
      var before := symbols[..n];
      var last := symbols[n];
      var d0 := Dedup(before);
      var d := Dedup(symbols);
      DedupSpec(before);
      SplitLast(symbols);
      forall i, j, q | 0 <= i < j < |d| && 0 <= q < |symbols| && symbols[q] == d[j]
        ensures d[i] in symbols[..q]
      {
        if q < n {
          assert before[q] == symbols[q];
          assert before[..q] == symbols[..q];
          if j < |d0| {
            assert d[i] == d0[i] && d[j] == d0[j];
          } else {
            assert false;
          }
        } else {
          assert d[i] in d0 by {
            assert i < |d0| && d[i] == d0[i];
          }
        }
      }
    }
  }

  /** The states `__init__` creates, one fresh state per distinct symbol. */
  function InitialStates(symbols: seq<string>): seq<SymbolState>
  {
    var keys := Dedup(symbols);
    seq(|keys|, i requires 0 <= i < |keys| => Fresh(keys[i]))
  }

  /* ---------------------------------------------------------------------- */
  /* The screener object                                                     */
  /* ---------------------------------------------------------------------- */

  class Screener {
    /** `self.states.values()`, in dict order */
    var states: seq<SymbolState>
    /** `go_score_threshold` */
    const entry: real
    /** `go_off_threshold` */
    const exit: real
    const tickInterval: real
    const snapshotInterval: real
    const topN: int
    const sink: EventSink?
    const emitGoOff: bool
    /** `_last_snapshot` */
    var lastSnapshot: real

    ghost function SinkFrame(): set<object>
    {
      if sink == null then {} else {sink, sink.file}
    }

    ghost predicate Valid()
      reads this, SinkFrame()
    {
      && Distinct(states)
      && this !in SinkFrame()
      && (sink != null ==> sink.Valid())
    }

    /**
     * What `EventSink.emit` did with `x`, given the handle, the records and
     * the text before: one line is appended exactly when a handle was held or
     * could be opened and the write succeeded, and the handle is kept exactly then.
     */
    ghost predicate Emitted(x: Emittable, handle0: bool, written0: seq<Payload>, text0: string)
      requires sink != null
      reads sink, sink.file
    {
      var delivered := (handle0 || sink.file.openable) && sink.file.writable;
      && sink.handle == delivered
      && sink.written == written0 + (if delivered then [Data(x)] else [])
      && sink.file.text == text0 + (if delivered then Serialized(Data(x), sink.encode) else "")
    }

    /** With a reliable sink, the records written are exactly the dicts of the calls made. */
    ghost predicate Logged(reliable: bool, written0: seq<Payload>, made: seq<Emittable>)
      reads this, SinkFrame()
    {
      sink != null && reliable ==> sink.Reliable() && sink.written == written0 + DataOf(made)
    }

    /** `Screener.__init__`: one OFF state per distinct symbol, the exit threshold defaulted. */
    constructor (symbols: seq<string>, goScoreThreshold: real, goOffThreshold: Option<real>,
                 tickInterval: real, snapshotInterval: real, snapshotTopN: int,
                 eventSink: EventSink?, emitGoOff: bool)
      requires eventSink != null ==> eventSink.Valid()
      ensures Valid()
      ensures states == InitialStates(symbols)
      ensures forall s :: s in symbols <==> exists i :: 0 <= i < |states| && states[i].symbol == s
      ensures entry == goScoreThreshold && exit == ExitThreshold(goScoreThreshold, goOffThreshold)
      ensures this.tickInterval == tickInterval && this.snapshotInterval == snapshotInterval
      ensures topN == snapshotTopN && sink == eventSink && this.emitGoOff == emitGoOff
      ensures lastSnapshot == 0.0
    {
      states := InitialStates(symbols);
      entry := goScoreThreshold;
      exit := if goOffThreshold.Some? then goOffThreshold.value else goScoreThreshold * 0.8;
      this.tickInterval := tickInterval;
      this.snapshotInterval := snapshotInterval;
      topN := snapshotTopN;
      sink := eventSink;
      this.emitGoOff := emitGoOff;
      lastSnapshot := 0.0;
      new;
      DedupSpec(symbols);
      forall s | s in symbols
        ensures exists i :: 0 <= i < |states| && states[i].symbol == s
      {
        var i :| 0 <= i < |Dedup(symbols)| && Dedup(symbols)[i] == s;
        assert states[i].symbol == s;
      }
    }

    /** `_emit_event`: hands a go event to the sink, when there is one. */
    method EmitEvent(kind: string, state: SymbolState, ts: real)
      requires sink != null ==> sink.Valid()
      modifies SinkFrame()
      ensures sink != null ==> sink.Valid() && sink.calls == old(sink.calls) + [FromEvent(GoEvent(kind, state, ts))]
      ensures sink != null ==> Emitted(FromEvent(GoEvent(kind, state, ts)), old(sink.handle), old(sink.written), old(sink.file.text))
      ensures sink != null ==> sink.file.openable == old(sink.file.openable) && sink.file.writable == old(sink.file.writable)
    {
      if sink == null {
        return;
      }
      sink.Emit(FromEvent(GoEvent(kind, state, ts)));
    }

    /** One pass of `_process_symbols`' loop: the i-th state's update and its edge event. */
    method ProcessSymbol(i: nat, metrics: Metrics, ts: real)
      requires Valid() && i < |states|
      modifies this`states, SinkFrame()
      ensures Valid()
      ensures states == old(states)[i := Update(old(states)[i], metrics, entry, exit)]
      ensures sink != null ==>
        sink.calls == old(sink.calls) + Args(SymbolEvents(old(states)[i], metrics, ts, entry, exit, emitGoOff))
      ensures sink != null ==> sink.file.openable == old(sink.file.openable) && sink.file.writable == old(sink.file.writable)
      ensures Logged(old(sink != null && sink.Reliable()), old(if sink != null then sink.written else []),
                     Args(SymbolEvents(old(states)[i], metrics, ts, entry, exit, emitGoOff)))
    {
      ghost var events := SymbolEvents(states[i], metrics, ts, entry, exit, emitGoOff);
      var state := states[i];
      var wasGo := state.go;
      var nowGo := if wasGo then metrics.score >= exit else metrics.score >= entry;
      state := SymbolState(state.symbol, nowGo, metrics.score, metrics.spread, metrics.notional,
                           metrics.refill, metrics.midRange);
      states := states[i := state];
      if !wasGo && nowGo {
        EmitEvent("go_on", state, ts);
        ArgsOne(GoEvent("go_on", state, ts));
        assert events == [GoEvent("go_on", state, ts)];
      } else if wasGo && !nowGo && emitGoOff {
        EmitEvent("go_off", state, ts);
        ArgsOne(GoEvent("go_off", state, ts));
        assert events == [GoEvent("go_off", state, ts)];
      } else {
        assert events == [];
      }
    }

    /**
     * Part-way through `_process_symbols`: the first `i` symbols are updated
     * and their events emitted, the rest are untouched.
     */
    ghost predicate Progress(before: seq<SymbolState>, calls0: seq<Emittable>, reliable: bool, written0: seq<Payload>,
                             fetched: seq<Metrics>, clock: seq<real>, i: nat)
      reads this, SinkFrame()
    {
      && |fetched| == |before| && |clock| == |before| && i <= |before|
      && Valid()
      && states == PartialTick(before, fetched, entry, exit, i)
      && (sink != null ==>
            sink.calls == calls0 + Args(TickEvents(before[..i], fetched[..i], clock[..i], entry, exit, emitGoOff)))
      && Logged(reliable, written0, Args(TickEvents(before[..i], fetched[..i], clock[..i], entry, exit, emitGoOff)))
    }

    /** Progress over every symbol is the whole tick and the whole tick's events. */
    lemma ProgressDone(before: seq<SymbolState>, calls0: seq<Emittable>, reliable: bool, written0: seq<Payload>,
                       fetched: seq<Metrics>, clock: seq<real>)
      requires Progress(before, calls0, reliable, written0, fetched, clock, |before|)
      ensures states == Tick(before, fetched, entry, exit)
      ensures sink != null ==> sink.calls == calls0 + Args(TickEvents(before, fetched, clock, entry, exit, emitGoOff))
      ensures Logged(reliable, written0, Args(TickEvents(before, fetched, clock, entry, exit, emitGoOff)))
    {
      PartialTickDone(before, fetched, entry, exit);
      assert before[..|before|] == before && fetched[..|before|] == fetched && clock[..|before|] == clock;
    }

    /** One pass of `_process_symbols`' loop, as progress from `i` to `i + 1` symbols. */
    method ProcessNext(ghost before: seq<SymbolState>, ghost calls0: seq<Emittable>,
                       ghost reliable: bool, ghost written0: seq<Payload>,
                       fetched: seq<Metrics>, clock: seq<real>, i: nat)
      requires Progress(before, calls0, reliable, written0, fetched, clock, i) && i < |before|
      modifies this`states, SinkFrame()
      ensures Progress(before, calls0, reliable, written0, fetched, clock, i + 1)
      ensures sink != null ==> sink.file.openable == old(sink.file.openable) && sink.file.writable == old(sink.file.writable)
    {
      ghost var callsBefore := if sink != null then sink.calls else [];
      ghost var writtenBefore := if sink != null then sink.written else [];
      PartialTickStep(before, fetched, entry, exit, i);
      ProcessSymbol(i, fetched[i], clock[i]);
      if sink != null {
        CallsStep(calls0, callsBefore, sink.calls, before, fetched, clock, entry, exit, emitGoOff, i);
        if reliable {
          DataStep(written0, writtenBefore, sink.written, before, fetched, clock, entry, exit, emitGoOff, i);
        }
      }
    }

    /** `_process_symbols`' loop over the symbols, as progress from none of them to all of them. */
    method ProcessAll(ghost before: seq<SymbolState>, ghost calls0: seq<Emittable>,
                      ghost reliable: bool, ghost written0: seq<Payload>,
                      fetched: seq<Metrics>, clock: seq<real>)
      requires Progress(before, calls0, reliable, written0, fetched, clock, 0)
      modifies this`states, SinkFrame()
      ensures Progress(before, calls0, reliable, written0, fetched, clock, |before|)
      ensures sink != null ==> sink.file.openable == old(sink.file.openable) && sink.file.writable == old(sink.file.writable)
    {
      var i := 0;
      while i < |fetched|
        invariant i <= |fetched|
        invariant Progress(before, calls0, reliable, written0, fetched, clock, i)
        invariant sink != null ==> sink.file.openable == old(sink.file.openable) && sink.file.writable == old(sink.file.writable)
      {
        ProcessNext(before, calls0, reliable, written0, fetched, clock, i);
        i := i + 1;
      }
    }

    /**
     * `_process_symbols`: every state takes the fetched values and the
     * re-evaluated flag, and the tick's edge events go to the sink in dict
     * order; the set of symbols never changes.
     */
    method ProcessSymbols(fetched: seq<Metrics>, clock: seq<real>)
      requires Valid()
      requires |fetched| == |states| && |clock| == |states|
      modifies this, SinkFrame()
      ensures Valid()
      ensures states == Tick(old(states), fetched, entry, exit)
      ensures lastSnapshot == old(lastSnapshot)
      ensures sink != null ==>
        sink.calls == old(sink.calls) + Args(TickEvents(old(states), fetched, clock, entry, exit, emitGoOff))
      ensures sink != null ==> sink.file.openable == old(sink.file.openable) && sink.file.writable == old(sink.file.writable)
      ensures Logged(old(sink != null && sink.Reliable()), old(if sink != null then sink.written else []),
                     Args(TickEvents(old(states), fetched, clock, entry, exit, emitGoOff)))
    {
      ghost var before := states;
      ghost var calls0 := if sink != null then sink.calls else [];
      ghost var reliable := sink != null && sink.Reliable();
      ghost var written0 := if sink != null then sink.written else [];
      assert before[..0] == [] && fetched[..0] == [] && clock[..0] == [];
      ProcessAll(before, calls0, reliable, written0, fetched, clock);
      ProgressDone(before, calls0, reliable, written0, fetched, clock);
    }

    /** `_emit_snapshot`: the top rows by descending score, handed to the sink when there is one. */
    method EmitSnapshot(ts: real)
      requires sink != null ==> sink.Valid()
      modifies SinkFrame()
      ensures sink != null ==> sink.Valid() && sink.calls == old(sink.calls) + [FromEvent(SnapshotEvent(states, topN, ts))]
      ensures sink != null ==> Emitted(FromEvent(SnapshotEvent(states, topN, ts)), old(sink.handle), old(sink.written), old(sink.file.text))
      ensures sink != null ==> sink.file.openable == old(sink.file.openable) && sink.file.writable == old(sink.file.writable)
      ensures Logged(old(sink != null && sink.Reliable()), old(if sink != null then sink.written else []),
                     [FromEvent(SnapshotEvent(states, topN, ts))])
    {
      var top := Prefix(SortByScore(states), topN);
      var payload := seq(|top|, i requires 0 <= i < |top| => Row(top[i]));
      if sink == null {
        return;
      }
      sink.Emit(FromEvent(Event(ts, "snapshot", None, None, Some(payload), map[])));
    }

    /**
     * One pass of `run`'s loop without its sleep: a tick, then a snapshot of
     * the updated states exactly when the interval since the last one has
     * passed, which moves the timer to `start`.
     */
    method RunOnce(fetched: seq<Metrics>, clock: seq<real>, start: real)
      requires Valid()
      requires |fetched| == |states| && |clock| == |states|
      modifies this, SinkFrame()
      ensures Valid()
      ensures states == Tick(old(states), fetched, entry, exit)
      ensures lastSnapshot == if SnapshotDue(start, old(lastSnapshot), snapshotInterval) then start else old(lastSnapshot)
      ensures sink != null ==>
        sink.calls == old(sink.calls) + Args(TickEvents(old(states), fetched, clock, entry, exit, emitGoOff))
          + (if SnapshotDue(start, old(lastSnapshot), snapshotInterval) then [FromEvent(SnapshotEvent(states, topN, start))] else [])
      ensures sink != null ==> sink.file.openable == old(sink.file.openable) && sink.file.writable == old(sink.file.writable)
      ensures Logged(old(sink != null && sink.Reliable()), old(if sink != null then sink.written else []),
                     Args(TickEvents(old(states), fetched, clock, entry, exit, emitGoOff))
                       + (if SnapshotDue(start, old(lastSnapshot), snapshotInterval) then [FromEvent(SnapshotEvent(states, topN, start))] else []))
    {
      ghost var reliable := sink != null && sink.Reliable();
      ghost var written0 := if sink != null then sink.written else [];
      ghost var tick := Args(TickEvents(states, fetched, clock, entry, exit, emitGoOff));
      ProcessSymbols(fetched, clock);
      ghost var written1 := if sink != null then sink.written else [];
      assert Logged(reliable, written0, tick);
      ghost var snapshot: seq<Emittable> := [];
      if start - lastSnapshot >= snapshotInterval {
        snapshot := [FromEvent(SnapshotEvent(states, topN, start))];
        EmitSnapshot(start);
        lastSnapshot := start;
      }
      assert Logged(reliable, written1, snapshot);
      if sink != null && reliable {
        WrittenAppend(written0, written1, sink.written, tick, snapshot);
      }
      assert Logged(reliable, written0, tick + snapshot);
    }
  }
  /**
   * A screener for one symbol, writing to an empty events file that opens and
   * accepts writes: a first tick scoring 90 against an entry of 80 leaves
   * exactly one line in the file, the `go_on` record with the fetched
   * metrics; no snapshot is due at time 0 with a 30-second interval.
   */
  method FirstTickLog(encode: Payload -> string) returns (text: string)
    ensures text == Serialized(ToDict(GoEvent("go_on", SymbolState("BTCUSDT", true, 90.0, 1.0, 2.0, 3.0, 4.0), 5.0)), encode)
  {
    var file := new LogFile("", true, true);
    var sink := new EventSink(file, encode);
    var screener := new Screener(["BTCUSDT"], 80.0, None, 5.0, 30.0, 10, sink, true);
    ghost var fetched := [Metrics(1.0, 2.0, 3.0, 4.0, 90.0)];
    assert Dedup(["BTCUSDT"]) == ["BTCUSDT"];
    assert screener.states == [Fresh("BTCUSDT")];
    var on := GoEvent("go_on", SymbolState("BTCUSDT", true, 90.0, 1.0, 2.0, 3.0, 4.0), 5.0);
    assert TickEvents([Fresh("BTCUSDT")], fetched, [5.0], 80.0, 64.0, true) == [on] by {
      assert [Fresh("BTCUSDT")][..0] == [];
    }
    ArgsOne(on);
    screener.RunOnce([Metrics(1.0, 2.0, 3.0, 4.0, 90.0)], [5.0], 0.0);
    assert sink.written == [ToDict(on)];
    assert Lines([ToDict(on)], encode) == Serialized(ToDict(on), encode) by {
      assert [ToDict(on)][1..] == [];
    }
    text := file.text;
  }
}
