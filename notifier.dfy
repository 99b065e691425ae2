/**
 * The bot's decision layer (bot/notifier.py): a per-symbol cooldown, a
 * mute list, and the cached last snapshot that the `/top` and `/status`
 * commands read.
 *
 * The wall clock is the parameter `now`; the alert text is left abstract as
 * a `Message` recording what it is built from.
 */
module Notification {
  import opened Common
  import opened EventLog
  import opened Screening

  /** `NotifyConfig`, with its defaults in `DefaultConfig`. */
  datatype NotifyConfig = NotifyConfig(minInterval: int, sendGoOff: bool, includeSnapshot: bool)

  const DefaultConfig: NotifyConfig := NotifyConfig(300, false, true)

  /** The text of an alert, as the inputs it is formatted from. */
  datatype Message = GoMessage(event: Payload) | GoOffMessage(symbol: Value, event: Payload)

  /** The notifier's mutable state: `muted`, `last_sent_ts` and `last_snapshot`. */
  datatype NotifierState = NotifierState(muted: set<string>, lastSent: map<Value, real>, lastSnapshot: Option<Payload>)

  const Initial: NotifierState := NotifierState({}, map[], None)

  /** `last_sent_ts.get(symbol, 0)`: a symbol never alerted on counts as alerted at time 0. */
  function LastSent(sent: map<Value, real>, symbol: Value): real
  {
    if symbol in sent then sent[symbol] else 0.0
  }

  /** `should_send`'s test: at least `min_interval_sec_per_symbol` seconds since the last alert. */
  predicate Allowed(sent: map<Value, real>, symbol: Value, now: real, minInterval: int)
  {
    !(now - LastSent(sent, symbol) < minInterval as real)
  }

  /** `cache_go_event`: a `go_off` for a truthy symbol clears that symbol's cooldown. */
  function Cache(sent: map<Value, real>, event: Payload): (r: map<Value, real>)
    ensures r.Keys <= sent.Keys
    ensures forall k :: k in r ==> r[k] == sent[k]
    ensures Get(event, "symbol") in sent && Get(event, "symbol") !in r
        <==> Truthy(Get(event, "symbol")) && Get(event, "type") == Str("go_off") && Get(event, "symbol") in sent
    ensures forall k :: k in sent && k != Get(event, "symbol") ==> k in r
  {
    var symbol := Get(event, "symbol");
    if !Truthy(symbol) then sent
    else if Get(event, "type") == Str("go_off") then sent - {symbol}
    else sent
  }

  /** The mute test compares the event's symbol as it is, without changing its case. */
  predicate IsMuted(muted: set<string>, symbol: Value)
  {
    symbol.Str? && symbol.s in muted
  }

  /** What `process_event` does to the state, and the message it returns. */
  datatype Reaction = Reaction(state: NotifierState, message: Option<Message>)

  /** `process_event` as a function of the state, the configuration, the event and the clock. */
  function React(st: NotifierState, cfg: NotifyConfig, event: Payload, now: real): Reaction
  {
    var kind := Get(event, "type");
    var symbol := Get(event, "symbol");
    if kind == Str("snapshot") then
      Reaction(if cfg.includeSnapshot then st.(lastSnapshot := Some(event)) else st, None)
    else if symbol == Null || IsMuted(st.muted, symbol) then
      Reaction(st, None)
    else if kind == Str("go_on") || (kind == Str("go_off") && cfg.sendGoOff) then
      if !Allowed(st.lastSent, symbol, now, cfg.minInterval) then Reaction(st, None)
      else
        var message := if kind == Str("go_on") then GoMessage(event) else GoOffMessage(symbol, event);
        Reaction(st.(lastSent := Cache(st.lastSent[symbol := now], event)), Some(message))
    else
      Reaction(st, None)
  }

  /**
   * A snapshot returns no message and is cached exactly when snapshots are
   * included; nothing else changes.
   */
  lemma ReactSnapshot(st: NotifierState, cfg: NotifyConfig, event: Payload, now: real)
    requires Get(event, "type") == Str("snapshot")
    ensures var r := React(st, cfg, event, now);
      && r.message == None
      && r.state.muted == st.muted && r.state.lastSent == st.lastSent
      && r.state.lastSnapshot == (if cfg.includeSnapshot then Some(event) else st.lastSnapshot)
  {
  }

  /** Any other event without a symbol, or with a muted one, is dropped and changes nothing. */
  lemma ReactIgnored(st: NotifierState, cfg: NotifyConfig, event: Payload, now: real)
    requires Get(event, "type") != Str("snapshot")
    requires Get(event, "symbol") == Null || IsMuted(st.muted, Get(event, "symbol"))
    ensures React(st, cfg, event, now) == Reaction(st, None)
  {
  }

  /**
   * A `go_on` for a present, unmuted symbol alerts exactly when the cooldown
   * allows it, and then records `now` as the symbol's last alert; a refused
   * one changes nothing.
   */
  lemma ReactGoOn(st: NotifierState, cfg: NotifyConfig, event: Payload, now: real)
    requires Get(event, "type") == Str("go_on")
    requires Get(event, "symbol") != Null && !IsMuted(st.muted, Get(event, "symbol"))
    ensures var symbol := Get(event, "symbol");
      var r := React(st, cfg, event, now);
      && (r.message.Some? <==> now - LastSent(st.lastSent, symbol) >= cfg.minInterval as real)
      && (r.message.Some? ==> r.message == Some(GoMessage(event)) && r.state == st.(lastSent := st.lastSent[symbol := now]))
      && (r.message.None? ==> r.state == st)
  {
  }

  /**
   * A `go_off` changes nothing unless go-off alerts are on; then it alerts
   * exactly when the cooldown allows it, and a sent one clears the symbol's
   * cooldown entry, unless the symbol is falsy (such as ""), whose entry is
   * set to `now` instead.
   */
  lemma ReactGoOff(st: NotifierState, cfg: NotifyConfig, event: Payload, now: real)
    requires Get(event, "type") == Str("go_off")
    requires Get(event, "symbol") != Null && !IsMuted(st.muted, Get(event, "symbol"))
    ensures var symbol := Get(event, "symbol");
      var r := React(st, cfg, event, now);
      && (!cfg.sendGoOff ==> r == Reaction(st, None))
      && (cfg.sendGoOff ==> (r.message.Some? <==> now - LastSent(st.lastSent, symbol) >= cfg.minInterval as real))
      && (r.message.Some? ==>
            && r.message == Some(GoOffMessage(symbol, event))
            && r.state.muted == st.muted && r.state.lastSnapshot == st.lastSnapshot
            && r.state.lastSent.Keys == (if Truthy(symbol) then st.lastSent.Keys - {symbol} else st.lastSent.Keys + {symbol})
            && (forall k :: k in r.state.lastSent && k != symbol ==> r.state.lastSent[k] == st.lastSent[k])
            && (!Truthy(symbol) ==> r.state.lastSent[symbol] == now))
      && (r.message.None? ==> r.state == st)
  {
    var symbol := Get(event, "symbol");
    var r := React(st, cfg, event, now);
    if r.message.Some? {
      var sent := st.lastSent[symbol := now];
      assert r.state.lastSent == Cache(sent, event);
      if Truthy(symbol) {
        assert Cache(sent, event) == sent - {symbol};
      }
    }
  }

  /** Events of any other type produce nothing and change nothing. */
  lemma ReactOther(st: NotifierState, cfg: NotifyConfig, event: Payload, now: real)
    requires Get(event, "type") !in {Str("snapshot"), Str("go_on"), Str("go_off")}
    ensures React(st, cfg, event, now) == Reaction(st, None)
  {
  }

  /** `process_event` never touches the mute list. */
  lemma ReactKeepsMuted(st: NotifierState, cfg: NotifyConfig, event: Payload, now: real)
    ensures React(st, cfg, event, now).state.muted == st.muted
  {
  }

  /**
   * After a `go_on` alert at `t`, a second `go_on` for the same symbol at
   * `t + d` alerts exactly when `d` is at least the interval.
   */
  lemma CooldownAfterAlert(st: NotifierState, cfg: NotifyConfig, event: Payload, t: real, d: real)
    requires Get(event, "type") == Str("go_on")
    requires Get(event, "symbol") != Null && !IsMuted(st.muted, Get(event, "symbol"))
    requires React(st, cfg, event, t).message.Some?
    ensures React(React(st, cfg, event, t).state, cfg, event, t + d).message.Some? <==> d >= cfg.minInterval as real
  {
    ReactGoOn(st, cfg, event, t);
    ReactGoOn(React(st, cfg, event, t).state, cfg, event, t + d);
  }

  /**
   * A symbol that has never alerted counts as alerted at time 0: its first
   * `go_on` alerts only from `min_interval` seconds after the epoch.
   */
  lemma FirstAlert(cfg: NotifyConfig, event: Payload, now: real)
    requires Get(event, "type") == Str("go_on") && Get(event, "symbol") != Null
    ensures React(Initial, cfg, event, now).message.Some? <==> now >= cfg.minInterval as real
  {
    ReactGoOn(Initial, cfg, event, now);
  }

  /**
   * A sent `go_off` for a truthy symbol resets its cooldown: the next
   * `go_on` is judged as if the symbol had never alerted.
   */
  lemma GoOffResetsCooldown(st: NotifierState, cfg: NotifyConfig, off: Payload, on: Payload, t: real, now: real)
    requires Get(off, "type") == Str("go_off") && Get(on, "type") == Str("go_on")
    requires Get(on, "symbol") == Get(off, "symbol") && Truthy(Get(off, "symbol"))
    requires !IsMuted(st.muted, Get(off, "symbol"))
    requires React(st, cfg, off, t).message.Some?
    ensures React(React(st, cfg, off, t).state, cfg, on, now).message.Some? <==> now >= cfg.minInterval as real
  {
    var symbol := Get(off, "symbol");
    ReactGoOff(st, cfg, off, t);
    var st2 := React(st, cfg, off, t).state;
    assert symbol !in st2.lastSent;
    ReactGoOn(st2, cfg, on, now);
  }

  /** ASCII `str.upper`. */
  function UpperChar(c: char): char
  {
    if 'a' <= c <= 'z' then (c as int - 32) as char else c
  }

  function Upper(s: string): (r: string)
  {
    seq(|s|, i requires 0 <= i < |s| => UpperChar(s[i]))
  }

  /**
   * Upper-casing keeps the length, turns each lower-case letter into its own
   * capital and leaves every other character alone, so no lower-case letter
   * remains and a second pass changes nothing.
   */
  lemma UpperSpec(s: string)
    ensures |Upper(s)| == |s|
    ensures forall i :: 0 <= i < |s| && 'a' <= s[i] <= 'z' ==>
      Upper(s)[i] == "ABCDEFGHIJKLMNOPQRSTUVWXYZ"[s[i] as int - 'a' as int]
    ensures forall i :: 0 <= i < |s| ==> !('a' <= Upper(s)[i] <= 'z')
    ensures forall i :: 0 <= i < |s| ==> (Upper(s)[i] == s[i] <==> !('a' <= s[i] <= 'z'))
    ensures Upper(Upper(s)) == Upper(s)
  {
  }

  /** `last_snapshot.get("top", [])` of a truthy snapshot: the rows it holds. */
  function Top(snapshot: Option<Payload>): seq<Value>
  {
    match snapshot
    case None => []
    case Some(d) =>
      if d == map[] then []
      else match Get(d, "top")
        case List(items) => items
        case _ => []
  }

  /** A row counts as active when it is an object whose `go` is truthy. */
  predicate IsGoRow(row: Value)
  {
    row.Dict? && Truthy(Get(row.entries, "go"))
  }

  /** `sum(1 for item in top if item.get("go"))`. */
  function CountGo(rows: seq<Value>): (c: nat)
    ensures c <= |rows|
    ensures c == 0 <==> forall i :: 0 <= i < |rows| ==> !IsGoRow(rows[i])
  {
    if rows == [] then 0
    else CountGo(rows[..|rows| - 1]) + (if IsGoRow(rows[|rows| - 1]) then 1 else 0)
  }

  /** How many states in a list are ON. */
  function GoStates(states: seq<SymbolState>): (c: nat)
    ensures c <= |states|
  {
    if states == [] then 0
    else GoStates(states[..|states| - 1]) + (if states[|states| - 1].go then 1 else 0)
  }

  lemma {:induction false} CountGoRows(states: seq<SymbolState>)
    ensures CountGo(Dicts(seq(|states|, i requires 0 <= i < |states| => Row(states[i])))) == GoStates(states)
  {
    if states != [] {
      var n := |states| - 1;
      var rows := Dicts(seq(|states|, i requires 0 <= i < |states| => Row(states[i])));
      assert rows[..n] == Dicts(seq(n, i requires 0 <= i < n => Row(states[..n][i])));
      CountGoRows(states[..n]);
    }
  }

  /**
   * With a cached screener snapshot, `/status` counts exactly the ON states
   * among the snapshot's top, and `/top k` returns the first k of its rows.
   */
  lemma StatusOfSnapshot(states: seq<SymbolState>, n: int, ts: real, k: int)
    ensures var cached := Some(ToDict(SnapshotEvent(states, n, ts)));
      && CountGo(Top(cached)) == GoStates(TopStates(states, n))
      && Prefix(Top(cached), k) == Dicts(Prefix(SnapshotRows(states, n), k))
  {
    var top := TopStates(states, n);
    var rows := SnapshotRows(states, n);
    var d := ToDict(SnapshotEvent(states, n, ts));
    assert d["top"] == List(Dicts(rows));
    assert Top(Some(d)) == Dicts(rows);
    CountGoRows(top);
    var p := Prefix(rows, k);
    assert Prefix(Dicts(rows), k) == Dicts(p);
  }

  /** `Notifier`: the state the bot's event loop and command handlers share. */
  class Notifier {
    const config: NotifyConfig
    var muted: set<string>
    var lastSent: map<Value, real>
    var lastSnapshot: Option<Payload>

    function State(): NotifierState
      reads this
    {
      NotifierState(muted, lastSent, lastSnapshot)
    }

    constructor (config: NotifyConfig)
      ensures this.config == config && State() == Initial
    {
      this.config := config;
      muted := {};
      lastSent := map[];
      lastSnapshot := None;
    }

    /** `should_send`: a refused symbol keeps its entry; an allowed one is stamped with `now`. */
    method ShouldSend(symbol: Value, now: real) returns (ok: bool)
      modifies this`lastSent
      ensures ok == Allowed(old(lastSent), symbol, now, config.minInterval)
      ensures lastSent == if ok then old(lastSent)[symbol := now] else old(lastSent)
    {
      var last := if symbol in lastSent then lastSent[symbol] else 0.0;
      if now - last < config.minInterval as real {
        return false;
      }
      lastSent := lastSent[symbol := now];
      return true;
    }

    /** `update_snapshot` */
    method UpdateSnapshot(event: Payload)
      modifies this`lastSnapshot
      ensures lastSnapshot == Some(event)
    {
      lastSnapshot := Some(event);
    }

    /** `cache_go_event` */
    method CacheGoEvent(event: Payload)
      modifies this`lastSent
      ensures lastSent == Cache(old(lastSent), event)
    {
      var symbol := Get(event, "symbol");
      if !Truthy(symbol) {
        return;
      }
      if Get(event, "type") == Str("go_off") {
        lastSent := lastSent - {symbol};
      }
    }

    /** `get_top`: the first `n` rows of the cached snapshot, read-only. */
    function GetTop(n: int): (r: seq<Value>)
      reads this
      ensures |r| <= |Top(lastSnapshot)| && r == Top(lastSnapshot)[..|r|]
      ensures n >= 0 ==> |r| == Min(n, |Top(lastSnapshot)|)
      ensures lastSnapshot.None? ==> r == []
    {
      if lastSnapshot.None? || lastSnapshot.value == map[] then []
      else Prefix(Top(lastSnapshot), n)
    }

    /** `active_go_count`: the ON rows of the cached snapshot, read-only. */
    function ActiveGoCount(): (c: nat)
      reads this
      ensures c <= |Top(lastSnapshot)|
      ensures c == 0 <==> forall i :: 0 <= i < |Top(lastSnapshot)| ==> !IsGoRow(Top(lastSnapshot)[i])
    {
      if lastSnapshot.None? || lastSnapshot.value == map[] then 0
      else CountGo(Top(lastSnapshot))
    }

    /** `process_event`: the decision and the state change are those of `React`. */
    method ProcessEvent(event: Payload, now: real) returns (message: Option<Message>)
      modifies this`lastSent, this`lastSnapshot
      ensures Reaction(State(), message) == React(old(State()), config, event, now)
    {
      var kind := Get(event, "type");
      var symbol := Get(event, "symbol");
      if kind == Str("snapshot") {
        if config.includeSnapshot {
          UpdateSnapshot(event);
        }
        return None;
      }
      if symbol == Null {
        return None;
      }
      if symbol.Str? && symbol.s in muted {
        return None;
      }
      if kind == Str("go_on") {
        var ok := ShouldSend(symbol, now);
        if !ok {
          return None;
        }
        CacheGoEvent(event);
        return Some(GoMessage(event));
      }
      if kind == Str("go_off") && config.sendGoOff {
        var ok := ShouldSend(symbol, now);
        if !ok {
          return None;
        }
        CacheGoEvent(event);
        return Some(GoOffMessage(symbol, event));
      }
      return None;
    }

    /** `mute`: the upper-cased symbol joins the mute list. */
    method Mute(symbol: string)
      modifies this`muted
      ensures muted == old(muted) + {Upper(symbol)}
    {
      muted := muted + {Upper(symbol)};
    }

    /** `unmute`: the upper-cased symbol leaves the mute list. */
    method Unmute(symbol: string)
      modifies this`muted
      ensures muted == old(muted) - {Upper(symbol)}
    {
      muted := muted - {Upper(symbol)};
    }
  }

  function GoOnEvent(symbol: string): Payload
  {
    map["type" := Str("go_on"), "symbol" := Str(symbol)]
  }

  /**
   * With the default 300-second interval, a fresh notifier alerts on a first
   * `go_on` at `t` exactly when `t` is at least 300, and on a repeat at
   * `t + d` exactly when 300 seconds have passed since the last alert.
   */
  method CooldownScenario(t: real, d: real) returns (first: bool, second: bool)
    ensures first <==> t >= 300.0
    ensures first ==> (second <==> d >= 300.0)
    ensures !first ==> (second <==> t + d >= 300.0)
  {
    var notifier := new Notifier(DefaultConfig);
    var m1 := notifier.ProcessEvent(GoOnEvent("BTCUSDT"), t);
    var m2 := notifier.ProcessEvent(GoOnEvent("BTCUSDT"), t + d);
    first, second := m1.Some?, m2.Some?;
  }

  /**
   * `/mute btcusdt` stores "BTCUSDT": an event for "btcusdt" still alerts,
   * while one for "BTCUSDT" is suppressed.
   */
  method MuteScenario() returns (lowerAlerts: bool, upperAlerts: bool)
    ensures lowerAlerts && !upperAlerts
  {
    var notifier := new Notifier(DefaultConfig);
    notifier.Mute("btcusdt");
    assert Upper("btcusdt") == "BTCUSDT";
    var m1 := notifier.ProcessEvent(GoOnEvent("btcusdt"), 1000.0);
    var m2 := notifier.ProcessEvent(GoOnEvent("BTCUSDT"), 1000.0);
    lowerAlerts, upperAlerts := m1.Some?, m2.Some?;
  }
}
