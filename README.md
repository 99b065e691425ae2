# MEXC market-making screener and alert bot, modelled in Dafny

This project models the event pipeline of the screener and its Telegram bot. The pipeline has four parts:

- **Screener** (`screener.dfy`, module `Screening`). It keeps one `SymbolState` per symbol and runs the two-threshold GO rule on each tick. It emits `go_on` and `go_off` events only when a symbol's flag changes. On a timer, it also emits a snapshot of the top-N symbols by descending score, using a stable sort.
- **Event record and sink** (`events.dfy`, module `EventLog`). `Event.to_dict` builds a dict: optional keys appear only when present, and `extra` is merged last. `EventSink` is a lazily opened, best-effort appender that writes one serialised record per line to a `LogFile`. The `LogFile` class is the file system's view of the events file.
- **Tailer** (`event_tail.dfy`, module `EventTail`). The bot's `tail_events` loop is modelled as a step function `Poll` on a cursor `(position, inode, file open)`. The method `TailEvents` runs that loop's variables over a finite sequence of observations. Each observation is one of `Missing`, `IoError`, or `Present(identity, text)`.
- **Notifier** (`notifier.dfy`, module `Notification`). It combines a per-symbol cooldown, a mute set and the cached last snapshot. `process_event` is specified by the pure function `React` and implemented by `Notifier.ProcessEvent`.

`common.dfy` (module `Common`) holds the parts the others share:

- a JSON `Value`;
- Python truthiness;
- `d.get(k)`;
- Python's `s[:n]` slicing;
- a few sequence identities.

The program's external inputs are parameters of the model:

- the metrics fetched for each symbol on each tick;
- the clock (`now`, `ts` and `start`);
- what the file system answers: whether an open succeeds, whether a write succeeds, and what each poll observes;
- serialisation, as a function `encode` standing for `json.dumps`;
- parsing, as a function `decode` standing for `json.loads`, which returns `None` on a malformed line.

## Behaviour as written

In these places the model follows the code, even where a reader would expect something else.

- A two-threshold rule presumes exit ≤ entry, but the code never checks it: a given exit threshold is used as it is (`ExitThresholdSpec`). With exit above entry, a constant score between the two flips the flag on every tick (`UncheckedExitFlaps`). With exit ≤ entry, a constant score never flips it after the first tick (`NoFlapConstant`).
- Any non-empty `readline` advances the cursor, even an unterminated last fragment. A record caught half-written is therefore consumed as two separate lines (`PartialLineSplit`).
- After a missing file or an I/O error, the tailer forgets the file's identity. The next successful poll reopens the file at offset 0, so records already yielded are yielded again (`RunAfterError`). A log follower is usually expected to deliver each record once. This one does so only while the file stays readable and grows by whole lines that read back: then it yields the records in append order, one per poll while any is waiting, and sleeps through idle polls (`FollowInOrder`). This also holds for the tailer as started, before it has opened anything, on a file that grows from empty (`FollowFromStart`).
- A sent `go_off` removes the symbol's cooldown entry, so the next `go_on` is not held back by the cooldown. `cache_go_event` never does anything for a `go_on` (`ReactGoOff`, `GoOffResetsCooldown`).
- A symbol that has never alerted counts as alerted at time 0. A `go_on` at t=0 is therefore refused, not sent, whenever the minimum interval is positive, as the default of 300 s is (`FirstAlert`, `CooldownScenario`).
- `mute` stores the upper-cased symbol, but `process_event` tests the event's symbol exactly as it is. Muting `btcusdt` suppresses events for `BTCUSDT` and not for `btcusdt` (`MuteScenario`).

## Model

| member | source | states |
|---|---|---|
| Common.Prefix | bot/notifier.py:52 | Python's `s[:n]`: the result is a prefix of `s` of length min(n, \|s\|) for n ≥ 0, and max(0, \|s\|+n) for negative n |
| EventLog.ToDictKeys | mexc_mm_screener/events.py:20-29 | `ts` and `type` are always present. `symbol`, `metrics` and `top` are present exactly when the field is set or `extra` supplies the key. Other keys come only from `extra`. Every `extra` entry overrides a standard key. Otherwise each key carries its field's value. |
| EventLog.ToDict | mexc_mm_screener/events.py:20-29 | `Event.to_dict`; its keys and values are given by `ToDictKeys`, and it is inverted by `FromDict` (`ToDictRoundTrip`, `FromDictRoundTrip`) |
| EventLog.ToDictRoundTrip | mexc_mm_screener/events.py:20-29 | when `extra` does not shadow a standard key, reading the dict back gives the original event |
| EventLog.FromDictRoundTrip | mexc_mm_screener/events.py:20-29 | every well-formed record is exactly the `to_dict` of the event read from it |
| EventLog.LinesSnoc | mexc_mm_screener/events.py:55 | appending one record to a log adds exactly its serialisation and a newline at the end |
| EventLog.LogGrows | mexc_mm_screener/events.py:55 | a file holding its initial text and a log holds exactly one record more once that record's line is appended |
| EventLog.LogFile.constructor | mexc_mm_screener/events.py:41 | the file starts with the given text and open/write permissions |
| EventLog.LogFile.Open | mexc_mm_screener/events.py:41 | opening for append succeeds exactly when the file system allows it |
| EventLog.LogFile.Append | mexc_mm_screener/events.py:55-56 | a successful write appends the line; a failed one leaves the text unchanged |
| EventLog.EventSink.constructor | mexc_mm_screener/events.py:33-35 | no handle is held and nothing is opened or written before the first `emit` |
| EventLog.EventSink.EnsureFile | mexc_mm_screener/events.py:37-44 | opens only when no handle is held; a held handle is reused without another open; a failed open leaves no handle |
| EventLog.EventSink.Emit | mexc_mm_screener/events.py:46-59 | takes an `Event` (via `to_dict`) or a raw dict as it is. Exactly one line, the serialised dict and a newline, is appended when a handle is held or can be opened and the write succeeds. Otherwise the file is unchanged. A failed write drops the handle, so the next call opens again. The file always equals its initial text followed by the lines of the records written. |
| Screening.MetricsRoundTrip | mexc_mm_screener/screener.py:23-31 | `SymbolState.metrics` has exactly the five keys and carries the state's five values |
| Screening.MetricsOf | mexc_mm_screener/screener.py:23-31 | `SymbolState.metrics`; `MetricsRoundTrip` shows it has the five keys and reads back as the state's values |
| Screening.ExitThresholdSpec | mexc_mm_screener/screener.py:59 | the default exit threshold is 0.8 × entry, and it is ≤ entry exactly when entry ≥ 0; a given exit is used unchecked |
| Screening.ExitThreshold | mexc_mm_screener/screener.py:59 | the exit threshold `__init__` stores; specified by `ExitThresholdSpec` |
| Screening.Hysteresis | mexc_mm_screener/screener.py:86-91 | an OFF symbol turns ON iff score ≥ entry; an ON symbol turns OFF iff score < exit |
| Screening.NextGo | mexc_mm_screener/screener.py:86-91 | the new GO flag; `Hysteresis` states both directions of the two-threshold rule |
| Screening.Update | mexc_mm_screener/screener.py:80-91 | one symbol's update in a tick; `TickSpec` states that it stores the fetched values and the `NextGo` flag and keeps the symbol |
| Screening.Tick | mexc_mm_screener/screener.py:79-91 | all symbols' updates in dict order; it keeps the number of states, and `TickSpec` states the rest |
| Screening.TickSpec | mexc_mm_screener/screener.py:79-91 | a tick keeps the symbols, their order and their number. Each state then holds exactly its fetched score and four metrics, and the flag given by the hysteresis rule. Symbols stay distinct. |
| Screening.PartialTickStep | mexc_mm_screener/screener.py:79-91 | updating the next symbol in place advances a partly done tick by one symbol and leaves the rest untouched |
| Screening.HysteresisExample | mexc_mm_screener/screener.py:86-91 | with entry 80 and exit 64, scores 50, 85, 90, 70, 60 give OFF, ON, ON, ON, OFF |
| Screening.UncheckedExitFlaps | mexc_mm_screener/screener.py:59 | an exit threshold above the entry is accepted, and a constant score between the two flips the flag on every tick |
| Screening.NoFlapConstant | mexc_mm_screener/screener.py:86-91 | with exit ≤ entry, a score held constant sets the flag on the first tick and never flips it afterwards |
| Screening.TransitionEvents | mexc_mm_screener/screener.py:92-97 | at most one event per symbol per tick, emitted iff the flag rises, or falls with go-off events enabled: nothing on an unchanged flag or on a falling edge with go-off events off. `go_on` iff OFF→ON. `go_off` iff ON→OFF with go-off events enabled. No other kind. An event is stamped with the tick's time and carries the symbol and the metrics just fetched. |
| Screening.SymbolEvents | mexc_mm_screener/screener.py:92-97 | the events one symbol's update emits; specified by `TransitionEvents` |
| Screening.TickEvents | mexc_mm_screener/screener.py:79-97 | the events of a whole tick, in dict order: there are at most as many as states, and `TickEventsPerSymbol` and `NoEventsForAbsent` give the events about each symbol |
| Screening.NoEventsForAbsent | mexc_mm_screener/screener.py:79-97 | a symbol without a state gets no event in a tick |
| Screening.TickEventsPerSymbol | mexc_mm_screener/screener.py:79-97 | within a tick, the events about a symbol are exactly the ones its own transition emits |
| Screening.EventsAboutOwn | mexc_mm_screener/screener.py:99-103 | a symbol's own events name that symbol and no other |
| Screening.CallsStep | mexc_mm_screener/screener.py:79-97 | emitting symbol by symbol hands the sink the tick's events in dict order |
| Screening.DataStep | mexc_mm_screener/screener.py:79-97 | the records written symbol by symbol add up to the dicts of the tick's events, in dict order |
| Screening.EventShapes | mexc_mm_screener/screener.py:99-121 | a go event's dict has exactly `ts`, `type`, `symbol` and `metrics`, with its type and symbol; a snapshot's dict has exactly `ts`, `type` and `top` |
| Screening.SortByScoreSpec | mexc_mm_screener/screener.py:106 | `sorted(..., key=score, reverse=True)` is a permutation with non-increasing scores that keeps the input order among equal scores |
| Screening.SortByScore | mexc_mm_screener/screener.py:106 | `sorted(..., key=score, reverse=True)`; specified by `SortByScoreSpec` |
| Screening.TopStates | mexc_mm_screener/screener.py:106 | the sorted states cut to `snapshot_top_n`; specified by `SnapshotTopN` and `SnapshotStable` |
| Screening.SnapshotTopN | mexc_mm_screener/screener.py:106 | the top has min(n, \|states\|) entries for n ≥ 0 (Python slicing for negative n). It is non-increasing in score, takes each state at most as often as it exists, and no left-out state scores above a kept one. |
| Screening.SnapshotStable | mexc_mm_screener/screener.py:106 | among equal scores, the top keeps the states' dict order |
| Screening.RowRoundTrip | mexc_mm_screener/screener.py:107-118 | a snapshot row reads back as the state it was built from |
| Screening.SnapshotRowsMirror | mexc_mm_screener/screener.py:107-118 | there is one row per top state, and each row mirrors that state's symbol, go flag, score and four metrics |
| Screening.SnapshotRows | mexc_mm_screener/screener.py:107-118 | the `top` payload of a snapshot; `SnapshotRowsMirror` states that each row mirrors its top state |
| Screening.SnapshotExample | mexc_mm_screener/screener.py:106 | scores A:10, B:90, C:50 with a top of two give B then C |
| Screening.DedupSpec | mexc_mm_screener/screener.py:57 | the states dict has each given symbol exactly once and no other key, in the order of first occurrence: a key before another occurs before every occurrence of the later one |
| Screening.Dedup | mexc_mm_screener/screener.py:57 | the keys of the states dict; specified by `DedupSpec` |
| Screening.InitialStates | mexc_mm_screener/screener.py:57 | one fresh OFF state per key; the constructor states that every given symbol, and only those, has a state |
| Screening.Screener.constructor | mexc_mm_screener/screener.py:46-65 | one OFF state per distinct symbol; the exit threshold is defaulted to 0.8 × entry when not given; the timer starts at 0 |
| Screening.Screener.EmitEvent | mexc_mm_screener/screener.py:99-103 | with no sink nothing is emitted. Otherwise exactly the go event is handed to `emit`, with `emit`'s whole effect: a line is appended and the handle kept exactly when a handle was held or could be opened and the write succeeded. The file's open and write permissions are unchanged. |
| Screening.Screener.ProcessSymbol | mexc_mm_screener/screener.py:80-97 | one loop pass rewrites the i-th state with its fetched values and new flag, and hands the sink exactly that symbol's edge event. For a sink that opens and writes, the records written grow by exactly that event's dict, and the sink stays so. |
| Screening.Screener.ProcessNext | mexc_mm_screener/screener.py:79-97 | one loop pass advances the partly done tick, the emitted calls and the records written from i to i+1 symbols |
| Screening.Screener.ProcessAll | mexc_mm_screener/screener.py:79-97 | the loop over all symbols carries the partly done tick, the emitted calls and the records written from none of the symbols to all of them, and leaves the file's permissions alone |
| Screening.Screener.ProgressDone | mexc_mm_screener/screener.py:78-97 | progress over every symbol is exactly the whole tick: the new states, the calls made and the records written are those of `Tick` and `TickEvents` over all the symbols |
| Screening.Screener.ProcessSymbols | mexc_mm_screener/screener.py:78-97 | the states become exactly the tick of the old states. The sink receives the tick's edge events in dict order, or nothing when there is no sink. For a sink that opens and writes, the log gains exactly those events' dicts, in order. The snapshot timer and the file's permissions are unchanged. |
| Screening.Screener.EmitSnapshot | mexc_mm_screener/screener.py:105-121 | with no sink nothing is emitted. Otherwise exactly one snapshot event, whose `top` is the rows of the top-N states, is handed to `emit`, with `emit`'s whole effect on the handle, the records written and the file text. For a sink that opens and writes, the records written grow by exactly that snapshot's dict. |
| Screening.Screener.RunOnce | mexc_mm_screener/screener.py:69-74 | one tick, then a snapshot of the updated states exactly when `start - last ≥ interval`, which moves the timer to `start` and otherwise leaves it alone. For a sink that opens and writes, the log gains exactly the tick's event dicts and then the snapshot's. |
| Screening.FirstTickLog | mexc_mm_screener/screener.py:46-74 | on an empty events file that opens and accepts writes, a first tick scoring 90 against entry 80 leaves exactly one line: the serialized `go_on` record with the fetched metrics. No snapshot is due at time 0 with a 30-second interval. |
| EventTail.LineEnd | bot/event_tail.py:30 | `readline` stops just after the first newline, or at the end of the text for an unterminated line |
| EventTail.Poll | bot/event_tail.py:16-49 | a poll keeps `inode` None iff no file is held. A missing file or an I/O error closes the file and sleeps. A present file ends with its identity stored and the position within its size. |
| EventTail.PollPresent | bot/event_tail.py:19-37 | reading resumes at the old position only for the same, not shorter, file, and otherwise at 0. The poll consumes exactly one line, a partial one included, and yields its decoding or skips it. It sleeps iff nothing is left to read. |
| EventTail.PollRestart | bot/event_tail.py:19-28 | a changed identity or a file shorter than the position reads exactly as from the start |
| EventTail.Run | bot/event_tail.py:15-49 | successive polls keep the cursor consistent and give one outcome per poll |
| EventTail.RunSnoc | bot/event_tail.py:15-49 | one more poll continues from the cursor the earlier polls left |
| EventTail.OutcomesSnoc | bot/event_tail.py:30-49 | a pass adds its record to the yielded records iff it yields, and adds one sleep iff it sleeps |
| EventTail.RunStep | bot/event_tail.py:15-49 | the run over one more poll extends the records and the sleeps by that poll's outcome |
| EventTail.Pass | bot/event_tail.py:16-49 | one pass of the loop on `position`, `inode` and the open handle does exactly what `Poll` specifies |
| EventTail.TailEvents | bot/event_tail.py:11-49 | the loop yields exactly the records of the run from the initial state, in order, and sleeps exactly as often |
| EventTail.ClosedCursorsAgree | bot/event_tail.py:38-48 | once the file is closed, the position kept is never used again |
| EventTail.RunAfterError | bot/event_tail.py:16-49 | after a missing file or an I/O error the tailer sleeps and then behaves exactly as if it had just started, re-reading from offset 0 |
| EventTail.LineEndAt | bot/event_tail.py:30 | a serialised record followed by a newline is read as exactly one line |
| EventTail.PollNextRecord | bot/event_tail.py:29-34 | when `decode` reads the next record's line back, a tailer positioned just after the earlier records reads that record whole and yields it |
| EventTail.DrainInOrder | bot/event_tail.py:29-37 | the backlog case. When `decode` reads each record's line back and the j-th poll of an unchanging file finds at least the first j+1 records, one poll per record yields them in append order, each exactly once, and the cursor ends just past them. Idle polls are covered by `FollowInOrder`. |
| EventTail.DrainExample | bot/event_tail.py:29-37 | a concrete encoder and decoder meet the assumptions of `DrainInOrder`: two records appended one per poll are yielded in order |
| EventTail.Caught | bot/event_tail.py:29-37 | how many records a tailer that reads one line per poll has taken, given how many each poll saw; bounded by `CaughtBound` and `CaughtIdle` |
| EventTail.CaughtBound | bot/event_tail.py:29-37 | while the file only grows, the tailer never gets ahead of the writer: it has taken at most as many records as the last poll saw |
| EventTail.CaughtIdle | bot/event_tail.py:29-49 | a poll that takes no record finds the tailer caught up with everything written |
| EventTail.LinesTakePrefix | mexc_mm_screener/events.py:55 | a log that grows by whole records keeps what it held before as its prefix |
| EventTail.GrowingPrefix | bot/event_tail.py:29-37 | the first polls of a growing file also see a growing file |
| EventTail.FollowYield | bot/event_tail.py:29-37 | a poll of a file holding more records than the tailer has taken yields exactly the next record, moves the cursor just past it, and does not sleep |
| EventTail.FollowIdle | bot/event_tail.py:29-49 | a poll of a file holding only the records already taken sleeps, with the cursor and the records delivered unchanged |
| EventTail.FollowInOrder | bot/event_tail.py:15-49 | for a file that grows by whole records that `decode` reads back, idle polls included, the tailer delivers exactly the first `Caught(seen)` records, in append order and each once. Every other poll sleeps, and the cursor ends just past the records delivered. |
| EventTail.StartLikeOpen | bot/event_tail.py:19-30 | when the first poll finds the file, a tailer just started runs exactly as one already open on that file at offset 0 |
| EventTail.FollowFromStart | bot/event_tail.py:11-49 | from `Start` (no file open, offset 0), polls of a file growing from empty run exactly as from a cursor open on it at offset 0. So the tailer as started delivers the first `Caught(seen)` records in append order, each once, and sleeps on every other poll. |
| EventTail.CaughtOneIdle | bot/event_tail.py:29-49 | one record seen twice, then two records: the tailer has taken both |
| EventTail.TwoRecords | mexc_mm_screener/events.py:55 | the log after the first of two records is that record's line, and after both it is the two lines in order |
| EventTail.FollowTwo | bot/event_tail.py:15-49 | for any two records that read back, polls seeing the first, the first again and then both yield the first, sleep once, then yield the second |
| EventTail.FollowExample | bot/event_tail.py:15-49 | a concrete encoder and decoder meet the assumptions of `FollowInOrder`, including an idle poll |
| EventTail.PartialLineSplit | bot/event_tail.py:30-32 | a record caught half-written is consumed as two separate lines and never yielded whole |
| Notification.Cache | bot/notifier.py:42-47 | `cache_go_event` only ever removes entries. It removes the symbol's entry exactly for a `go_off` with a truthy symbol, and keeps every other entry unchanged. |
| Notification.LastSent | bot/notifier.py:20 | `last_sent_ts.get(symbol, 0)`; `FirstAlert` shows a missing entry counts as time 0 |
| Notification.Allowed | bot/notifier.py:21 | `should_send`'s test; `ReactGoOn`, `CooldownAfterAlert` and `ShouldSend` state when it holds |
| Notification.ReactSnapshot | bot/notifier.py:62-65 | a snapshot returns no message and is cached exactly when snapshots are included; mutes and cooldowns are untouched |
| Notification.ReactIgnored | bot/notifier.py:66-69 | an event with no symbol, or with a muted symbol, returns nothing and changes nothing |
| Notification.ReactGoOn | bot/notifier.py:70-74 | a `go_on` alerts iff `now - last ≥ min_interval`, with a missing entry counting as 0. It then records `now` for the symbol. A refused one changes nothing. |
| Notification.ReactGoOff | bot/notifier.py:75-79 | a `go_off` changes nothing unless go-off alerts are on. Then it alerts iff the cooldown allows, and a sent one removes the symbol's cooldown entry, except for a falsy symbol, which keeps `now`. |
| Notification.ReactOther | bot/notifier.py:80 | any other event type returns nothing and changes nothing |
| Notification.ReactKeepsMuted | bot/notifier.py:59-80 | `process_event` never changes the mute set |
| Notification.React | bot/notifier.py:59-80 | `process_event` on values; specified case by case by `ReactSnapshot`, `ReactIgnored`, `ReactGoOn`, `ReactGoOff`, `ReactOther` and `ReactKeepsMuted` |
| Notification.CooldownAfterAlert | bot/notifier.py:70-74 | after an alert at t, a second `go_on` at t+d alerts iff d ≥ `min_interval` |
| Notification.FirstAlert | bot/notifier.py:20-21 | a symbol never alerted on counts as alerted at time 0 |
| Notification.GoOffResetsCooldown | bot/notifier.py:75-79 | after a sent `go_off`, the next `go_on` for that symbol is judged as if it had never alerted |
| Notification.UpperSpec | bot/notifier.py:82-86 | upper-casing keeps the length, turns each ASCII lower-case letter into its own capital (`a` to `A` through `z` to `Z`), leaves every other character alone, leaves no lower-case letter, and is idempotent |
| Notification.Upper | bot/notifier.py:82-86 | `str.upper` on ASCII: `UpperSpec` pins every character of the result, each lower-case letter to its capital and everything else unchanged |
| Notification.CountGo | bot/notifier.py:57 | the count of active rows is at most the number of rows, and is 0 iff no row is active |
| Notification.CountGoRows | bot/notifier.py:57 | over snapshot rows, the count equals the number of ON states they were built from |
| Notification.StatusOfSnapshot | bot/notifier.py:49-57 | with a cached screener snapshot, `active_go_count` counts exactly the ON states of the snapshot's top, and `get_top(k)` returns the first k rows |
| Notification.Notifier.constructor | bot/notifier.py:11-16 | a new notifier has no mutes, no cooldowns and no snapshot |
| Notification.Notifier.ShouldSend | bot/notifier.py:18-24 | refuses iff `now - last < min_interval`, with a missing entry counting as 0, and then leaves the map unchanged; otherwise stores `now` for the symbol |
| Notification.Notifier.UpdateSnapshot | bot/notifier.py:39-40 | the cached snapshot becomes the event |
| Notification.Notifier.CacheGoEvent | bot/notifier.py:42-47 | the cooldown map changes exactly as `Cache` says |
| Notification.Notifier.GetTop | bot/notifier.py:49-52 | read-only; the first n rows of the cached `top`, and empty when nothing is cached |
| Notification.Notifier.ActiveGoCount | bot/notifier.py:54-57 | read-only; at most the number of rows, and 0 iff no row's `go` is truthy |
| Notification.Notifier.ProcessEvent | bot/notifier.py:59-80 | the message returned and the new state are exactly those of `React` |
| Notification.Notifier.Mute | bot/notifier.py:82-83 | the upper-cased symbol joins the mute set; cooldowns and the snapshot are untouched |
| Notification.Notifier.Unmute | bot/notifier.py:85-86 | the upper-cased symbol leaves the mute set; cooldowns and the snapshot are untouched |
| Notification.CooldownScenario | bot/notifier.py:18-24 | with the default 300 s interval, a first `go_on` at t alerts iff t ≥ 300. A repeat at t+d then alerts iff d ≥ 300, or iff t+d ≥ 300 when the first was refused. |
| Notification.MuteScenario | bot/notifier.py:68-83 | after `mute("btcusdt")`, an event for `btcusdt` still alerts and one for `BTCUSDT` does not |

## Left out

- The metrics provider `_simulate_metrics` (mexc_mm_screener/screener.py:34-42) uses random numbers. It is replaced by a sequence of fetched metrics per tick.
- `time.time()`, `asyncio.sleep` and the tick-sleep arithmetic (mexc_mm_screener/screener.py:70, 75-76; bot/event_tail.py:49) are not modelled. Clock readings are parameters, and the tailer's sleep is the `Sleep` outcome. `run`'s endless loop is modelled one pass at a time (`RunOnce`).
- `build_screener_from_config`, the YAML configuration and the bot's entry points are not modelled. Their values are constructor parameters, and `NotifyConfig`'s defaults are `DefaultConfig`.
- `json.dumps` and `json.loads` are not modelled as a JSON grammar. They are the parameters `encode` and `decode`. Key order in dicts and float formatting are not modelled.
- The text of alerts is not modelled: `format_go_message`, the go-off string (bot/notifier.py:26-37, 79), `strftime` and `localtime`. A `Message` records the event it is built from.
- Logging calls are left out. They do not affect the state.
- File system semantics are reduced to one observation per poll:
  - `stat` and `st_ino` become an identity number and the whole text;
  - offsets count characters, not bytes, so `tell` and `st_size` agree;
  - `text` is the text as `readline` sees it after newline translation: the file is opened in text mode with universal newlines (bot/event_tail.py:22), so a lone `'\r'` or `"\r\n"` in the file also ends a line there, while `LineEnd` ends lines only at `'\n'`;
  - no write lands only partly.
- `EventTail.FollowInOrder` and `EventTail.DrainInOrder` cover only files that grow by whole lines that `decode` reads back. A line that fails to decode is skipped, and a half-written line is consumed in pieces. These are stated per poll (`PollPresent`, `PartialLineSplit`), not over whole runs.
- `EventTail.Poll` does not model a `UnicodeDecodeError` from `readline`. It is a `ValueError`, not an `OSError`, so bot/event_tail.py:43 does not catch it: it ends the generator, and with it the bot's event worker. The model has no such outcome; an `IoError` observation makes the tailer sleep and later re-read from offset 0 instead.
- Python floats are modelled as exact `real` numbers: there is no NaN or infinity, and `go_score_threshold * 0.8` (mexc_mm_screener/screener.py:59), the score comparisons and the cooldown subtraction are exact in the model where Python rounds.
- The asynchronous generator protocol and the concurrency between the screener, the tailer and the bot are not modelled. A consumer that stops early is not modelled either.
- The Telegram transport and its command handlers are not part of this model.
- `Screening.Screener.ProcessSymbol` does not model in-place mutation of a shared `SymbolState` object. The dict's values are modelled as a sequence, and an update rewrites one entry. The ordering and contents of the states and the emitted events are modelled in full.
- `EventLog.EventSink.Emit` does not model an `OSError` from `flush` separately from one from `write`. Both are the single `writable` answer of the file.
- `Notification.Notifier.Mute` and `Notification.Notifier.Unmute` upper-case ASCII letters only (`Upper`), whereas `str.upper` also maps other Unicode letters.
- `Notification.Upper` maps only the ASCII letters `a`-`z` to their capitals. `str.upper` also maps other Unicode letters, some to more than one character (`ß` to `SS`), so for such symbols Python's result may differ, even in length.
- `Notification.React` takes only an object (`Payload`). The tailer, however, yields whatever value a line decodes to, and the bot's event worker passes it on unchecked (bot/telegram_bot.py:23-26). For a line such as `123` or `[1]`, `process_event` raises `AttributeError` at `event.get` (bot/notifier.py:60). Nothing catches it, so the event worker ends. The model has no such outcome.
- `Notification.React` does not model the exceptions that formatting an alert can raise (bot/notifier.py:27-35, 79):
  - a `metrics` that is not an object, such as `null`, fails at `.get`;
  - a non-numeric metric fails under `:.1f`, and so does a non-numeric `ts` in `localtime`.
  - Python raises after `should_send` has already stamped the cooldown (bot/notifier.py:71-74, 76-79), and the event worker then ends. The model always returns the message and the stamped state.
- `Notification.React` does not model the `TypeError` Python raises for an unhashable symbol (a list or an object) used as a dict key.
- `Notification.React` treats `True` as a cooldown key different from 1 and 1.0, which are both `Num(1.0)` in the model. Python hashes all three alike.
- `Notification.Notifier.GetTop` and `Notification.Notifier.ActiveGoCount` treat a `top` that is not a list as empty. They treat a row that is not an object as inactive, where Python would raise.
- `EventTail.TailEvents` covers a finite sequence of polls. The source loops forever.
- `EventTail.Poll` yields any JSON value that `decode` returns, whether or not it is an object, as `json.loads` does.
