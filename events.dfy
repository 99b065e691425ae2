/**
 * The event record, its dict form, and the best-effort appender that writes
 * one serialised record per line to the events file
 * (mexc_mm_screener/events.py).
 *
 * Serialisation (`json.dumps`) is a function-valued parameter `encode` of the
 * sink; the file is a `LogFile` object whose text only the sink appends to.
 */
module EventLog {
  import opened Common

  /** The keys `to_dict` may write itself; every other key comes from `extra`. */
  const StandardKeys: set<string> := {"ts", "type", "symbol", "metrics", "top"}

  /** `Event`: `kind` is the `type` field; the three optional parts are `None` when absent. */
  datatype Event = Event(
    ts: real,
    kind: string,
    symbol: Option<string>,
    metrics: Option<Payload>,
    top: Option<seq<Payload>>,
    extra: Payload)

  /** A list of rows as the JSON list of objects it is written as. */
  function Dicts(rows: seq<Payload>): seq<Value>
  {
    seq(|rows|, i requires 0 <= i < |rows| => Dict(rows[i]))
  }

  /** `Event.to_dict`: the standard keys first, then `extra` merged over them. */
  function ToDict(e: Event): Payload
  {
    var withTime := map["ts" := Num(e.ts), "type" := Str(e.kind)];
    var withSymbol := if e.symbol.Some? then withTime["symbol" := Str(e.symbol.value)] else withTime;
    var withMetrics := if e.metrics.Some? then withSymbol["metrics" := Dict(e.metrics.value)] else withSymbol;
    var withTop := if e.top.Some? then withMetrics["top" := List(Dicts(e.top.value))] else withMetrics;
    withTop + e.extra
  }

  /**
   * What `to_dict` writes: `ts` and `type` always; `symbol`, `metrics` and
   * `top` exactly when present (or supplied by `extra`); any other key only
   * from `extra`; and every `extra` entry wins over a standard key.
   */
  lemma ToDictKeys(e: Event)
    ensures var d := ToDict(e);
      && "ts" in d && "type" in d
      && ("symbol" in d <==> e.symbol.Some? || "symbol" in e.extra)
      && ("metrics" in d <==> e.metrics.Some? || "metrics" in e.extra)
      && ("top" in d <==> e.top.Some? || "top" in e.extra)
      && (forall k :: k !in StandardKeys ==> (k in d <==> k in e.extra))
      && (forall k :: k in e.extra ==> d[k] == e.extra[k])
      && ("ts" !in e.extra ==> d["ts"] == Num(e.ts))
      && ("type" !in e.extra ==> d["type"] == Str(e.kind))
      && (e.symbol.Some? && "symbol" !in e.extra ==> d["symbol"] == Str(e.symbol.value))
      && (e.metrics.Some? && "metrics" !in e.extra ==> d["metrics"] == Dict(e.metrics.value))
      && (e.top.Some? && "top" !in e.extra ==> d["top"] == List(Dicts(e.top.value)))
  {
  }

  predicate AllDicts(vs: seq<Value>)
  {
    forall i :: 0 <= i < |vs| ==> vs[i].Dict?
  }

  function Entries(vs: seq<Value>): seq<Payload>
    requires AllDicts(vs)
  {
    seq(|vs|, i requires 0 <= i < |vs| => vs[i].entries)
  }

  /**
   * Reads a record back as an `Event`: the consumer's view of the standard
   * fields, with every other key kept as `extra`. `None` when a standard
   * field is missing or has the wrong JSON type.
   */
  function FromDict(d: Payload): Option<Event>
  {
    if && "ts" in d && d["ts"].Num?
       && "type" in d && d["type"].Str?
       && ("symbol" in d ==> d["symbol"].Str?)
       && ("metrics" in d ==> d["metrics"].Dict?)
       && ("top" in d ==> d["top"].List? && AllDicts(d["top"].items))
    then
      Some(Event(
        d["ts"].x,
        d["type"].s,
        if "symbol" in d then Some(d["symbol"].s) else None,
        if "metrics" in d then Some(d["metrics"].entries) else None,
        if "top" in d then Some(Entries(d["top"].items)) else None,
        d - StandardKeys))
    else None
  }

  /** An event whose `extra` does not shadow a standard key is recovered from its dict. */
  lemma ToDictRoundTrip(e: Event)
    requires e.extra.Keys !! StandardKeys
    ensures FromDict(ToDict(e)) == Some(e)
  {
    var d := ToDict(e);
    ToDictKeys(e);
    assert d - StandardKeys == e.extra;
    if e.top.Some? {
      assert Entries(Dicts(e.top.value)) == e.top.value;
    }
  }

  /** Conversely, every well-formed record is the dict of the event read from it. */
  lemma FromDictRoundTrip(d: Payload)
    requires FromDict(d).Some?
    ensures FromDict(d).value.extra.Keys !! StandardKeys
    ensures ToDict(FromDict(d).value) == d
  {
    var e := FromDict(d).value;
    if "top" in d {
      assert Dicts(Entries(d["top"].items)) == d["top"].items;
    }
    ToDictKeys(e);
    assert ToDict(e).Keys == d.Keys;
  }

  /** The argument of `EventSink.emit`: an `Event`, or a dict written as it is. */
  datatype Emittable = FromEvent(event: Event) | Raw(dict: Payload)

  /** The dict `emit` serialises: `to_dict()` of an `Event`, a raw dict unchanged. */
  function Data(x: Emittable): Payload
  {
    match x
    case FromEvent(e) => ToDict(e)
    case Raw(d) => d
  }

  /** The dicts a sequence of `emit` arguments serialises, in order. */
  function DataOf(xs: seq<Emittable>): seq<Payload>
  {
    seq(|xs|, i requires 0 <= i < |xs| => Data(xs[i]))
  }

  lemma DataOfAppend(a: seq<Emittable>, b: seq<Emittable>)
    ensures DataOf(a + b) == DataOf(a) + DataOf(b)
  {
  }

  /** Records written for `a` and then for `b` are those written for `a + b`. */
  lemma WrittenAppend(w0: seq<Payload>, w1: seq<Payload>, w2: seq<Payload>, a: seq<Emittable>, b: seq<Emittable>)
    requires w1 == w0 + DataOf(a) && w2 == w1 + DataOf(b)
    ensures w2 == w0 + DataOf(a + b)
  {
    DataOfAppend(a, b);
  }

  /** One record as it is written to the file: its serialisation and a newline. */
  function Serialized(d: Payload, encode: Payload -> string): string
  {
    encode(d) + "\n"
  }

  /** Records written one after another, one per line. */
  function Lines(ds: seq<Payload>, encode: Payload -> string): string
  {
    if ds == [] then "" else Serialized(ds[0], encode) + Lines(ds[1..], encode)
  }

  /** Appending one record to a log adds exactly its line at the end. */
  lemma {:induction false} LinesSnoc(ds: seq<Payload>, d: Payload, encode: Payload -> string)
    ensures Lines(ds + [d], encode) == Lines(ds, encode) + Serialized(d, encode)
  {
    if ds == [] {
      assert [d][1..] == [];
    } else {
      DropAppend(ds, [d]);
      LinesSnoc(ds[1..], d, encode);
    }
  }

  /**
   * The events file as the operating system presents it to the writer: its
   * text, and whether opening it for append and writing to it succeed.
   */
  class LogFile {
    var text: string
    var openable: bool
    var writable: bool

    constructor (text: string, openable: bool, writable: bool)
      ensures this.text == text && this.openable == openable && this.writable == writable
    {
      this.text := text;
      this.openable := openable;
      this.writable := writable;
    }

    /** `path.open("a")`: succeeds exactly when the file system allows it. */
    method Open() returns (ok: bool)
      ensures ok == openable
    {
      ok := openable;
    }

    /** `write(line)` and `flush()`: the line is appended when the write succeeds. */
    method Append(line: string) returns (ok: bool)
      modifies this`text
      ensures ok == writable
      ensures text == if ok then old(text) + line else old(text)
    {
      ok := writable;
      if ok {
        text := text + line;
      }
    }
  }

  /** A file holding its initial text and a log holds one record more once that record's line is appended. */
  lemma LogGrows(initial: string, ds: seq<Payload>, d: Payload, encode: Payload -> string)
    ensures initial + Lines(ds + [d], encode) == (initial + Lines(ds, encode)) + Serialized(d, encode)
  {
    LinesSnoc(ds, d, encode);
  }

  /** `EventSink`: a lazily opened, best-effort, line-per-record appender. */
  class EventSink {
    const file: LogFile
    const encode: Payload -> string
    /** `self._file is not None` */
    var handle: bool
    /** every argument ever passed to `emit`, in order */
    ghost var calls: seq<Emittable>
    /** the records that reached the file, in order */
    ghost var written: seq<Payload>
    /** how many times the file has been opened */
    ghost var opens: nat
    ghost const initialText: string

    /** The file holds what it held before, then exactly the written records. */
    ghost predicate Valid()
      reads this, file
    {
      file.text == initialText + Lines(written, encode)
    }

    /** Every `emit` from now on succeeds: a handle is held or can be opened, and writes go through. */
    ghost predicate Reliable()
      reads this, file
    {
      file.writable && (handle || file.openable)
    }

    /** `EventSink.__init__`: nothing is opened yet. */
    constructor (file: LogFile, encode: Payload -> string)
      ensures this.file == file && this.encode == encode
      ensures !handle && opens == 0
      ensures calls == [] && written == []
      ensures Valid()
    {
      this.file := file;
      this.encode := encode;
      handle := false;
      calls := [];
      written := [];
      opens := 0;
      initialText := file.text;
    }

    /** `_ensure_file`: opens only when no handle is held; a failed open leaves none. */
    method EnsureFile()
      modifies this`handle, this`opens
      ensures handle == (old(handle) || file.openable)
      ensures opens == if old(handle) then old(opens) else old(opens) + 1
    {
      if handle {
        return;
      }
      opens := opens + 1;
      handle := file.Open();
    }

    /**
     * `emit`: one line, the serialised dict and a newline, is appended when a
     * handle is held or can be opened and the write succeeds; a failed write
     * drops the handle so that the next call opens again. Nothing is raised.
     */
    method Emit(x: Emittable)
      requires Valid()
      modifies this, file`text
      ensures Valid()
      ensures calls == old(calls) + [x]
      ensures opens == if old(handle) then old(opens) else old(opens) + 1
      ensures var delivered := (old(handle) || file.openable) && file.writable;
        && handle == delivered
        && file.text == old(file.text) + (if delivered then Serialized(Data(x), encode) else "")
        && written == old(written) + (if delivered then [Data(x)] else [])
    {
      var data := Data(x);
      calls := calls + [x];
      EnsureFile();
      if !handle {
        return;
      }
      var ok := file.Append(Serialized(data, encode));
      if ok {
        LogGrows(initialText, written, data, encode);
        written := written + [data];
      } else {
        handle := false;
      }
    }
  }
}
