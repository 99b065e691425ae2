/**
 * The bot's follower of the events file (bot/event_tail.py): a poll loop
 * that stats the path, reopens it when its identity changes, rewinds when
 * it shrinks, and hands out one decoded line per poll.
 *
 * What a poll sees of the file is an `Observation`: the path is missing,
 * some other I/O error occurs, or it is present with an identity (the inode)
 * and its whole text. Parsing (`json.loads`) is the parameter `decode`,
 * which returns `None` for a malformed line. The sleep between polls is the
 * `Sleep` outcome.
 */
module EventTail {
  import opened Common
  import opened EventLog

  type Identity = nat

  datatype Observation = Missing | IoError | Present(identity: Identity, text: string)

  /** `position`, `inode` and whether `file_obj` holds an open file. */
  datatype Cursor = Cursor(position: nat, inode: Option<Identity>, fileOpen: bool)

  /** The state before the first poll. */
  const Start: Cursor := Cursor(0, None, false)

  /** What one pass of the loop does: yield a record, skip a malformed line, or sleep. */
  datatype Outcome = Yield(record: Value) | Skip | Sleep

  datatype Step = Step(cursor: Cursor, outcome: Outcome)

  /** A file is held open exactly when an identity is remembered. */
  predicate Consistent(c: Cursor)
  {
    c.fileOpen <==> c.inode.Some?
  }

  /** `text[p..e]` is one line as `readline` returns it: up to and including the first newline, or to the end. */
  predicate IsLine(text: string, p: nat, e: nat)
  {
    && p < e <= |text|
    && (forall k :: p <= k < e - 1 ==> text[k] != '\n')
    && (e == |text| || text[e - 1] == '\n')
  }

  /** Where `readline` from `pos` stops. */
  function LineEnd(text: string, pos: nat): (e: nat)
    requires pos <= |text|
    ensures pos <= e <= |text|
    ensures pos < |text| ==> IsLine(text, pos, e)
    decreases |text| - pos
  {
    if pos == |text| then pos
    else if text[pos] == '\n' then pos + 1
    else LineEnd(text, pos + 1)
  }

  /**
   * One pass of `tail_events`' loop. A missing path or an I/O error closes
   * the file and forgets the identity, keeping the position; otherwise the
   * file is reopened at 0 when its identity changed, rewound to 0 when it is
   * shorter than the position, and the next line, complete or not, is read
   * and decoded; with nothing left to read the loop sleeps.
   */
  function Poll(c: Cursor, obs: Observation, decode: string -> Option<Value>): (r: Step)
    requires Consistent(c)
    ensures Consistent(r.cursor)
    ensures !obs.Present? ==> r == Step(Cursor(c.position, None, false), Sleep)
    ensures obs.Present? ==> r.cursor.inode == Some(obs.identity) && r.cursor.position <= |obs.text|
  {
    match obs
    case Missing => Step(Cursor(c.position, None, false), Sleep)
    case IoError => Step(Cursor(c.position, None, false), Sleep)
    case Present(id, text) =>
      var resume := if c.inode != Some(id) then 0 else c.position;
      var p := if |text| < resume then 0 else resume;
      if p < |text| then
        var e := LineEnd(text, p);
        Step(Cursor(e, Some(id), true), match decode(text[p..e]) case Some(v) => Yield(v) case None => Skip)
      else
        Step(Cursor(p, Some(id), true), Sleep)
  }

  /**
   * Reading resumes at the old position only for the same file at least that
   * long; otherwise it starts over at 0. From there the poll consumes exactly
   * one line, a partial last line included, and yields its decoding (or skips
   * it); it sleeps exactly when nothing is left to read.
   */
  lemma PollPresent(c: Cursor, id: Identity, text: string, decode: string -> Option<Value>)
    requires Consistent(c)
    ensures var p := if c.inode == Some(id) && c.position <= |text| then c.position else 0;
      var r := Poll(c, Present(id, text), decode);
      && (r.outcome == Sleep <==> p == |text|)
      && (p == |text| ==> r.cursor.position == p)
      && (p < |text| ==>
            && IsLine(text, p, r.cursor.position)
            && r.outcome == match decode(text[p..r.cursor.position]) case Some(v) => Yield(v) case None => Skip)
  {
  }

  /** A changed identity or a shorter file reads as if the tailer had just started. */
  lemma PollRestart(c: Cursor, id: Identity, text: string, decode: string -> Option<Value>)
    requires Consistent(c)
    requires c.inode != Some(id) || |text| < c.position
    ensures Poll(c, Present(id, text), decode) == Poll(Start, Present(id, text), decode)
  {
  }

  /** The outcomes of successive polls, and the cursor after the last. */
  datatype Trace = Trace(cursor: Cursor, outcomes: seq<Outcome>)

  function Run(c: Cursor, polls: seq<Observation>, decode: string -> Option<Value>): (t: Trace)
    requires Consistent(c)
    ensures Consistent(t.cursor) && |t.outcomes| == |polls|
    decreases |polls|
  {
    if polls == [] then Trace(c, [])
    else
      var s := Poll(c, polls[0], decode);
      var t := Run(s.cursor, polls[1..], decode);
      Trace(t.cursor, [s.outcome] + t.outcomes)
  }

  /** One more poll after a run continues from the run's cursor. */
  lemma {:induction false} RunSnoc(c: Cursor, polls: seq<Observation>, obs: Observation, decode: string -> Option<Value>)
    requires Consistent(c)
    ensures var t := Run(c, polls, decode);
      var s := Poll(t.cursor, obs, decode);
      Run(c, polls + [obs], decode) == Trace(s.cursor, t.outcomes + [s.outcome])
    decreases |polls|
  {
    if polls != [] {
      var s := Poll(c, polls[0], decode);
      DropAppend(polls, [obs]);
      RunSnoc(s.cursor, polls[1..], obs, decode);
    }
  }

  /** The records a run yields, in order. */
  function Delivered(outcomes: seq<Outcome>): (r: seq<Value>)
    ensures |r| <= |outcomes|
  {
    if outcomes == [] then []
    else
      var last := outcomes[|outcomes| - 1];
      Delivered(outcomes[..|outcomes| - 1]) + (if last.Yield? then [last.record] else [])
  }

  /** How many times a run sleeps. */
  function Sleeps(outcomes: seq<Outcome>): (n: nat)
    ensures n <= |outcomes|
  {
    if outcomes == [] then 0
    else Sleeps(outcomes[..|outcomes| - 1]) + (if outcomes[|outcomes| - 1] == Sleep then 1 else 0)
  }

  lemma OutcomesSnoc(outcomes: seq<Outcome>, o: Outcome)
    ensures Delivered(outcomes + [o]) == Delivered(outcomes) + (if o.Yield? then [o.record] else [])
    ensures Sleeps(outcomes + [o]) == Sleeps(outcomes) + (if o == Sleep then 1 else 0)
  {
    TakeAppend(outcomes, [o]);
  }

  /** The run over one more poll, and what it adds to the records and the sleeps. */
  lemma RunStep(polls: seq<Observation>, i: nat, decode: string -> Option<Value>)
    requires i < |polls|
    ensures var t := Run(Start, polls[..i], decode);
      var s := Poll(t.cursor, polls[i], decode);
      var o := s.outcome;
      && Run(Start, polls[..i + 1], decode) == Trace(s.cursor, t.outcomes + [o])
      && Delivered(t.outcomes + [o]) == Delivered(t.outcomes) + (if o.Yield? then [o.record] else [])
      && Sleeps(t.outcomes + [o]) == Sleeps(t.outcomes) + (if o == Sleep then 1 else 0)
  {
    var t := Run(Start, polls[..i], decode);
    var s := Poll(t.cursor, polls[i], decode);
    OutcomesSnoc(t.outcomes, s.outcome);
    TakeSnoc(polls, i);
    RunSnoc(Start, polls[..i], polls[i], decode);
  }

  /** One pass of the loop body on the tailer's variables. */
  method Pass(position: nat, inode: Option<Identity>, fileOpen: bool, obs: Observation, decode: string -> Option<Value>)
    returns (position': nat, inode': Option<Identity>, fileOpen': bool, outcome: Outcome)
    requires Consistent(Cursor(position, inode, fileOpen))
    ensures Step(Cursor(position', inode', fileOpen'), outcome) == Poll(Cursor(position, inode, fileOpen), obs, decode)
  {
    position', inode', fileOpen' := position, inode, fileOpen;
    match obs {
      case Missing =>
        fileOpen' := false;
        inode' := None;
        outcome := Sleep;
      case IoError =>
        fileOpen' := false;
        inode' := None;
        outcome := Sleep;
      case Present(id, text) =>
        if inode' != Some(id) {
          fileOpen' := true;
          inode' := Some(id);
          position' := 0;
        }
        if |text| < position' {
          position' := 0;
        }
        if position' < |text| {
          var e := LineEnd(text, position');
          var line := text[position'..e];
          position' := e;
          match decode(line) {
            case Some(v) => outcome := Yield(v);
            case None => outcome := Skip;
          }
        } else {
          outcome := Sleep;
        }
    }
  }

  /**
   * `tail_events` over a finite sequence of polls: the records it yields and
   * the number of sleeps are those of the run from the initial state.
   */
  method TailEvents(polls: seq<Observation>, decode: string -> Option<Value>) returns (records: seq<Value>, sleeps: nat)
    ensures records == Delivered(Run(Start, polls, decode).outcomes)
    ensures sleeps == Sleeps(Run(Start, polls, decode).outcomes)
  {
    var position: nat := 0;
    var inode: Option<Identity> := None;
    var fileOpen := false;
    records := [];
    sleeps := 0;
    ghost var outcomes: seq<Outcome> := [];
    for i := 0 to |polls|
      invariant Run(Start, polls[..i], decode) == Trace(Cursor(position, inode, fileOpen), outcomes)
      invariant records == Delivered(outcomes) && sleeps == Sleeps(outcomes)
    {
      RunStep(polls, i, decode);
      var outcome;
      position, inode, fileOpen, outcome := Pass(position, inode, fileOpen, polls[i], decode);
      records := records + (if outcome.Yield? then [outcome.record] else []);
      sleeps := sleeps + (if outcome == Sleep then 1 else 0);
      outcomes := outcomes + [outcome];
    }
    TakeAll(polls);
  }

  /** All closed cursors behave alike: the position a closed cursor keeps is never used. */
  lemma {:induction false} ClosedCursorsAgree(p: nat, q: nat, polls: seq<Observation>, decode: string -> Option<Value>)
    ensures Run(Cursor(p, None, false), polls, decode).outcomes == Run(Cursor(q, None, false), polls, decode).outcomes
  {
    if polls != [] {
      var sp := Poll(Cursor(p, None, false), polls[0], decode);
      var sq := Poll(Cursor(q, None, false), polls[0], decode);
      if polls[0].Present? {
        assert sp == sq;
      } else {
        ClosedCursorsAgree(p, q, polls[1..], decode);
      }
    }
  }

  /**
   * After a missing file or an I/O error the tailer behaves as if it had
   * just started: it reads from offset 0 again, so records already yielded
   * are yielded a second time.
   */
  lemma RunAfterError(c: Cursor, err: Observation, polls: seq<Observation>, decode: string -> Option<Value>)
    requires Consistent(c) && !err.Present?
    ensures Run(c, [err] + polls, decode).outcomes == [Sleep] + Run(Start, polls, decode).outcomes
  {
    DropCons(err, polls);
    ClosedCursorsAgree(c.position, 0, polls, decode);
  }

  /** A serialised record followed by a newline is read as exactly one line. */
  lemma {:induction false} LineEndAt(text: string, pos: nat, s: string)
    requires pos + |s| + 1 <= |text|
    requires text[pos..pos + |s| + 1] == s + "\n"
    requires '\n' !in s
    ensures LineEnd(text, pos) == pos + |s| + 1
    decreases |s|
  {
    assert text[pos] == (s + "\n")[0];
    if s != [] {
      assert text[pos + 1..pos + 1 + |s[1..]| + 1] == s[1..] + "\n" by {
        assert text[pos + 1..pos + |s| + 1] == text[pos..pos + |s| + 1][1..];
      }
      LineEndAt(text, pos + 1, s[1..]);
    }
  }

  /** On each of these records, `encode` writes no newline and `decode` reads its line back as the record. */
  ghost predicate DecodesOn(records: seq<Payload>, encode: Payload -> string, decode: string -> Option<Value>)
  {
    forall j :: 0 <= j < |records| ==>
      '\n' !in encode(records[j]) && decode(encode(records[j]) + "\n") == Some(Dict(records[j]))
  }

  /** The j-th poll sees the same file, holding at least the first j + 1 records after `prefix`. */
  ghost predicate Appending(polls: seq<Observation>, id: Identity, prefix: string, records: seq<Payload>, encode: Payload -> string)
    requires |polls| <= |records|
  {
    forall j :: 0 <= j < |polls| ==>
      polls[j].Present? && polls[j].identity == id && prefix + Lines(records[..j + 1], encode) <= polls[j].text
  }

  /** The polls before the n-th see the first n records appended. */
  lemma AppendingPrefix(polls: seq<Observation>, id: Identity, prefix: string, records: seq<Payload>,
                        encode: Payload -> string, n: nat)
    requires n <= |polls| <= |records| && Appending(polls, id, prefix, records, encode)
    ensures Appending(polls[..n], id, prefix, records[..n], encode)
  {
    forall j | 0 <= j < n
      ensures polls[..n][j].Present? && polls[..n][j].identity == id
           && prefix + Lines(records[..n][..j + 1], encode) <= polls[..n][j].text
    {
      assert records[..n][..j + 1] == records[..j + 1];
    }
  }

  /** The last poll sees every record appended. */
  lemma AppendingLast(polls: seq<Observation>, id: Identity, prefix: string, records: seq<Payload>, encode: Payload -> string)
    requires |polls| == |records| && polls != [] && Appending(polls, id, prefix, records, encode)
    ensures var n := |polls| - 1;
      polls[n].Present? && polls[n].identity == id && prefix + Lines(records, encode) <= polls[n].text
  {
    var n := |polls| - 1;
    TakeAll(records);
  }

  lemma DictsLast(rows: seq<Payload>)
    requires rows != []
    ensures Dicts(rows) == Dicts(rows[..|rows| - 1]) + [Dict(rows[|rows| - 1])]
  {
  }

  lemma LinesLast(prefix: string, records: seq<Payload>, encode: Payload -> string)
    requires records != []
    ensures var n := |records| - 1;
      prefix + Lines(records, encode) == (prefix + Lines(records[..n], encode)) + Serialized(records[n], encode)
  {
    var n := |records| - 1;
    SplitLast(records);
    LinesSnoc(records[..n], records[n], encode);
  }

  /** The last poll of a run continues from the cursor the others leave. */
  lemma RunLast(c: Cursor, polls: seq<Observation>, decode: string -> Option<Value>)
    requires Consistent(c) && polls != []
    ensures var n := |polls| - 1;
      var t := Run(c, polls[..n], decode);
      var s := Poll(t.cursor, polls[n], decode);
      Run(c, polls, decode) == Trace(s.cursor, t.outcomes + [s.outcome])
  {
    var n := |polls| - 1;
    SplitLast(polls);
    RunSnoc(c, polls[..n], polls[n], decode);
  }

  /** A tailer just past `written` reads the next serialised record as one line and yields it. */
  lemma PollNextRecord(written: string, d: Payload, id: Identity, text: string,
                       encode: Payload -> string, decode: string -> Option<Value>)
    requires DecodesOn([d], encode, decode)
    requires written + Serialized(d, encode) <= text
    ensures Poll(Cursor(|written|, Some(id), true), Present(id, text), decode)
         == Step(Cursor(|written + Serialized(d, encode)|, Some(id), true), Yield(Dict(d)))
  {
    var pos := |written|;
    var line := Serialized(d, encode);
    assert [d][0] == d;
    assert '\n' !in encode(d) && decode(line) == Some(Dict(d));
    assert text[pos..pos + |line|] == line;
    LineEndAt(text, pos, encode(d));
  }

  /**
   * Records appended by the sink are yielded in order, one per poll, each
   * exactly once, by a tailer positioned after what came before them.
   */
  lemma {:induction false} DrainInOrder(polls: seq<Observation>, id: Identity, prefix: string, records: seq<Payload>,
                                        encode: Payload -> string, decode: string -> Option<Value>)
    requires DecodesOn(records, encode, decode)
    requires |polls| == |records| && Appending(polls, id, prefix, records, encode)
    ensures var t := Run(Cursor(|prefix|, Some(id), true), polls, decode);
      && Delivered(t.outcomes) == Dicts(records)
      && t.cursor == Cursor(|prefix + Lines(records, encode)|, Some(id), true)
  {
    var c := Cursor(|prefix|, Some(id), true);
    if polls == [] {
      assert Lines(records, encode) == "";
    } else {
      var n := |polls| - 1;
      var before := polls[..n];
      var done := records[..n];
      AppendingPrefix(polls, id, prefix, records, encode, n);
      assert DecodesOn(done, encode, decode) by {
        forall j | 0 <= j < |done| ensures done[j] == records[j] { }
      }
      assert DecodesOn([records[n]], encode, decode) by {
        assert [records[n]][0] == records[n];
      }
      DrainInOrder(before, id, prefix, done, encode, decode);
      RunLast(c, polls, decode);
      var t := Run(c, before, decode);
      var r := records[n];
      LinesLast(prefix, records, encode);
      AppendingLast(polls, id, prefix, records, encode);
      PollNextRecord(prefix + Lines(done, encode), r, id, polls[n].text, encode, decode);
      OutcomesSnoc(t.outcomes, Yield(Dict(r)));
      DictsLast(records);
    }
  }

  /**
   * Two records appended one per poll, with an encoder and decoder that
   * agree on them, are yielded in order: the assumptions of `DrainInOrder`
   * can be met.
   */
  lemma DrainExample()
    ensures var r1: Payload := map["n" := Num(1.0)];
      var r2: Payload := map["n" := Num(2.0)];
      var decode := (s: string) => if s == "A\n" then Some(Dict(r1)) else if s == "B\n" then Some(Dict(r2)) else None;
      Delivered(Run(Cursor(0, Some(7), true), [Present(7, "A\n"), Present(7, "A\nB\n")], decode).outcomes)
        == [Dict(r1), Dict(r2)]
  {
    var r1: Payload := map["n" := Num(1.0)];
    var r2: Payload := map["n" := Num(2.0)];
    var encode := (d: Payload) => if d == r1 then "A" else "B";
    var decode := (s: string) => if s == "A\n" then Some(Dict(r1)) else if s == "B\n" then Some(Dict(r2)) else None;
    var records := [r1, r2];
    var polls := [Present(7, "A\n"), Present(7, "A\nB\n")];
    assert r1 != r2 by { assert r1["n"] != r2["n"]; }
    assert DecodesOn(records, encode, decode) by {
      assert encode(r1) + "\n" == "A\n" && encode(r2) + "\n" == "B\n";
    }
    TwoRecords(r1, r2, encode);
    assert Appending(polls, 7, "", records, encode);
    DrainInOrder(polls, 7, "", records, encode, decode);
  }

  /** No count is ever taken back. */
  predicate NonDecreasing(seen: seq<nat>)
  {
    forall i, j :: 0 <= i <= j < |seen| ==> seen[i] <= seen[j]
  }

  /**
   * The j-th poll sees the same file holding exactly `prefix` and then the
   * first `seen[j]` records, with `seen` never decreasing: a writer that
   * appends whole lines, possibly several or none between two polls.
   */
  ghost predicate Growing(polls: seq<Observation>, id: Identity, prefix: string, records: seq<Payload>,
                          seen: seq<nat>, encode: Payload -> string)
  {
    && |seen| == |polls|
    && NonDecreasing(seen)
    && forall j :: 0 <= j < |seen| ==>
         seen[j] <= |records| && polls[j] == Present(id, prefix + Lines(records[..seen[j]], encode))
  }

  /** How many records a tailer reading one line per poll has taken after polls that saw `seen` records. */
  function Caught(seen: seq<nat>): nat
  {
    if seen == [] then 0
    else
      var m := Caught(seen[..|seen| - 1]);
      if m < seen[|seen| - 1] then m + 1 else m
  }

  /** The tailer never gets ahead of the writer. */
  lemma {:induction false} CaughtBound(seen: seq<nat>)
    requires NonDecreasing(seen) && seen != []
    ensures Caught(seen) <= seen[|seen| - 1]
    decreases |seen|
  {
    var n := |seen| - 1;
    if n > 0 {
      var before := seen[..n];
      assert NonDecreasing(before);
      CaughtBound(before);
      assert before[n - 1] == seen[n - 1] <= seen[n];
    }
  }

  /** A poll that takes no record finds the tailer caught up with everything written. */
  lemma CaughtIdle(seen: seq<nat>)
    requires NonDecreasing(seen) && seen != []
    requires Caught(seen) == Caught(seen[..|seen| - 1])
    ensures Caught(seen) == seen[|seen| - 1]
  {
    CaughtBound(seen);
  }

  /** A log that grows by whole records keeps what it held before as its prefix. */
  lemma {:induction false} LinesTakePrefix(records: seq<Payload>, a: nat, b: nat, encode: Payload -> string)
    requires a <= b <= |records|
    ensures Lines(records[..a], encode) <= Lines(records[..b], encode)
    decreases b - a
  {
    if a < b {
      LinesTakePrefix(records, a, b - 1, encode);
      TakeSnoc(records, b - 1);
      LinesSnoc(records[..b - 1], records[b - 1], encode);
    }
  }

  /** The first polls of a growing file see it grow as well. */
  lemma GrowingPrefix(polls: seq<Observation>, id: Identity, prefix: string, records: seq<Payload>,
                      seen: seq<nat>, encode: Payload -> string, n: nat)
    requires Growing(polls, id, prefix, records, seen, encode) && n <= |polls|
    ensures Growing(polls[..n], id, prefix, records, seen[..n], encode)
  {
  }

  /** The next poll of a file holding more records than the tailer has taken yields the next one. */
  lemma FollowYield(t: Trace, m: nat, k: nat, id: Identity, prefix: string, records: seq<Payload>,
                    encode: Payload -> string, decode: string -> Option<Value>)
    requires DecodesOn(records, encode, decode) && m < k <= |records|
    requires t.cursor == Cursor(|prefix + Lines(records[..m], encode)|, Some(id), true)
    requires Delivered(t.outcomes) == Dicts(records[..m])
    ensures var s := Poll(t.cursor, Present(id, prefix + Lines(records[..k], encode)), decode);
      && s == Step(Cursor(|prefix + Lines(records[..m + 1], encode)|, Some(id), true), Yield(Dict(records[m])))
      && Delivered(t.outcomes + [s.outcome]) == Dicts(records[..m + 1])
      && Sleeps(t.outcomes + [s.outcome]) == Sleeps(t.outcomes)
  {
    var r := records[m];
    var written := prefix + Lines(records[..m], encode);
    var text := prefix + Lines(records[..k], encode);
    var taken := records[..m + 1];
    TakeTake(records, m, m + 1);
    assert taken[m] == r;
    LinesTakePrefix(records, m + 1, k, encode);
    LinesLast(prefix, taken, encode);
    assert DecodesOn([r], encode, decode) by {
      assert [r][0] == r;
    }
    PollNextRecord(written, r, id, text, encode, decode);
    OutcomesSnoc(t.outcomes, Yield(Dict(r)));
    DictsLast(taken);
  }

  /** The next poll of a file holding only what the tailer has taken sleeps where it is. */
  lemma FollowIdle(t: Trace, m: nat, id: Identity, prefix: string, records: seq<Payload>,
                   encode: Payload -> string, decode: string -> Option<Value>)
    requires m <= |records|
    requires t.cursor == Cursor(|prefix + Lines(records[..m], encode)|, Some(id), true)
    ensures var s := Poll(t.cursor, Present(id, prefix + Lines(records[..m], encode)), decode);
      && s == Step(t.cursor, Sleep)
      && Delivered(t.outcomes + [s.outcome]) == Delivered(t.outcomes)
      && Sleeps(t.outcomes + [s.outcome]) == Sleeps(t.outcomes) + 1
  {
    OutcomesSnoc(t.outcomes, Sleep);
  }

  /**
   * A tailer following a file that grows by whole records, with idle polls
   * in between, yields the records in append order, each exactly once: after
   * the polls it has yielded exactly the first `Caught(seen)` records and sits
   * just past them, and every other poll slept.
   */
  lemma {:induction false} FollowInOrder(polls: seq<Observation>, id: Identity, prefix: string, records: seq<Payload>,
                                         seen: seq<nat>, encode: Payload -> string, decode: string -> Option<Value>)
    requires DecodesOn(records, encode, decode)
    requires Growing(polls, id, prefix, records, seen, encode)
    ensures var t := Run(Cursor(|prefix|, Some(id), true), polls, decode);
      var m := Caught(seen);
      && m <= |records|
      && Delivered(t.outcomes) == Dicts(records[..m])
      && Sleeps(t.outcomes) == |polls| - m
      && t.cursor == Cursor(|prefix + Lines(records[..m], encode)|, Some(id), true)
    decreases |polls|
  {
    var c := Cursor(|prefix|, Some(id), true);
    if polls == [] {
      assert records[..0] == [] && Lines([], encode) == "";
    } else {
      var n := |polls| - 1;
      GrowingPrefix(polls, id, prefix, records, seen, encode, n);
      FollowInOrder(polls[..n], id, prefix, records, seen[..n], encode, decode);
      var m := Caught(seen[..n]);
      var t := Run(c, polls[..n], decode);
      RunLast(c, polls, decode);
      assert m <= seen[n] by {
        if n > 0 {
          CaughtBound(seen[..n]);
          assert seen[..n][n - 1] == seen[n - 1];
        }
      }
      assert seen[..|seen| - 1] == seen[..n];
      if m < seen[n] {
        FollowYield(t, m, seen[n], id, prefix, records, encode, decode);
      } else {
        FollowIdle(t, m, id, prefix, records, encode, decode);
      }
    }
  }

  /** A first poll that finds the file reads it from offset 0, as a tailer already open on it at 0 would. */
  lemma StartLikeOpen(polls: seq<Observation>, id: Identity, decode: string -> Option<Value>)
    requires polls != [] && polls[0].Present? && polls[0].identity == id
    ensures Run(Start, polls, decode) == Run(Cursor(0, Some(id), true), polls, decode)
  {
    assert Poll(Start, polls[0], decode) == Poll(Cursor(0, Some(id), true), polls[0], decode);
  }

  /**
   * A tailer just started follows a file that grows from empty exactly as one
   * already open on it at offset 0: it delivers the records in append order,
   * each once, and sleeps on every other poll.
   */
  lemma FollowFromStart(polls: seq<Observation>, id: Identity, records: seq<Payload>, seen: seq<nat>,
                        encode: Payload -> string, decode: string -> Option<Value>)
    requires Growing(polls, id, "", records, seen, encode)
    ensures Caught(seen) <= |records|
    ensures Run(Start, polls, decode).outcomes == Run(Cursor(0, Some(id), true), polls, decode).outcomes
    ensures polls != [] ==> Run(Start, polls, decode) == Run(Cursor(0, Some(id), true), polls, decode)
    ensures DecodesOn(records, encode, decode) ==>
      var t := Run(Start, polls, decode);
      && Delivered(t.outcomes) == Dicts(records[..Caught(seen)])
      && Sleeps(t.outcomes) == |polls| - Caught(seen)
  {
    if polls != [] {
      CaughtBound(seen);
      StartLikeOpen(polls, id, decode);
    }
    if DecodesOn(records, encode, decode) {
      FollowInOrder(polls, id, "", records, seen, encode, decode);
    }
  }

  /** One record seen twice, then two: the tailer takes one, waits, then takes the other. */
  lemma CaughtOneIdle()
    ensures Caught([1, 1, 2]) == 2
  {
    assert [1, 1, 2][..2] == [1, 1] && [1, 1][..1] == [1] && [1][..0] == [];
  }

  /**
   * Two records, the second appended only after an idle poll: the tailer
   * yields the first, sleeps once, then yields the second.
   */
  /** The logs holding the first one and both of two records, and the dicts of both. */
  lemma TwoRecords(r1: Payload, r2: Payload, encode: Payload -> string)
    ensures Lines([r1, r2][..1], encode) == Serialized(r1, encode)
    ensures Lines([r1, r2][..2], encode) == Serialized(r1, encode) + Serialized(r2, encode)
    ensures Dicts([r1, r2][..2]) == [Dict(r1), Dict(r2)]
  {
    var records := [r1, r2];
    assert records[..1] == [r1] && [r1][1..] == [];
    assert records[..2] == records && records[1..] == [r2] && [r2][1..] == [];
  }

  lemma FollowTwo(r1: Payload, r2: Payload, encode: Payload -> string, decode: string -> Option<Value>)
    requires DecodesOn([r1, r2], encode, decode)
    ensures var a := Serialized(r1, encode);
      var t := Run(Cursor(0, Some(7), true), [Present(7, a), Present(7, a), Present(7, a + Serialized(r2, encode))], decode);
      Delivered(t.outcomes) == [Dict(r1), Dict(r2)] && Sleeps(t.outcomes) == 1
  {
    var records := [r1, r2];
    var a := Serialized(r1, encode);
    var polls := [Present(7, a), Present(7, a), Present(7, a + Serialized(r2, encode))];
    var seen: seq<nat> := [1, 1, 2];
    TwoRecords(r1, r2, encode);
    assert Growing(polls, 7, "", records, seen, encode);
    CaughtOneIdle();
    FollowInOrder(polls, 7, "", records, seen, encode, decode);
  }

  /** `FollowTwo` for two concrete records written as the lines `A` and `B`. */
  lemma FollowExample()
    ensures var r1: Payload := map["n" := Num(1.0)];
      var r2: Payload := map["n" := Num(2.0)];
      var decode := (s: string) => if s == "A\n" then Some(Dict(r1)) else if s == "B\n" then Some(Dict(r2)) else None;
      var t := Run(Cursor(0, Some(7), true), [Present(7, "A\n"), Present(7, "A\n"), Present(7, "A\nB\n")], decode);
      Delivered(t.outcomes) == [Dict(r1), Dict(r2)] && Sleeps(t.outcomes) == 1
  {
    var r1: Payload := map["n" := Num(1.0)];
    var r2: Payload := map["n" := Num(2.0)];
    var encode := (d: Payload) => if d == r1 then "A" else "B";
    var decode := (s: string) => if s == "A\n" then Some(Dict(r1)) else if s == "B\n" then Some(Dict(r2)) else None;
    assert r1 != r2 by { assert r1["n"] != r2["n"]; }
    assert Serialized(r1, encode) == "A\n" && Serialized(r2, encode) == "B\n";
    assert DecodesOn([r1, r2], encode, decode);
    FollowTwo(r1, r2, encode, decode);
    assert "A\n" + "B\n" == "A\nB\n";
  }

  /**
   * A record written in two pieces is never yielded whole: the poll between
   * the writes consumes the first piece as a line of its own, and the next
   * poll reads only the rest.
   */
  lemma PartialLineSplit(id: Identity, decode: string -> Option<Value>)
    ensures var c := Cursor(0, Some(id), true);
      var first := Poll(c, Present(id, "{\"a\""), decode);
      var second := Poll(first.cursor, Present(id, "{\"a\":1}\n"), decode);
      && first.cursor.position == 4
      && first.outcome == (match decode("{\"a\"") case Some(v) => Yield(v) case None => Skip)
      && second.cursor.position == 8
      && second.outcome == (match decode(":1}\n") case Some(v) => Yield(v) case None => Skip)
  {
    var t1: string := "{\"a\"";
    var t2: string := "{\"a\":1}\n";
    assert LineEnd(t1, 0) == 4;
    assert LineEnd(t2, 4) == 8;
    assert t1[0..4] == t1;
    assert t2[4..8] == ":1}\n";
  }
}
