/**
 * Values shared by the screener, the event log, the tailer and the notifier:
 * the JSON values events are made of, Python's truth values, and Python's
 * `s[:n]` slicing, which both the snapshot and the `/top` query use.
 */
module Common {

  datatype Option<+T> = None | Some(value: T)

  /** A JSON value as `json.loads` returns it; `Null` also stands for Python's `None`. */
  datatype Value =
    | Null
    | Bool(b: bool)
    | Num(x: real)
    | Str(s: string)
    | List(items: seq<Value>)
    | Dict(entries: map<string, Value>)

  /** A JSON object: what `Event.to_dict` builds and what the tailer decodes. */
  type Payload = map<string, Value>

  /** `d.get(k)`: a missing key reads as `None`. */
  function Get(d: Payload, k: string): Value
  {
    if k in d then d[k] else Null
  }

  /** Python's truth value of a decoded JSON value (`if x:`). */
  predicate Truthy(v: Value)
  {
    match v
    case Null => false
    case Bool(b) => b
    case Num(x) => x != 0.0
    case Str(s) => s != []
    case List(items) => items != []
    case Dict(entries) => entries != map[]
  }

  function Min(a: int, b: int): int { if a <= b then a else b }

  function Max(a: int, b: int): int { if a >= b then a else b }

  /**
   * Python's `s[:n]`: the first `n` items, all of them when `n` is at least
   * the length, and for a negative `n` everything but the last `-n` items.
   */
  function Prefix<T>(s: seq<T>, n: int): (r: seq<T>)
    ensures |r| == if n >= 0 then Min(n, |s|) else Max(0, |s| + n)
    ensures r == s[..|r|]
  {
    if n >= |s| then s
    else if n >= 0 then s[..n]
    else if |s| + n <= 0 then []
    else s[..|s| + n]
  }

  /*
   * Sequence identities, each proved on its own so that proofs about
   * recursive functions can use them without unfolding those functions.
   */

  lemma SplitFirst<T>(s: seq<T>)
    requires s != []
    ensures [s[0]] + s[1..] == s
  {
  }

  lemma SplitLast<T>(s: seq<T>)
    requires s != []
    ensures s[..|s| - 1] + [s[|s| - 1]] == s
  {
  }

  lemma DropAppend<T>(a: seq<T>, b: seq<T>)
    requires a != []
    ensures (a + b)[1..] == a[1..] + b
  {
  }

  lemma DropCons<T>(x: T, t: seq<T>)
    ensures ([x] + t)[1..] == t
  {
  }

  lemma TakeSnoc<T>(s: seq<T>, i: nat)
    requires i < |s|
    ensures s[..i + 1] == s[..i] + [s[i]]
  {
  }

  lemma TakeAppend<T>(s: seq<T>, t: seq<T>)
    ensures (s + t)[..|s|] == s
  {
  }

  lemma TakeTake<T>(s: seq<T>, i: nat, j: nat)
    requires i <= j <= |s|
    ensures s[..j][..i] == s[..i]
  {
  }

  lemma TakeAll<T>(s: seq<T>)
    ensures s[..|s|] == s
  {
  }

  lemma DropTake<T>(s: seq<T>, k: nat)
    requires 0 < k <= |s|
    ensures s[..k][1..] == s[1..][..k - 1]
  {
  }
}
