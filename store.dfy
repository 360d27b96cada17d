/**
 * The per-device decision state of app/utils.py: a warm-up counter and a
 * bounded history of abnormality flags, kept in a key-value store under the
 * keys "counter:{gateway}:{sensor}" and "history:{gateway}:{sensor}".
 *
 * The store is two maps from key string to stored value; a `get` of a
 * missing key is a map miss and a `delete` removes the key. The JSON
 * encoding of the history list is the identity on the sequence.
 */
module DecisionState {
  import opened Wrappers
  import opened GatewayConfig

  const COUNTER_PREFIX: string := "counter:"
  const HISTORY_PREFIX: string := "history:"

  /** Key of a device's warm-up counter. */
  function CounterKey(gateway: string, sensor: string): (k: string)
    ensures |k| == |COUNTER_PREFIX| + |gateway| + 1 + |sensor|
    ensures k[..|COUNTER_PREFIX|] == COUNTER_PREFIX
    ensures k[|COUNTER_PREFIX|..|COUNTER_PREFIX| + |gateway|] == gateway
    ensures k[|k| - |sensor| - 1] == ':' && k[|k| - |sensor|..] == sensor
  {
    COUNTER_PREFIX + gateway + ":" + sensor
  }

  /** Key of a device's prediction history. */
  function HistoryKey(gateway: string, sensor: string): (k: string)
    ensures |k| == |HISTORY_PREFIX| + |gateway| + 1 + |sensor|
    ensures k[..|HISTORY_PREFIX|] == HISTORY_PREFIX
    ensures k[|HISTORY_PREFIX|..|HISTORY_PREFIX| + |gateway|] == gateway
    ensures k[|k| - |sensor| - 1] == ':' && k[|k| - |sensor|..] == sensor
  {
    HISTORY_PREFIX + gateway + ":" + sensor
  }

  /** No counter key is ever a history key, so the two records never overwrite each other. */
  lemma NamespacesDisjoint(g: string, s: string, g': string, s': string)
    ensures CounterKey(g, s) != HistoryKey(g', s')
  {
    assert CounterKey(g, s)[0] == 'c';
    assert HistoryKey(g', s')[0] == 'h';
  }

  /** Position of the first colon in `x` (|x| when there is none). */
  function FirstColon(x: string): nat {
    if x == [] then 0 else if x[0] == ':' then 0 else 1 + FirstColon(x[1..])
  }

  lemma {:induction false} FirstColonEndsName(g: string, s: string)
    requires ':' !in g
    ensures FirstColon(g + ":" + s) == |g|
  {
    if g != [] {
      assert (g + ":" + s)[1..] == g[1..] + ":" + s;
      FirstColonEndsName(g[1..], s);
    }
  }

  /** Splitting "gateway:sensor" at the first colon recovers both names. */
  lemma SplitAtFirstColon(g: string, s: string, g': string, s': string)
    requires ':' !in g && ':' !in g'
    requires g + ":" + s == g' + ":" + s'
    ensures g == g' && s == s'
  {
    var a, b := g + ":" + s, g' + ":" + s';
    FirstColonEndsName(g, s);
    FirstColonEndsName(g', s');
    assert g == a[..|g|] == b[..|g|] == g';
    assert s == a[|g| + 1..] == b[|g| + 1..] == s';
  }

  /** Devices whose gateway names contain no colon get distinct counter and history keys. */
  lemma KeysIdentifyDevice(g: string, s: string, g': string, s': string)
    requires ':' !in g && ':' !in g'
    ensures CounterKey(g, s) == CounterKey(g', s') <==> g == g' && s == s'
    ensures HistoryKey(g, s) == HistoryKey(g', s') <==> g == g' && s == s'
  {
    PrefixedKeysIdentify(COUNTER_PREFIX, g, s, g', s');
    PrefixedKeysIdentify(HISTORY_PREFIX, g, s, g', s');
  }

  lemma PrefixedKeysIdentify(prefix: string, g: string, s: string, g': string, s': string)
    requires ':' !in g && ':' !in g'
    ensures prefix + g + ":" + s == prefix + g' + ":" + s' <==> g == g' && s == s'
  {
    var a, b := prefix + g + ":" + s, prefix + g' + ":" + s';
    if a == b {
      assert a[|prefix|..] == g + ":" + s;
      assert b[|prefix|..] == g' + ":" + s';
      SplitAtFirstColon(g, s, g', s');
    }
  }

  /** Without that restriction two devices can share one record. */
  lemma ColonNamesShareRecord()
    ensures CounterKey("a:b", "c") == CounterKey("a", "b:c")
    ensures HistoryKey("a:b", "c") == HistoryKey("a", "b:c")
  {
  }

  /** `_is_prediction_abnormal` followed by `1 if is_abnormal else 0`. */
  function Flag(prediction: int, abnormalLabels: seq<int>): (f: int)
    ensures f == 1 <==> prediction in abnormalLabels
    ensures f == 0 <==> prediction !in abnormalLabels
  {
    if prediction in abnormalLabels then 1 else 0
  }

  /** What `deque(stored, maxlen=n)` holds: the last n entries of `stored`, in order. */
  function LastN(stored: seq<int>, n: nat): (window: seq<int>)
    ensures |window| == Min(|stored|, n)
    ensures window == stored[|stored| - |window|..]
  {
    if |stored| <= n then stored else stored[|stored| - n..]
  }

  /**
   * `deque.append` on a deque with `maxlen = m` holding `h`: below capacity
   * the flag is added at the end; at capacity the oldest entry is dropped
   * first (with m = 0 the deque stays empty).
   */
  function DequeAppend(h: seq<int>, x: int, m: nat): (r: seq<int>)
    requires |h| <= m
    ensures |r| <= m
    ensures |h| < m ==> r == h + [x]
    ensures 0 < m == |h| ==> r == h[1..] + [x]
  {
    if |h| < m then h + [x] else if m == 0 then [] else h[1..] + [x]
  }

  /** The deque always keeps exactly the last m entries of everything appended. */
  lemma DequeAppendKeepsWindow(h: seq<int>, x: int, m: nat)
    requires |h| <= m
    ensures DequeAppend(h, x, m) == LastN(h + [x], m)
  {
    if |h| == m && m > 0 {
      assert (h + [x])[|h + [x]| - m..] == h[1..] + [x];
    }
  }

  /** Truncating twice to the same window is truncating once to it. */
  lemma LastNOfAppended(a: seq<int>, b: seq<int>, n: nat)
    ensures LastN(LastN(a, n) + b, n) == LastN(a + b, n)
  {
    var w := LastN(a, n);
    var c := a + b;
    var s := |a| - |w|;
    var k := Min(|c|, n);
    SuffixThenAppend(a, b, s);
    assert |w + b| - k + s == |c| - k;
    SuffixOfSuffix(c, s, |w + b| - k);
  }

  lemma SuffixOfSuffix(c: seq<int>, s: nat, t: nat)
    requires s + t <= |c|
    ensures c[s..][t..] == c[s + t..]
  {
  }

  lemma SuffixThenAppend(a: seq<int>, b: seq<int>, s: nat)
    requires s <= |a|
    ensures a[s..] + b == (a + b)[s..]
  {
    forall i | 0 <= i < |a[s..] + b|
      ensures (a[s..] + b)[i] == (a + b)[s..][i]
    {
      if i < |a| - s {
        assert (a[s..] + b)[i] == a[s + i];
      } else {
        assert (a[s..] + b)[i] == b[i - (|a| - s)];
      }
    }
  }

  /**
   * The history written back by `update_prediction_history`: the stored list
   * loaded into a deque of capacity m, with the new flag appended.
   */
  function Recorded(stored: seq<int>, flag: int, m: nat): (r: seq<int>)
    ensures |r| <= m && |r| <= |stored| + 1
    ensures r == LastN(stored + [flag], m)
  {
    LastNOfAppended(stored, [flag], m);
    DequeAppendKeepsWindow(LastN(stored, m), flag, m);
    DequeAppend(LastN(stored, m), flag, m)
  }

  /** `sum(prediction_history)`. */
  function Sum(h: seq<int>): (sigma: int)
    ensures AllFlags(h) ==> 0 <= sigma <= |h|
  {
    if h == [] then 0 else h[0] + Sum(h[1..])
  }

  predicate AllFlags(h: seq<int>) {
    forall i :: 0 <= i < |h| ==> h[i] == 0 || h[i] == 1
  }

  /** Over 0/1 flags the sum is the number of abnormal entries, so it lies in [0, |h|]. */
  lemma {:induction false} SumCountsAbnormal(h: seq<int>)
    requires AllFlags(h)
    ensures Sum(h) == multiset(h)[1]
    ensures 0 <= Sum(h) <= |h|
  {
    if h != [] {
      assert AllFlags(h[1..]) by {
        forall i | 0 <= i < |h[1..]| ensures h[1..][i] == 0 || h[1..][i] == 1 {
          assert h[1..][i] == h[i + 1];
        }
      }
      SumCountsAbnormal(h[1..]);
      assert h == [h[0]] + h[1..];
      assert multiset(h) == multiset([h[0]]) + multiset(h[1..]);
    }
  }

  /** A recorded history of flags is again a history of flags. */
  lemma RecordedKeepsFlags(stored: seq<int>, flag: int, m: nat)
    requires AllFlags(stored) && (flag == 0 || flag == 1)
    ensures AllFlags(Recorded(stored, flag, m))
  {
    var all := stored + [flag];
    AppendedFlagKeepsFlags(stored, flag);
    var r := Recorded(stored, flag, m);
    assert r == all[|all| - |r|..];
    SuffixKeepsFlags(all, |all| - |r|);
  }

  lemma AppendedFlagKeepsFlags(stored: seq<int>, flag: int)
    requires AllFlags(stored) && (flag == 0 || flag == 1)
    ensures AllFlags(stored + [flag])
  {
    var all := stored + [flag];
    forall j | 0 <= j < |all| ensures all[j] == 0 || all[j] == 1 {
      if j < |stored| {
        assert all[j] == stored[j];
      }
    }
  }

  lemma SuffixKeepsFlags(h: seq<int>, s: nat)
    requires AllFlags(h) && s <= |h|
    ensures AllFlags(h[s..])
  {
    forall i | 0 <= i < |h[s..]| ensures h[s..][i] == 0 || h[s..][i] == 1 {
      assert h[s..][i] == h[s + i];
    }
  }

  /** The counter value a `get` of the counter key yields: 0 when the key is absent. */
  function CounterIn(counters: map<string, int>, g: string, s: string): int {
    if CounterKey(g, s) in counters then counters[CounterKey(g, s)] else 0
  }

  /** The stored history list: empty when the key is absent. */
  function HistoryIn(histories: map<string, seq<int>>, g: string, s: string): seq<int> {
    if HistoryKey(g, s) in histories then histories[HistoryKey(g, s)] else []
  }

  /** After a delete the counter reads 0 and the history reads empty, and deleting again changes nothing. */
  lemma ClearIsIdempotent(counters: map<string, int>, histories: map<string, seq<int>>, g: string, s: string)
    ensures CounterIn(counters - {CounterKey(g, s)}, g, s) == 0
    ensures HistoryIn(histories - {HistoryKey(g, s)}, g, s) == []
    ensures counters - {CounterKey(g, s)} - {CounterKey(g, s)} == counters - {CounterKey(g, s)}
    ensures histories - {HistoryKey(g, s)} - {HistoryKey(g, s)} == histories - {HistoryKey(g, s)}
  {
  }

  /** The key-value database holding the decision state of every device. */
  class Store {
    var counters: map<string, int>
    var histories: map<string, seq<int>>

    constructor ()
      ensures counters == map[] && histories == map[]
    {
      counters := map[];
      histories := map[];
    }

    /** `_get_prediction_counter`. */
    function Counter(g: string, s: string): (c: int)
      reads this
      ensures CounterKey(g, s) in counters ==> c == counters[CounterKey(g, s)]
      ensures CounterKey(g, s) !in counters ==> c == 0
    {
      CounterIn(counters, g, s)
    }

    /** The history list as stored, before it is loaded into a bounded deque. */
    function StoredHistory(g: string, s: string): (h: seq<int>)
      reads this
      ensures HistoryKey(g, s) in histories ==> h == histories[HistoryKey(g, s)]
      ensures HistoryKey(g, s) !in histories ==> h == []
    {
      HistoryIn(histories, g, s)
    }

    /**
     * `_get_prediction_history` with `maxlen = m`: the last m stored flags,
     * or None where `deque` raises ValueError because m is negative.
     */
    function LoadHistory(g: string, s: string, m: int): (r: Option<seq<int>>)
      reads this
      ensures r.None? <==> m < 0
      ensures r.Some? ==> |r.value| <= m && r.value == LastN(StoredHistory(g, s), m)
    {
      if m < 0 then None else Some(LastN(StoredHistory(g, s), m))
    }

    /** The warm-up counter bounds the history: the invariant `gateway_adaptive_inference_heuristic` asserts. */
    predicate Coherent(g: string, s: string)
      reads this
    {
      Counter(g, s) >= |StoredHistory(g, s)|
    }

    /** `_set_prediction_counter`. */
    method SetCounter(g: string, s: string, c: int)
      modifies this
      ensures counters == old(counters)[CounterKey(g, s) := c]
      ensures histories == old(histories)
      ensures Counter(g, s) == c
    {
      counters := counters[CounterKey(g, s) := c];
    }

    /** `update_prediction_counter`: read, add one, write back, return the new value. */
    method UpdateCounter(g: string, s: string) returns (c: int)
      modifies this
      ensures c == old(Counter(g, s)) + 1
      ensures counters == old(counters)[CounterKey(g, s) := c]
      ensures histories == old(histories)
    {
      c := Counter(g, s);
      c := c + 1;
      SetCounter(g, s, c);
    }

    /** `_set_prediction_history`. */
    method SetHistory(g: string, s: string, h: seq<int>)
      modifies this
      ensures histories == old(histories)[HistoryKey(g, s) := h]
      ensures counters == old(counters)
      ensures StoredHistory(g, s) == h
    {
      histories := histories[HistoryKey(g, s) := h];
    }

    /**
     * `update_prediction_history`: load the bounded deque, append the flag of
     * `prediction`, write it back and return it. With a negative capacity the
     * load raises and nothing is written (None).
     */
    method UpdateHistory(g: string, s: string, prediction: int, abnormalLabels: seq<int>, m: int)
      returns (r: Option<seq<int>>)
      modifies this
      ensures counters == old(counters)
      ensures m < 0 ==> r == None && histories == old(histories)
      ensures m >= 0 ==> r == Some(Recorded(old(StoredHistory(g, s)), Flag(prediction, abnormalLabels), m))
      ensures m >= 0 ==> histories == old(histories)[HistoryKey(g, s) := r.value]
    {
      var isAbnormal := prediction in abnormalLabels;
      var loaded := LoadHistory(g, s, m);
      if loaded.None? {
        return None;
      }
      var h := DequeAppend(loaded.value, if isAbnormal then 1 else 0, m);
      SetHistory(g, s, h);
      r := Some(h);
    }

    /** `clear_prediction_counter`. */
    method ClearCounter(g: string, s: string)
      modifies this
      ensures counters == old(counters) - {CounterKey(g, s)}
      ensures histories == old(histories)
      ensures Counter(g, s) == 0
    {
      counters := counters - {CounterKey(g, s)};
    }

    /** `clear_prediction_history`. */
    method ClearHistory(g: string, s: string)
      modifies this
      ensures histories == old(histories) - {HistoryKey(g, s)}
      ensures counters == old(counters)
      ensures StoredHistory(g, s) == []
    {
      histories := histories - {HistoryKey(g, s)};
    }
  }
}
