/** The server-side rate-limit script `rateLimitLuaScript` of
    lib/carto_metadata.js, which the store runs atomically.

    The script reads the subject's definitions list (KEYS[1]) with LRANGE,
    walks it element by element, and for every complete triple
    `(burst, rate, period)` calls redis-cell's CL.THROTTLE on the counter key
    `KEYS[2] .. ":" .. k` (k = 1, 2, ... the triple's number). It returns the
    replies in order. CL.THROTTLE itself (the leaky-bucket arithmetic) is an
    oracle here: given the state stored under its key and the call, it yields
    the reply and the state to store. */
module LimitScript {
  import opened Wrappers
  import opened Decimal

  /** The script's text, which EVAL sends and SCRIPT LOAD installs. */
  const RateLimitLuaScript: string :=
    "local results = {} " +
    "local resultsCounter = 0 " +
    "local limits = {} " +
    "local limitsArray = redis.call(\"LRANGE\", KEYS[1], 0, -1) " +
    "for i, v in ipairs(limitsArray) do " +
    "    local rest = i % 3 " +
    "    if rest ~= 0 then " +
    "        limits[rest] = v " +
    "    else " +
    "        resultsCounter = resultsCounter + 1 " +
    "        local redisCellKey = KEYS[2] .. \":\" .. i/3 " +
    "        results[resultsCounter] = redis.call(\"CL.THROTTLE\", redisCellKey, limits[1], limits[2], v) " +
    "    end " +
    "end " +
    "return results"

  /** What redis-cell keeps under one counter key. */
  type CellState = int

  /** The arguments of one CL.THROTTLE call: counter key, burst, rate, period. */
  datatype ThrottleCall = ThrottleCall(cellKey: string, burst: string, rate: string, period: string)

  /** CL.THROTTLE as an oracle: the stored state (if the key exists) and the
      call give the reply and the state stored afterwards. */
  type Throttle = (Option<CellState>, ThrottleCall) -> (seq<int>, CellState)

  function Lookup(cells: map<string, CellState>, key: string): Option<CellState> {
    if key in cells then Some(cells[key]) else None
  }

  /** The counter key of the `k`-th triple (counting from 1). */
  function CellKey(statusKey: string, k: nat): string {
    statusKey + ":" + FromNat(k)
  }

  /** Distinct triples use distinct counter keys. */
  lemma CellKeyInjective(statusKey: string, j: nat, k: nat)
    requires CellKey(statusKey, j) == CellKey(statusKey, k)
    ensures j == k
  {
    var n := |statusKey| + 1;
    assert CellKey(statusKey, j)[n..] == FromNat(j);
    assert CellKey(statusKey, k)[n..] == FromNat(k);
    FromNatInjective(j, k);
  }

  /** The calls the script makes: one per complete triple of the
      definitions list, in order, the `c`-th triple using counter key
      number `c`. */
  function ThrottleCalls(statusKey: string, limits: seq<string>): seq<ThrottleCall>
    decreases |limits|
  {
    var c := |limits| / 3;
    if c == 0 then []
    else
      ThrottleCalls(statusKey, limits[..3 * c - 3])
      + [ThrottleCall(CellKey(statusKey, c), limits[3 * c - 3], limits[3 * c - 2], limits[3 * c - 1])]
  }

  /** The calls, position by position: a list of length n gives floor(n/3)
      calls, and call k (from 0) takes the elements at positions 3k, 3k+1,
      3k+2 and counter key number k+1. */
  lemma {:induction false} ThrottleCallsAt(statusKey: string, s: seq<string>)
    ensures |ThrottleCalls(statusKey, s)| == |s| / 3
    ensures forall k :: 0 <= k < |s| / 3 ==>
              ThrottleCalls(statusKey, s)[k] == ThrottleCall(CellKey(statusKey, k + 1), s[3 * k], s[3 * k + 1], s[3 * k + 2])
    decreases |s|
  {
    var c := |s| / 3;
    if c > 0 {
      var t := s[..3 * c - 3];
      ThrottleCallsAt(statusKey, t);
      assert |t| / 3 == c - 1;
      forall k | 0 <= k < c - 1
        ensures ThrottleCalls(statusKey, s)[k] == ThrottleCall(CellKey(statusKey, k + 1), s[3 * k], s[3 * k + 1], s[3 * k + 2])
      {
        assert ThrottleCalls(statusKey, s)[k] == ThrottleCalls(statusKey, t)[k];
        assert t[3 * k] == s[3 * k] && t[3 * k + 1] == s[3 * k + 1] && t[3 * k + 2] == s[3 * k + 2];
      }
    }
  }

  ghost predicate DistinctKeys(calls: seq<ThrottleCall>) {
    forall i, j :: 0 <= i < j < |calls| ==> calls[i].cellKey != calls[j].cellKey
  }

  /** No two calls of one script run touch the same counter. */
  lemma ThrottleCallsDistinct(statusKey: string, limits: seq<string>)
    ensures DistinctKeys(ThrottleCalls(statusKey, limits))
  {
    var calls := ThrottleCalls(statusKey, limits);
    ThrottleCallsAt(statusKey, limits);
    forall i, j | 0 <= i < j < |calls|
      ensures calls[i].cellKey != calls[j].cellKey
    {
      if calls[i].cellKey == calls[j].cellKey {
        CellKeyInjective(statusKey, i + 1, j + 1);
      }
    }
  }

  /** Running the calls one after the other against the counters: the
      replies in order and the counters afterwards. */
  function RunCalls(cells: map<string, CellState>, calls: seq<ThrottleCall>, throttle: Throttle)
    : (r: (seq<seq<int>>, map<string, CellState>))
    ensures |r.0| == |calls|
    decreases |calls|
  {
    if calls == [] then ([], cells)
    else
      var last := calls[|calls| - 1];
      var (replies, before) := RunCalls(cells, calls[..|calls| - 1], throttle);
      var (reply, state) := throttle(Lookup(before, last.cellKey), last);
      (replies + [reply], before[last.cellKey := state])
  }

  /** One more call appends its reply and updates its own counter. */
  lemma RunCallsSnoc(cells: map<string, CellState>, calls: seq<ThrottleCall>, c: ThrottleCall, throttle: Throttle)
    ensures var (replies, before) := RunCalls(cells, calls, throttle);
            var (reply, state) := throttle(Lookup(before, c.cellKey), c);
            RunCalls(cells, calls + [c], throttle) == (replies + [reply], before[c.cellKey := state])
  {
    assert (calls + [c])[..|calls|] == calls;
  }

  /** A counter no call names keeps its state. */
  lemma {:induction false} RunCallsUntouched(cells: map<string, CellState>, calls: seq<ThrottleCall>,
                                             throttle: Throttle, x: string)
    requires forall i :: 0 <= i < |calls| ==> calls[i].cellKey != x
    ensures Lookup(RunCalls(cells, calls, throttle).1, x) == Lookup(cells, x)
    decreases |calls|
  {
    if calls != [] {
      RunCallsUntouched(cells, calls[..|calls| - 1], throttle, x);
    }
  }

  /** With distinct counter keys, the reply of call `k` depends only on the
      state its own counter had before the run, and that counter ends up
      holding the state the call produced. */
  lemma {:induction false} IndependentCell(cells: map<string, CellState>, calls: seq<ThrottleCall>,
                                           throttle: Throttle, k: nat)
    requires DistinctKeys(calls) && k < |calls|
    ensures RunCalls(cells, calls, throttle).0[k] == throttle(Lookup(cells, calls[k].cellKey), calls[k]).0
    ensures Lookup(RunCalls(cells, calls, throttle).1, calls[k].cellKey)
            == Some(throttle(Lookup(cells, calls[k].cellKey), calls[k]).1)
    decreases |calls|
  {
    var n := |calls| - 1;
    var prefix := calls[..n];
    var last := calls[n];
    assert calls == prefix + [last];
    RunCallsSnoc(cells, prefix, last, throttle);
    if k == n {
      RunCallsUntouched(cells, prefix, throttle, last.cellKey);
    } else {
      assert prefix[k] == calls[k];
      IndependentCell(cells, prefix, throttle, k);
      assert calls[k].cellKey != last.cellKey;
    }
  }

  /** The store key of the definitions list, read with LRANGE 0 -1: a
      missing key reads as the empty list. */
  function LRange(lists: map<string, seq<string>>, key: string): seq<string> {
    if key in lists then lists[key] else []
  }

  /** What one run of the script returns and leaves in the counters. */
  function ScriptRun(lists: map<string, seq<string>>, cells: map<string, CellState>,
                     storeKey: string, statusKey: string, throttle: Throttle): (seq<seq<int>>, map<string, CellState>)
  {
    RunCalls(cells, ThrottleCalls(statusKey, LRange(lists, storeKey)), throttle)
  }

  /** The script turns a definitions list of length n into floor(n/3)
      replies, in order; reply k comes from the triple at positions 3k, 3k+1,
      3k+2 and counter key `statusKey:(k+1)`, evaluated against that
      counter's state before the run. A missing or empty list gives no
      replies, and one or two trailing elements are ignored. */
  lemma ScriptEvaluatesEachTriple(lists: map<string, seq<string>>, cells: map<string, CellState>,
                                  storeKey: string, statusKey: string, throttle: Throttle)
    ensures var limits := LRange(lists, storeKey);
            var replies := ScriptRun(lists, cells, storeKey, statusKey, throttle).0;
            && |replies| == |limits| / 3
            && forall k :: 0 <= k < |limits| / 3 ==>
                 replies[k] == throttle(Lookup(cells, CellKey(statusKey, k + 1)),
                   ThrottleCall(CellKey(statusKey, k + 1), limits[3 * k], limits[3 * k + 1], limits[3 * k + 2])).0
  {
    var calls := ThrottleCalls(statusKey, LRange(lists, storeKey));
    ThrottleCallsAt(statusKey, LRange(lists, storeKey));
    ThrottleCallsDistinct(statusKey, LRange(lists, storeKey));
    forall k | 0 <= k < |calls|
      ensures ScriptRun(lists, cells, storeKey, statusKey, throttle).0[k]
              == throttle(Lookup(cells, calls[k].cellKey), calls[k]).0
    {
      IndependentCell(cells, calls, throttle, k);
    }
  }

  /** One or two elements after the last complete triple add no call: a
      trailing partial triple is ignored. */
  lemma ThrottleCallsTrailing(statusKey: string, s: seq<string>, c: nat)
    requires 3 * c <= |s| < 3 * c + 3
    ensures ThrottleCalls(statusKey, s) == ThrottleCalls(statusKey, s[..3 * c])
  {
    var t := s[..3 * c];
    assert |s| / 3 == c && |t| / 3 == c;
    if c > 0 {
      assert t[..3 * c - 3] == s[..3 * c - 3];
      assert t[3 * c - 3] == s[3 * c - 3] && t[3 * c - 2] == s[3 * c - 2] && t[3 * c - 1] == s[3 * c - 1];
    }
  }

  /** A complete triple adds that triple's call, with the next counter key. */
  lemma ThrottleCallsExtend(statusKey: string, s: seq<string>, c: nat)
    requires 3 * c + 3 <= |s|
    ensures ThrottleCalls(statusKey, s[..3 * c + 3])
            == ThrottleCalls(statusKey, s[..3 * c]) + [ThrottleCall(CellKey(statusKey, c + 1), s[3 * c], s[3 * c + 1], s[3 * c + 2])]
  {
    var t := s[..3 * c + 3];
    assert |t| / 3 == c + 1;
    assert t[..3 * c] == s[..3 * c];
    assert t[3 * c] == s[3 * c] && t[3 * c + 1] == s[3 * c + 1] && t[3 * c + 2] == s[3 * c + 2];
  }

  /** Position `i` (counting from 1) of the list, when `c` triples lie
      entirely before it: `i % 3` is its place in the current triple, 0 for
      the last, and `i / 3` then numbers the triple it completes. */
  lemma LuaPosition(i: int, c: int)
    requires 0 <= 3 * c <= i - 1 < 3 * c + 3
    ensures i % 3 == if i == 3 * c + 3 then 0 else i - 3 * c
    ensures i % 3 == 0 ==> i / 3 == c + 1
  {
  }

  /** The state after triple `c + 1` completes: the previous replies and
      counters, extended by the reply to that triple's call. */
  lemma RunCallsExtend(cells0: map<string, CellState>, statusKey: string, s: seq<string>, c: nat,
                       throttle: Throttle, results: seq<seq<int>>, cells: map<string, CellState>,
                       call: ThrottleCall, reply: (seq<int>, CellState))
    requires 3 * c + 3 <= |s|
    requires (results, cells) == RunCalls(cells0, ThrottleCalls(statusKey, s[..3 * c]), throttle)
    requires call == ThrottleCall(statusKey + ":" + FromNat(c + 1), s[3 * c], s[3 * c + 1], s[3 * c + 2])
    requires reply == throttle(Lookup(cells, call.cellKey), call)
    ensures RunCalls(cells0, ThrottleCalls(statusKey, s[..3 * c + 3]), throttle)
            == (results + [reply.0], cells[call.cellKey := reply.1])
  {
    ThrottleCallsExtend(statusKey, s, c);
    RunCallsSnoc(cells0, ThrottleCalls(statusKey, s[..3 * c]), call, throttle);
  }

  /** The script's loop over the definitions list read by LRANGE. The
      Lua table `limits` keeps the first two elements of the current triple
      under indices 1 and 2; here it is two slots, 0 and 1, each written
      before it is read. The third element triggers the CL.THROTTLE call. */
  method RunRateLimitScript(limitsArray: seq<string>, statusKey: string,
                            cells0: map<string, CellState>, throttle: Throttle)
    returns (results: seq<seq<int>>, cells: map<string, CellState>)
    ensures (results, cells) == RunCalls(cells0, ThrottleCalls(statusKey, limitsArray), throttle)
  {
    results := [];
    var resultsCounter := 0;
    var limits: seq<string> := ["", ""];
    cells := cells0;
    var i := 1;
    while i <= |limitsArray|
      invariant 1 <= i <= |limitsArray| + 1
      invariant 0 <= 3 * resultsCounter <= i - 1 < 3 * resultsCounter + 3
      invariant (results, cells) == RunCalls(cells0, ThrottleCalls(statusKey, limitsArray[..3 * resultsCounter]), throttle)
      invariant |limits| == 2
      invariant i - 1 > 3 * resultsCounter ==> limits[0] == limitsArray[3 * resultsCounter]
      invariant i - 1 > 3 * resultsCounter + 1 ==> limits[1] == limitsArray[3 * resultsCounter + 1]
    {
      var v := limitsArray[i - 1];
      var rest := i % 3;
      LuaPosition(i, resultsCounter);
      if rest != 0 {
        limits := limits[rest - 1 := v];
      } else {
        ghost var c := resultsCounter;
        resultsCounter := resultsCounter + 1;
        var redisCellKey := statusKey + ":" + FromNat(i / 3);
        var call := ThrottleCall(redisCellKey, limits[0], limits[1], v);
        var reply := throttle(Lookup(cells, redisCellKey), call);
        RunCallsExtend(cells0, statusKey, limitsArray, c, throttle, results, cells, call, reply);
        results := results + [reply.0];
        cells := cells[redisCellKey := reply.1];
        assert 3 * resultsCounter == 3 * c + 3;
      }
      i := i + 1;
    }
    ThrottleCallsTrailing(statusKey, limitsArray, resultsCounter);
  }
}
