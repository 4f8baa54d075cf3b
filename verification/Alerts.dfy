/** The latency window and the edge-triggered alerts of `src/alerts.rs`. */
module Alerts {
  import opened Common

  /** Instants are nanoseconds on a monotonic clock. */
  const WINDOW: nat := 600 * SECOND
  const CAP: nat := 20000

  datatype Sample = Sample(at: int, ms: nat)

  // ---------- Order statistics ----------

  function Latencies(q: seq<Sample>): seq<nat> {
    seq(|q|, i requires 0 <= i < |q| => q[i].ms)
  }

  function CountBelow(s: seq<nat>, x: nat): nat {
    if s == [] then 0 else (if s[0] < x then 1 else 0) + CountBelow(s[1..], x)
  }

  function CountAtMost(s: seq<nat>, x: nat): nat {
    if s == [] then 0 else (if s[0] <= x then 1 else 0) + CountAtMost(s[1..], x)
  }

  /** `x` occurs in `s`, at most `k` elements are smaller, and more than `k` are no greater. */
  predicate IsOrderStatistic(s: seq<nat>, k: nat, x: nat) {
    x in s && CountBelow(s, x) <= k < CountAtMost(s, x)
  }

  function Insert(x: nat, s: seq<nat>): seq<nat> {
    if s == [] || x <= s[0] then [x] + s else [s[0]] + Insert(x, s[1..])
  }

  function Sorted(s: seq<nat>): seq<nat> {
    if s == [] then [] else Insert(s[0], Sorted(s[1..]))
  }

  predicate Ascending(s: seq<nat>) {
    forall i, j :: 0 <= i < j < |s| ==> s[i] <= s[j]
  }

  lemma {:induction false} InsertMembers(x: nat, s: seq<nat>)
    ensures |Insert(x, s)| == |s| + 1
    ensures forall y :: y in Insert(x, s) <==> y == x || y in s
  {
    if s != [] && x > s[0] {
      InsertMembers(x, s[1..]);
      assert s == [s[0]] + s[1..];
    }
  }

  lemma {:induction false} InsertAscending(x: nat, s: seq<nat>)
    requires Ascending(s)
    ensures Ascending(Insert(x, s))
  {
    if s != [] && x > s[0] {
      var rest := Insert(x, s[1..]);
      InsertAscending(x, s[1..]);
      InsertMembers(x, s[1..]);
      forall i | 0 <= i < |rest| ensures s[0] <= rest[i] {
        assert rest[i] in rest;
      }
    }
  }

  lemma {:induction false} SortedIsSorted(s: seq<nat>)
    ensures Ascending(Sorted(s)) && |Sorted(s)| == |s|
    ensures forall y :: y in Sorted(s) <==> y in s
  {
    if s != [] {
      SortedIsSorted(s[1..]);
      InsertMembers(s[0], Sorted(s[1..]));
      InsertAscending(s[0], Sorted(s[1..]));
      assert s == [s[0]] + s[1..];
    }
  }

  lemma {:induction false} InsertCounts(x: nat, s: seq<nat>, y: nat)
    ensures CountBelow(Insert(x, s), y) == CountBelow([x] + s, y)
    ensures CountAtMost(Insert(x, s), y) == CountAtMost([x] + s, y)
  {
    assert ([x] + s)[1..] == s;
    if s != [] && x > s[0] {
      InsertCounts(x, s[1..], y);
      assert ([x] + s[1..])[1..] == s[1..];
      assert ([s[0]] + Insert(x, s[1..]))[1..] == Insert(x, s[1..]);
    }
  }

  lemma {:induction false} SortedCounts(s: seq<nat>, y: nat)
    ensures CountBelow(Sorted(s), y) == CountBelow(s, y) && CountAtMost(Sorted(s), y) == CountAtMost(s, y)
  {
    if s != [] {
      SortedCounts(s[1..], y);
      InsertCounts(s[0], Sorted(s[1..]), y);
      assert ([s[0]] + Sorted(s[1..]))[1..] == Sorted(s[1..]);
    }
  }

  lemma {:induction false} NoneBelow(s: seq<nat>, y: nat)
    requires forall i :: 0 <= i < |s| ==> s[i] >= y
    ensures CountBelow(s, y) == 0
  {
    if s != [] { NoneBelow(s[1..], y); }
  }

  /** In an ascending sequence the element at `k` has rank `k`. */
  lemma {:induction false} AscendingRank(s: seq<nat>, k: nat, y: nat)
    requires Ascending(s)
    ensures k < |s| && s[k] >= y ==> CountBelow(s, y) <= k
    ensures k < |s| && s[k] <= y ==> k < CountAtMost(s, y)
  {
    if s != [] {
      assert Ascending(s[1..]);
      if k > 0 {
        AscendingRank(s[1..], k - 1, y);
        assert k < |s| ==> s[1..][k - 1] == s[k];
      } else if s[0] >= y {
        NoneBelow(s, y);
      }
    }
  }

  lemma SortedRank(s: seq<nat>, k: nat)
    requires k < |s|
    ensures |Sorted(s)| == |s| && IsOrderStatistic(s, k, Sorted(s)[k])
  {
    SortedIsSorted(s);
    var x := Sorted(s)[k];
    AscendingRank(Sorted(s), k, x);
    SortedCounts(s, x);
  }

  // ---------- The bounded window ----------

  function DropStale(q: seq<Sample>, cutoff: int): seq<Sample> {
    if q != [] && q[0].at < cutoff then DropStale(q[1..], cutoff) else q
  }

  function DropExcess(q: seq<Sample>): seq<Sample> {
    if |q| > CAP then q[|q| - CAP..] else q
  }

  /** `record_added_latency` pushes, drops stale samples from the front, then drops down to the cap. It reads the clock
      twice: for the sample and for the cutoff. */
  function Recorded(q: seq<Sample>, ms: nat, at: int, later: int): seq<Sample> {
    DropExcess(DropStale(q + [Sample(at, ms)], later - WINDOW))
  }

  class LatencyWindow {
    var q: seq<Sample>

    constructor ()
      ensures q == []
    {
      q := [];
    }

    method RecordAddedLatency(ms: nat, at: int, later: int)
      modifies this
      ensures q == Recorded(old(q), ms, at, later)
    {
      q := q + [Sample(at, ms)];
      var cutoff := later - WINDOW;
      ghost var pushed := q;
      while q != [] && q[0].at < cutoff
        invariant DropStale(q, cutoff) == DropStale(pushed, cutoff)
        decreases |q|
      {
        q := q[1..];
      }
      ghost var kept := q;
      while |q| > CAP
        invariant |q| <= |kept| && q == kept[|kept| - |q|..]
        invariant |kept| > CAP ==> |q| >= CAP
        invariant |kept| <= CAP ==> q == kept
        decreases |q|
      {
        q := q[1..];
      }
    }

    /** The 95th percentile, once there are twenty samples. */
    method LatencyP95() returns (r: Option<nat>)
      ensures r.None? <==> |q| < 20
      ensures r.Some? ==> IsOrderStatistic(Latencies(q), Min(|q| * 95 / 100, |q| - 1), r.value)
    {
      if |q| < 20 { return None; }
      var v := Sorted(Latencies(q));
      SortedIsSorted(Latencies(q));
      var idx := Min(|v| * 95 / 100, |v| - 1);
      SortedRank(Latencies(q), idx);
      return Some(v[idx]);
    }
  }

  // ---------- What the window holds ----------

  datatype Event = Event(ms: nat, at: int, later: int)

  function Samples(es: seq<Event>): seq<Sample> {
    seq(|es|, i requires 0 <= i < |es| => Sample(es[i].at, es[i].ms))
  }

  function Window(es: seq<Event>): seq<Sample> {
    if es == [] then [] else
    var e := es[|es| - 1];
    Recorded(Window(es[..|es| - 1]), e.ms, e.at, e.later)
  }

  predicate TimeOrdered(es: seq<Event>) {
    && (forall i :: 0 <= i < |es| ==> es[i].at <= es[i].later)
    && (forall i, j :: 0 <= i < j < |es| ==> es[i].later <= es[j].at)
  }

  /** Recent enough and few enough. */
  predicate Fits(q: seq<Sample>, cutoff: int) {
    |q| <= 20000 && forall i :: 0 <= i < |q| ==> q[i].at >= cutoff
  }

  /** The longest suffix that fits. */
  predicate IsLongestFit(all: seq<Sample>, q: seq<Sample>, cutoff: int) {
    && |q| <= |all| && q == all[|all| - |q|..] && Fits(q, cutoff)
    && forall k :: 0 <= k < |all| - |q| ==> !Fits(all[k..], cutoff)
  }

  predicate ByTime(q: seq<Sample>) {
    forall i, j :: 0 <= i < j < |q| ==> q[i].at <= q[j].at
  }

  /** On a time-ordered deque, popping stale samples from the front removes every stale sample. */
  lemma {:induction false} DropStaleExact(q: seq<Sample>, cutoff: int) returns (n: nat)
    requires ByTime(q)
    ensures n <= |q| && DropStale(q, cutoff) == q[n..]
    ensures forall i :: 0 <= i < n ==> q[i].at < cutoff
    ensures forall i :: n <= i < |q| ==> q[i].at >= cutoff
  {
    if q != [] && q[0].at < cutoff {
      assert forall i :: 0 <= i < |q| - 1 ==> q[1..][i] == q[i + 1];
      var k := DropStaleExact(q[1..], cutoff);
      assert q[1..][k..] == q[k + 1..];
      forall i | 1 <= i < |q| ensures q[i] == q[1..][i - 1] {
      }
      n := k + 1;
    } else {
      n := 0;
    }
  }

  /** A suffix that did not fit before fits no better after another sample and a later cutoff. */
  lemma StillUnfit(all: seq<Sample>, k: nat, s: Sample, cutoff: int, cutoff': int)
    requires k <= |all| && !Fits(all[k..], cutoff) && cutoff <= cutoff'
    ensures !Fits((all + [s])[k..], cutoff')
  {
    assert (all + [s])[k..] == all[k..] + [s];
    if |all[k..]| <= CAP {
      var i :| 0 <= i < |all[k..]| && all[k..][i].at < cutoff;
      assert (all + [s])[k..][i].at < cutoff';
    }
  }

  /** A suffix that begins before the recorded deque does not fit: it did not fit before, or begins with a stale sample,
      or is too long. */
  lemma TooLongToFit(all: seq<Sample>, q: seq<Sample>, s: Sample, cutoff: int, cutoff': int, n: nat, k: nat)
    requires IsLongestFit(all, q, cutoff) && cutoff <= cutoff'
    requires n <= |q| + 1 && forall i :: 0 <= i < n ==> (q + [s])[i].at < cutoff'
    requires k <= |all| && (k < |all| - |q| + n || |all| + 1 - k > CAP)
    ensures !Fits((all + [s])[k..], cutoff')
  {
    var start := |all| - |q|;
    if k < start {
      StillUnfit(all, k, s, cutoff, cutoff');
    } else if k < start + n {
      assert (all + [s])[k..][0] == (q + [s])[k - start];
    }
  }

  /** The two drops together leave a suffix: past the stale samples, and no longer than the cap. */
  lemma DropsLeaveSuffix(q: seq<Sample>, cutoff: int) returns (n: nat, k: nat)
    requires ByTime(q)
    ensures n <= k <= |q| && DropExcess(DropStale(q, cutoff)) == q[k..] && Fits(q[k..], cutoff)
    ensures forall i :: 0 <= i < n ==> q[i].at < cutoff
    ensures k > n ==> |q| - k == CAP
  {
    n := DropStaleExact(q, cutoff);
    var kept := q[n..];
    k := if |kept| > CAP then |q| - CAP else n;
    assert |kept| > CAP ==> kept[|kept| - CAP..] == q[k..];
  }

  lemma RecordKeepsLongest(all: seq<Sample>, q: seq<Sample>, s: Sample, later: int, cutoff: int)
    requires IsLongestFit(all, q, cutoff) && ByTime(all + [s]) && cutoff <= later - WINDOW && s.at <= later
    ensures IsLongestFit(all + [s], Recorded(q, s.ms, s.at, later), later - WINDOW)
  {
    var c, start := later - WINDOW, |all| - |q|;
    var all', q1 := all + [s], q + [s];
    assert q1 == all'[start..];
    var n, k := DropsLeaveSuffix(q1, c);
    assert q1[k..] == all'[start + k..];
    forall i | 0 <= i < start + k ensures !Fits(all'[i..], c) {
      TooLongToFit(all, q, s, cutoff, c, n, i);
    }
  }

  lemma SamplesByTime(es: seq<Event>)
    requires TimeOrdered(es)
    ensures ByTime(Samples(es))
  {
    forall i, j | 0 <= i < j < |es| ensures Samples(es)[i].at <= Samples(es)[j].at {
      assert es[i].at <= es[i].later <= es[j].at;
    }
  }

  lemma TimeOrderedPrefix(es: seq<Event>, n: nat)
    requires TimeOrdered(es) && n <= |es|
    ensures TimeOrdered(es[..n])
  {
  }

  lemma SamplesGrow(es: seq<Event>)
    requires es != []
    ensures var n := |es| - 1; Samples(es) == Samples(es[..n]) + [Sample(es[n].at, es[n].ms)]
  {
  }

  lemma {:induction false} WindowStep(es: seq<Event>, cutoff: int)
    requires TimeOrdered(es) && es != []
    requires cutoff <= es[|es| - 1].later - WINDOW
    requires IsLongestFit(Samples(es[..|es| - 1]), Window(es[..|es| - 1]), cutoff)
    ensures IsLongestFit(Samples(es), Window(es), es[|es| - 1].later - WINDOW)
  {
    var n := |es| - 1;
    SamplesByTime(es);
    SamplesGrow(es);
    RecordKeepsLongest(Samples(es[..n]), Window(es[..n]), Sample(es[n].at, es[n].ms), es[n].later, cutoff);
  }

  lemma CutoffAdvances(es: seq<Event>)
    requires TimeOrdered(es) && |es| >= 2
    ensures var n := |es| - 1; es[..n][n - 1].later <= es[n].at <= es[n].later
  {
  }

  /** The deque is the longest suffix of all samples that is recent and small enough at the last record. */
  ghost predicate HoldsLongestFit(es: seq<Event>)
    requires es != []
  {
    IsLongestFit(Samples(es), Window(es), es[|es| - 1].later - 600 * SECOND)
  }

  lemma NothingFits(cutoff: int)
    ensures IsLongestFit([], [], cutoff)
  {
  }

  lemma {:induction false} FirstRecord(es: seq<Event>)
    requires TimeOrdered(es) && |es| == 1
    ensures HoldsLongestFit(es)
  {
    var none := es[..|es| - 1];
    assert Samples(none) == [] && Window(none) == [];
    NothingFits(es[0].later - WINDOW);
    WindowStep(es, es[0].later - WINDOW);
  }

  lemma {:induction false} NextRecord(es: seq<Event>)
    requires TimeOrdered(es) && |es| >= 2 && HoldsLongestFit(es[..|es| - 1])
    ensures HoldsLongestFit(es)
  {
    CutoffAdvances(es);
    WindowStep(es, es[..|es| - 1][|es| - 2].later - WINDOW);
  }

  /** After any run of records the deque is the longest suffix of all samples that is recent and small enough. */
  lemma {:induction false} WindowIsLongestFit(es: seq<Event>)
    requires TimeOrdered(es) && es != []
    ensures HoldsLongestFit(es)
  {
    if |es| == 1 {
      FirstRecord(es);
    } else {
      TimeOrderedPrefix(es, |es| - 1);
      WindowIsLongestFit(es[..|es| - 1]);
      NextRecord(es);
    }
  }

  // ---------- Edge-triggered alerts ----------

  datatype Signal = Fire(key: string) | Resolve(key: string)

  predicate IsEdge(active: set<string>, s: Signal) {
    if s.Fire? then s.key !in active else s.key in active
  }

  function ActiveAfter(active: set<string>, s: Signal): set<string> {
    if s.Fire? then active + {s.key} else active - {s.key}
  }

  class AlertState {
    var active: set<string>

    constructor ()
      ensures active == {}
    {
      active := {};
    }

    method ShouldFire(key: string) returns (edge: bool)
      modifies this
      ensures edge == IsEdge(old(active), Fire(key)) && active == ActiveAfter(old(active), Fire(key))
    {
      if key in active {
        edge := false;
      } else {
        active := active + {key};
        edge := true;
      }
    }

    method ShouldResolve(key: string) returns (edge: bool)
      modifies this
      ensures edge == IsEdge(old(active), Resolve(key)) && active == ActiveAfter(old(active), Resolve(key))
    {
      edge := key in active;
      active := active - {key};
    }
  }

  function Active(ss: seq<Signal>): set<string> {
    if ss == [] then {} else ActiveAfter(Active(ss[..|ss| - 1]), ss[|ss| - 1])
  }

  predicate EdgeAt(ss: seq<Signal>, i: nat)
    requires i < |ss|
  {
    IsEdge(Active(ss[..i]), ss[i])
  }

  /** The last signal about a key. */
  function LastSignal(ss: seq<Signal>, key: string): Option<Signal> {
    if ss == [] then None
    else if ss[|ss| - 1].key == key then Some(ss[|ss| - 1])
    else LastSignal(ss[..|ss| - 1], key)
  }

  lemma {:induction false} ActiveFollowsLast(ss: seq<Signal>, key: string)
    ensures key in Active(ss) <==> LastSignal(ss, key) == Some(Fire(key))
  {
    if ss != [] { ActiveFollowsLast(ss[..|ss| - 1], key); }
  }

  /** A fire is an edge exactly when the last signal about its key was not a fire, and a resolve exactly when it was. */
  lemma EdgesFollowLast(ss: seq<Signal>, i: nat)
    requires i < |ss|
    ensures EdgeAt(ss, i) <==> (ss[i].Fire? <==> LastSignal(ss[..i], ss[i].key) != Some(Fire(ss[i].key)))
  {
    ActiveFollowsLast(ss[..i], ss[i].key);
  }

  /** Between two moments at which a key's state differs there is an edge of the kind that made the difference. */
  lemma {:induction false} EdgeBetween(ss: seq<Signal>, key: string, i: nat, j: nat) returns (m: nat)
    requires i < j <= |ss| && (key in Active(ss[..i])) != (key in Active(ss[..j]))
    ensures i <= m < j && ss[m].key == key && EdgeAt(ss, m) && (ss[m].Fire? <==> key in Active(ss[..j]))
    decreases j
  {
    assert ss[..j][..j - 1] == ss[..j - 1];
    if (key in Active(ss[..j - 1])) == (key in Active(ss[..j])) {
      m := EdgeBetween(ss, key, i, j - 1);
    } else {
      m := j - 1;
    }
  }

  /** The first edge of a key is a fire: every resolve edge has a fire edge before it. */
  lemma ResolveFollowsFire(ss: seq<Signal>, i: nat)
    requires i < |ss| && ss[i].Resolve? && EdgeAt(ss, i)
    ensures exists m :: 0 <= m < i && ss[m] == Fire(ss[i].key) && EdgeAt(ss, m)
  {
    assert ss[..0] == [];
    assert i > 0;
    var m := EdgeBetween(ss, ss[i].key, 0, i);
  }

  /** Edges of one key alternate: between two edges of the same kind lies one of the other kind. */
  lemma EdgesAlternate(ss: seq<Signal>, i: nat, j: nat)
    requires i < j < |ss| && ss[i].key == ss[j].key && EdgeAt(ss, i) && EdgeAt(ss, j) && (ss[i].Fire? <==> ss[j].Fire?)
    ensures exists m :: i < m < j && ss[m].key == ss[i].key && EdgeAt(ss, m) && (ss[m].Fire? <==> !ss[i].Fire?)
  {
    var key := ss[i].key;
    assert ss[..i + 1][..i] == ss[..i];
    assert key in Active(ss[..i + 1]) <==> ss[i].Fire?;
    if i + 1 == j {
      assert false;
    } else {
      var m := EdgeBetween(ss, key, i + 1, j);
    }
  }
}
