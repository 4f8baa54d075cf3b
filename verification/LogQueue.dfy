/** The bounded usage-log queue of `src/logqueue.rs` as a concurrent protocol: any number of producers, one batching
    consumer, and two wrapping counters that are updated apart from the channel they describe. */
module LogQueue {
  import opened Common

  const WORD: nat := U64_MAX + 1
  const BATCH: nat := 128

  type Row = nat
  datatype Outcome = Outcome(row: Row, written: bool)

  /** Where the consumer task stands. */
  datatype Consumer =
    | Waiting
    | Filling
    | Draining
    | Taken(row: Row)       // drained from the batch, depth not decremented yet
    | Inserting(row: Row)   // depth decremented, database write under way
    | Failing               // write failed, failure not counted yet

  /** `owedDepth` and `owedDropped` count producers between their `try_send` and the counter update that follows. */
  datatype Queue = Queue(
    capacity: nat, channel: seq<Row>, batch: seq<Row>, consumer: Consumer,
    depth: nat, dropped: nat, owedDepth: nat, owedDropped: nat,
    accepted: seq<Row>, rejected: nat, handled: seq<Outcome>)

  datatype Move =
    | TrySend(row: Row)
    | AddDepth
    | AddDropped
    | Receive
    | TryReceive
    | StopFilling
    | Take
    | SubDepth
    | Insert(ok: bool)
    | CountFailure
    | EndBatch

  predicate Enabled(q: Queue, m: Move) {
    match m
    case TrySend(_) => true
    case AddDepth => q.owedDepth > 0
    case AddDropped => q.owedDropped > 0
    case Receive => q.consumer.Waiting? && q.channel != []
    case TryReceive => q.consumer.Filling? && |q.batch| < BATCH && q.channel != []
    case StopFilling => q.consumer.Filling?
    case Take => q.consumer.Draining? && q.batch != []
    case SubDepth => q.consumer.Taken?
    case Insert(_) => q.consumer.Inserting?
    case CountFailure => q.consumer.Failing?
    case EndBatch => q.consumer.Draining? && q.batch == []
  }

  /** A move that is not enabled changes nothing, so every list of moves is one interleaving. */
  function Step(q: Queue, m: Move): Queue {
    if !Enabled(q, m) then q else
    match m
    case TrySend(row) =>
      if |q.channel| < q.capacity
      then q.(channel := q.channel + [row], owedDepth := q.owedDepth + 1, accepted := q.accepted + [row])
      else q.(owedDropped := q.owedDropped + 1, rejected := q.rejected + 1)
    case AddDepth => q.(depth := (q.depth + 1) % WORD, owedDepth := q.owedDepth - 1)
    case AddDropped => q.(dropped := (q.dropped + 1) % WORD, owedDropped := q.owedDropped - 1)
    case Receive => q.(batch := q.batch + [q.channel[0]], channel := q.channel[1..], consumer := Filling)
    case TryReceive => q.(batch := q.batch + [q.channel[0]], channel := q.channel[1..])
    case StopFilling => q.(consumer := Draining)
    case Take => q.(consumer := Taken(q.batch[0]), batch := q.batch[1..])
    case SubDepth => q.(depth := (q.depth + WORD - 1) % WORD, consumer := Inserting(q.consumer.row))
    case Insert(ok) =>
      q.(handled := q.handled + [Outcome(q.consumer.row, ok)], consumer := if ok then Draining else Failing)
    case CountFailure => q.(dropped := (q.dropped + 1) % WORD, consumer := Draining)
    case EndBatch => q.(consumer := Waiting)
  }

  function New(capacity: nat): Queue {
    Queue(capacity, [], [], Waiting, 0, 0, 0, 0, [], 0, [])
  }

  function After(capacity: nat, ms: seq<Move>): Queue {
    if ms == [] then New(capacity) else Step(After(capacity, ms[..|ms| - 1]), ms[|ms| - 1])
  }

  // ---------- What every step keeps ----------

  function Rows(os: seq<Outcome>): seq<Row> {
    seq(|os|, i requires 0 <= i < |os| => os[i].row)
  }

  function InHand(q: Queue): seq<Row> {
    if q.consumer.Taken? || q.consumer.Inserting? then [q.consumer.row] else []
  }

  function Failures(os: seq<Outcome>): nat {
    if os == [] then 0 else Failures(os[..|os| - 1]) + if os[|os| - 1].written then 0 else 1
  }

  /** Rows that the depth counter is meant to show. */
  function Backlog(q: Queue): nat {
    |q.channel| + |q.batch| + if q.consumer.Taken? then 1 else 0
  }

  /** Rows are conserved and stay in order: what was accepted is what has been handled, then the row in the consumer's
      hand, then the batch, then the channel. */
  predicate Conserved(q: Queue) {
    q.accepted == Rows(q.handled) + InHand(q) + q.batch + q.channel
  }

  /** The channel is bounded, the batch is, and rows in hand count towards the batch they came from. */
  predicate Bounded(q: Queue) {
    |q.channel| <= q.capacity && |InHand(q)| + |q.batch| <= 128 && (q.consumer.Waiting? ==> q.batch == [])
  }

  /** A count as a `u64` shows it. */
  function Wrapped(x: int): nat { x % WORD }

  lemma WrapUp(x: int)
    ensures (Wrapped(x) + 1) % WORD == Wrapped(x + 1)
  {
  }

  lemma WrapDown(x: int)
    ensures (Wrapped(x) + WORD - 1) % WORD == Wrapped(x - 1)
  {
  }

  lemma WrapSmall(x: int)
    requires 0 <= x < WORD
    ensures Wrapped(x) == x
  {
  }

  function ShownDepth(q: Queue): int {
    Backlog(q) - q.owedDepth
  }

  function ShownDropped(q: Queue): int {
    q.rejected + Failures(q.handled) - q.owedDropped - if q.consumer.Failing? then 1 else 0
  }

  /** Each counter shows its true count less the updates still owed, modulo 2^64. */
  predicate CountersAgree(q: Queue) {
    q.depth == Wrapped(ShownDepth(q)) && q.dropped == Wrapped(ShownDropped(q))
  }

  lemma StepConserved(q: Queue, m: Move)
    requires Conserved(q)
    ensures Conserved(Step(q, m))
  {
    var r := Step(q, m);
    if m.Insert? && Enabled(q, m) {
      assert Rows(r.handled) == Rows(q.handled) + [q.consumer.row];
    }
  }

  lemma FailuresGrow(os: seq<Outcome>, o: Outcome)
    ensures Failures(os + [o]) == Failures(os) + if o.written then 0 else 1
  {
    assert (os + [o])[..|os|] == os;
  }

  lemma StepShown(q: Queue, m: Move)
    ensures ShownDepth(Step(q, m)) == ShownDepth(q) +
      if !Enabled(q, m) then 0 else if m.AddDepth? then 1 else if m.SubDepth? then -1 else 0
    ensures ShownDropped(Step(q, m)) == ShownDropped(q) +
      if Enabled(q, m) && (m.AddDropped? || m.CountFailure?) then 1 else 0
  {
    if m.Insert? && Enabled(q, m) { FailuresGrow(q.handled, Outcome(q.consumer.row, m.ok)); }
  }

  lemma StepCounters(q: Queue, m: Move)
    requires CountersAgree(q)
    ensures CountersAgree(Step(q, m))
  {
    StepShown(q, m);
    WrapUp(ShownDepth(q));
    WrapDown(ShownDepth(q));
    WrapUp(ShownDropped(q));
  }

  lemma StepBounded(q: Queue, m: Move)
    requires Bounded(q)
    ensures Bounded(Step(q, m)) && Step(q, m).capacity == q.capacity
  {
  }

  /** In every interleaving rows are conserved in order, the backlog is bounded by the capacity plus one batch, and each
      counter is off by exactly the updates still owed, modulo 2^64. */
  lemma {:induction false} QueueKeeps(capacity: nat, ms: seq<Move>)
    ensures var q := After(capacity, ms);
      && q.capacity == capacity && Conserved(q) && Bounded(q) && CountersAgree(q)
      && |InHand(q)| + |q.batch| + |q.channel| <= capacity + 128
  {
    if ms != [] {
      var before, m := After(capacity, ms[..|ms| - 1]), ms[|ms| - 1];
      QueueKeeps(capacity, ms[..|ms| - 1]);
      StepConserved(before, m);
      StepBounded(before, m);
      StepCounters(before, m);
    } else {
      WrapSmall(0);
    }
  }

  /** Once the owed updates have been made, the counters are exact (up to their width): depth shows the backlog, and
      dropped shows the rejected and the failed rows. */
  lemma SettledCountersAreExact(capacity: nat, ms: seq<Move>)
    requires var q := After(capacity, ms); q.owedDepth == 0 && q.owedDropped == 0 && !q.consumer.Failing?
    ensures var q := After(capacity, ms);
      && (capacity + BATCH < WORD ==> q.depth == Backlog(q))
      && (q.rejected + Failures(q.handled) < WORD ==> q.dropped == q.rejected + Failures(q.handled))
  {
    QueueKeeps(capacity, ms);
    var q := After(capacity, ms);
    if capacity + BATCH < WORD { WrapSmall(Backlog(q)); }
    if q.rejected + Failures(q.handled) < WORD { WrapSmall(q.rejected + Failures(q.handled)); }
  }

  function Writes(os: seq<Outcome>): nat {
    if os == [] then 0 else Writes(os[..|os| - 1]) + if os[|os| - 1].written then 1 else 0
  }

  lemma {:induction false} WrittenOrFailed(os: seq<Outcome>)
    ensures Writes(os) + Failures(os) == |os|
  {
    if os != [] { WrittenOrFailed(os[..|os| - 1]); }
  }

  /** Every accepted row is written, failed or still on its way, and rows are handled in the order of acceptance. */
  lemma NothingIsLost(capacity: nat, ms: seq<Move>)
    ensures var q := After(capacity, ms);
      && |q.accepted| == Writes(q.handled) + Failures(q.handled) + |InHand(q)| + |q.batch| + |q.channel|
      && Rows(q.handled) <= q.accepted
  {
    QueueKeeps(capacity, ms);
    var q := After(capacity, ms);
    WrittenOrFailed(q.handled);
  }

  // ---------- What is accepted, and that it gets written ----------

  /** A row is dropped only when the channel is full. */
  lemma SendFailsOnlyWhenFull(q: Queue, row: Row)
    ensures var r := Step(q, TrySend(row));
      if |q.channel| < q.capacity then
        && r.accepted == q.accepted + [row] && r.channel == q.channel + [row] && r.rejected == q.rejected
        && r.owedDepth == q.owedDepth + 1 && r.owedDropped == q.owedDropped
      else
        && r.accepted == q.accepted && r.channel == q.channel && r.rejected == q.rejected + 1
        && r.owedDropped == q.owedDropped + 1 && r.owedDepth == q.owedDepth
  {
  }

  /** So nothing is dropped before the queue has accepted as many rows as it has room for. */
  lemma {:induction false} RejectsOnlyAfterCapacity(capacity: nat, ms: seq<Move>)
    ensures After(capacity, ms).rejected > 0 ==> |After(capacity, ms).accepted| >= capacity
  {
    if ms != [] {
      var before := ms[..|ms| - 1];
      RejectsOnlyAfterCapacity(capacity, before);
      QueueKeeps(capacity, before);
    }
  }

  /** What the consumer does next when left alone and every write succeeds. */
  function ConsumerMove(q: Queue): Option<Move> {
    match q.consumer
    case Waiting => if q.channel == [] then None else Some(Receive)
    case Filling => Some(if |q.batch| < BATCH && q.channel != [] then TryReceive else StopFilling)
    case Draining => Some(if q.batch == [] then EndBatch else Take)
    case Taken(_) => Some(SubDepth)
    case Inserting(_) => Some(Insert(true))
    case Failing => Some(CountFailure)
  }

  /** Steps that the consumer has ahead of it, at most. */
  function Work(q: Queue): nat {
    8 * |q.channel| + 4 * |q.batch| +
    match q.consumer
    case Waiting => 0
    case Filling => 2
    case Draining => 1
    case Taken(_) => 4
    case Inserting(_) => 3
    case Failing => 2
  }

  lemma ConsumerProgresses(q: Queue)
    requires ConsumerMove(q).Some?
    ensures var m := ConsumerMove(q).value; Enabled(q, m) && Work(Step(q, m)) < Work(q)
  {
  }

  /** A move of the consumer in which no write fails. */
  predicate IsSmoothMove(m: Move) {
    !m.TrySend? && !m.AddDepth? && !m.AddDropped? && m != Insert(false)
  }

  /** Such moves accept and reject nothing, and no row fails. */
  lemma SmoothMoveKeeps(q: Queue, m: Move)
    requires IsSmoothMove(m)
    ensures Step(q, m).accepted == q.accepted && Step(q, m).rejected == q.rejected
    ensures Failures(Step(q, m).handled) == Failures(q.handled)
  {
    if m.Insert? && Enabled(q, m) { FailuresGrow(q.handled, Outcome(q.consumer.row, true)); }
  }

  lemma {:induction false} AfterMove(capacity: nat, ms: seq<Move>, m: Move)
    ensures After(capacity, ms + [m]) == Step(After(capacity, ms), m)
  {
    assert (ms + [m])[..|ms|] == ms;
  }

  /** From any state the consumer alone can finish: there are moves after which every accepted row has been handled, in
      order and with no new failure, and the consumer waits with nothing left. */
  lemma {:induction false} ConsumerCanFinish(capacity: nat, ms: seq<Move>) returns (more: seq<Move>)
    ensures forall i :: 0 <= i < |more| ==> IsSmoothMove(more[i])
    ensures var q := After(capacity, ms + more);
      && q.accepted == After(capacity, ms).accepted && Rows(q.handled) == q.accepted
      && Failures(q.handled) == Failures(After(capacity, ms).handled)
      && q.consumer.Waiting? && Backlog(q) == 0
    decreases Work(After(capacity, ms))
  {
    var q := After(capacity, ms);
    var next := ConsumerMove(q);
    if next.None? {
      more := [];
      assert ms + more == ms;
      QueueKeeps(capacity, ms);
    } else {
      ConsumerProgresses(q);
      SmoothMoveKeeps(q, next.value);
      AfterMove(capacity, ms, next.value);
      var rest := ConsumerCanFinish(capacity, ms + [next.value]);
      more := [next.value] + rest;
      assert ms + more == ms + [next.value] + rest;
    }
  }

  /** Producers can always make the updates they owe. */
  lemma {:induction false} OwedCanBePaid(capacity: nat, ms: seq<Move>) returns (more: seq<Move>)
    ensures forall i :: 0 <= i < |more| ==> more[i] == AddDepth || more[i] == AddDropped
    ensures var q, r := After(capacity, ms), After(capacity, ms + more);
      && r.owedDepth == 0 && r.owedDropped == 0
      && r == q.(depth := r.depth, dropped := r.dropped, owedDepth := 0, owedDropped := 0)
    decreases After(capacity, ms).owedDepth + After(capacity, ms).owedDropped
  {
    var q := After(capacity, ms);
    if q.owedDepth == 0 && q.owedDropped == 0 {
      more := [];
      assert ms + more == ms;
    } else {
      var m := if q.owedDepth > 0 then AddDepth else AddDropped;
      AfterMove(capacity, ms, m);
      var rest := OwedCanBePaid(capacity, ms + [m]);
      more := [m] + rest;
      assert ms + more == ms + [m] + rest;
    }
  }

  /** Nothing is left to do in `r`, which follows `q`. */
  predicate AtRest(q: Queue, r: Queue) {
    && r.accepted == q.accepted && Rows(r.handled) == q.accepted && Failures(r.handled) == Failures(q.handled)
    && (r.capacity + BATCH < WORD ==> r.depth == 0)
    && (r.rejected + Failures(r.handled) < WORD ==> r.dropped == r.rejected + Failures(r.handled))
  }

  lemma {:induction false} RestCounters(capacity: nat, ms: seq<Move>)
    requires var q := After(capacity, ms);
      q.consumer.Waiting? && Backlog(q) == 0 && q.owedDepth == 0 && q.owedDropped == 0
    ensures var q := After(capacity, ms);
      && q.capacity == capacity
      && (capacity + BATCH < WORD ==> q.depth == 0)
      && (q.rejected + Failures(q.handled) < WORD ==> q.dropped == q.rejected + Failures(q.handled))
  {
    QueueKeeps(capacity, ms);
    SettledCountersAreExact(capacity, ms);
  }

  /** From any state the queue can come to rest without another row: everything accepted has been handled in order, with
      no new failure, depth is zero, and dropped shows the rejected and the failed rows. */
  lemma {:induction false} QueueCanRest(capacity: nat, ms: seq<Move>) returns (more: seq<Move>)
    ensures forall i :: 0 <= i < |more| ==> !more[i].TrySend? && more[i] != Insert(false)
    ensures AtRest(After(capacity, ms), After(capacity, ms + more))
  {
    var drain := ConsumerCanFinish(capacity, ms);
    var drained := ms + drain;
    var pay := OwedCanBePaid(capacity, drained);
    more := drain + pay;
    assert ms + more == drained + pay;
    RestCounters(capacity, drained + pay);
  }

  /** The depth counter can wrap for a moment: the consumer may finish with a row before its producer has counted it. */
  lemma DepthCanWrap()
    ensures After(1, [TrySend(7), Receive, StopFilling, Take, SubDepth]).depth == U64_MAX
  {
    var ms := [TrySend(7), Receive, StopFilling, Take, SubDepth];
    assert ms[..4] == [TrySend(7), Receive, StopFilling, Take];
    assert ms[..4][..3] == [TrySend(7), Receive, StopFilling];
    assert ms[..4][..3][..2] == [TrySend(7), Receive];
    assert ms[..4][..3][..2][..1] == [TrySend(7)];
    assert ms[..4][..3][..2][..1][..0] == [];
    assert After(1, []) == New(1);
    assert After(1, [TrySend(7)]) == Step(New(1), TrySend(7));
    assert After(1, [TrySend(7), Receive]).consumer == Filling;
    assert After(1, [TrySend(7), Receive, StopFilling]).consumer == Draining;
    assert After(1, [TrySend(7), Receive, StopFilling, Take]).consumer == Taken(7);
  }
}
