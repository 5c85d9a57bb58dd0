/** The dual-trigger batcher of otters/batcher.py. Rows are buffered in push
    order; a push flushes the whole buffer into one record batch when the
    buffer reaches `batchSize` rows, or else when `flushInterval` milliseconds
    have passed since the last flush. The time trigger is only looked at on a
    push: there is no timer.

    The state machine is first given as functions over values (FlushSpec,
    PushSpec, Run) with the properties the batcher promises proved about them;
    the class Batcher then implements it in place and is proved against them. */
module Batching {
  import opened Wrappers
  import opened SchemaRegistry

  /** A pushed row: a dict from field name to a value of any type `V`. */
  type Row<V> = map<string, V>

  /** A `pa.RecordBatch`: the schema it was built with, one column per schema
      field, and its row count. The layout of the cells is left to the converter. */
  datatype RecordBatch<V> = RecordBatch(schema: seq<ArrowField>, columns: seq<seq<V>>, numRows: nat)

  /** The error `pa.RecordBatch.from_pylist` raises on rows it cannot convert. */
  datatype ConversionError = RowSchemaMismatch(message: string)

  /** `pa.RecordBatch.from_pylist(rows, schema=schema)`, given as a value. */
  type Converter<!V> = (seq<Row<V>>, seq<ArrowField>) -> Result<RecordBatch<V>, ConversionError>

  /** What a push or a flush hands back: a batch, `None`, or a raised conversion error. */
  type Reply<V> = Result<Option<RecordBatch<V>>, ConversionError>

  datatype ConfigError = BatchSizeTooSmall(batchSize: int) | FlushMsTooSmall(flushMs: int)

  /** A batch built from `rows` under `schema`: it carries the schema, one
      column per field in schema order, and one cell per row in each column. */
  predicate Shaped<V>(b: RecordBatch<V>, rows: seq<Row<V>>, schema: seq<ArrowField>) {
    && b.schema == schema
    && b.numRows == |rows|
    && |b.columns| == |schema|
    && forall j :: 0 <= j < |b.columns| ==> |b.columns[j]| == |rows|
  }

  /** The part of the converter's behaviour the batcher relies on: whenever it
      does not raise, its batch has the shape of its input. Whether it accepts
      rows with missing or extra keys is not fixed. */
  ghost predicate Conforms<V(!new)>(convert: Converter<V>) {
    forall rows, schema :: convert(rows, schema).Success? ==> Shaped(convert(rows, schema).value, rows, schema)
  }

  /** The constants a batcher is built with. `flushInterval` is in milliseconds. */
  datatype Config<!V> = Config(schema: seq<ArrowField>, batchSize: int, flushInterval: int, fromPylist: Converter<V>)

  /** The fields a batcher updates: `_buffer` and `_last_flush`. */
  datatype State<V> = State(buffer: seq<Row<V>>, lastFlush: int)

  /** The default arguments of `Batcher.__init__`. */
  const DefaultBatchSize: int := 500
  const DefaultFlushMs: int := 50

  /** The default configuration passes the constructor's checks. */
  lemma DefaultsAccepted()
    ensures CheckConfig(DefaultBatchSize, DefaultFlushMs).None?
  {
  }

  /** The checks of `Batcher.__init__`, in source order: the batch size is
      checked first, then the flush interval. */
  function CheckConfig(batchSize: int, flushMs: int): (r: Option<ConfigError>)
    ensures r.None? <==> batchSize >= 1 && flushMs >= 1
    ensures batchSize < 1 ==> r == Some(BatchSizeTooSmall(batchSize))
    ensures batchSize >= 1 && flushMs < 1 ==> r == Some(FlushMsTooSmall(flushMs))
  {
    if batchSize < 1 then Some(BatchSizeTooSmall(batchSize))
    else if flushMs < 1 then Some(FlushMsTooSmall(flushMs))
    else None
  }

  /** `Batcher._flush` at clock reading `now`. */
  function FlushSpec<V>(c: Config<V>, s: State<V>, now: int): (out: (State<V>, Reply<V>))
    ensures s.buffer == [] ==> out == (s, Success(None))
    ensures out.1.Failure? ==> out.0 == s
    ensures s.buffer != [] && out.1.Success? ==>
      out.1.value.Some? && out.0 == State([], now) && Success(out.1.value.value) == c.fromPylist(s.buffer, c.schema)
    ensures s.buffer != [] ==> (out.1.Failure? <==> c.fromPylist(s.buffer, c.schema).Failure?)
    ensures out.1.Failure? ==> c.fromPylist(s.buffer, c.schema) == Failure(out.1.error)
  {
    if s.buffer == [] then (s, Success(None))
    else
      match c.fromPylist(s.buffer, c.schema)
      case Failure(e) => (s, Failure(e))
      case Success(b) => (State([], now), Success(Some(b)))
  }

  /** A batch a flush returns holds every buffered row, under the batcher's
      schema, one column per schema field in schema order. */
  lemma FlushShaped<V(!new)>(c: Config<V>, s: State<V>, now: int)
    requires Conforms(c.fromPylist)
    ensures FlushSpec(c, s, now).1.Success? && FlushSpec(c, s, now).1.value.Some? ==>
      Shaped(FlushSpec(c, s, now).1.value.value, s.buffer, c.schema)
  {
  }

  /** `Batcher.push` of `row` at clock reading `now`: append, then the size
      trigger, then the time trigger. */
  function PushSpec<V>(c: Config<V>, s: State<V>, row: Row<V>, now: int): (out: (State<V>, Reply<V>))
    ensures out.1 == Success(None) <==> |s.buffer| + 1 < c.batchSize && now - s.lastFlush < c.flushInterval
    ensures out.1 == Success(None) || out.1.Failure? ==> out.0 == State(s.buffer + [row], s.lastFlush)
    ensures out.1.Success? && out.1.value.Some? ==>
      out.0 == State([], now) && Success(out.1.value.value) == c.fromPylist(s.buffer + [row], c.schema)
    ensures |s.buffer| + 1 >= c.batchSize || now - s.lastFlush >= c.flushInterval ==>
      (out.1.Failure? <==> c.fromPylist(s.buffer + [row], c.schema).Failure?)
    ensures out.1.Failure? ==> c.fromPylist(s.buffer + [row], c.schema) == Failure(out.1.error)
  {
    var appended := s.(buffer := s.buffer + [row]);
    if |appended.buffer| >= c.batchSize then FlushSpec(c, appended, now)
    else if now - appended.lastFlush >= c.flushInterval then FlushSpec(c, appended, now)
    else (appended, Success(None))
  }

  /** The rows a push handed out in a batch: all that were pending, or none. */
  function Delivered<V>(pending: seq<Row<V>>, reply: Reply<V>): seq<seq<Row<V>>> {
    if reply.Success? && reply.value.Some? then [pending] else []
  }

  function Flatten<V>(groups: seq<seq<Row<V>>>): seq<Row<V>> {
    if groups == [] then [] else Flatten(groups[..|groups| - 1]) + groups[|groups| - 1]
  }

  /** The outcome of a sequence of pushes: the final state, each push's reply,
      and the row groups that left in batches, oldest first. */
  datatype Trace<V> = Trace(final: State<V>, replies: seq<Reply<V>>, groups: seq<seq<Row<V>>>)

  /** A caller pushing `rows[i]` at clock reading `times[i]`, in order, and
      carrying on after a push that raised. */
  function Run<V>(c: Config<V>, s: State<V>, rows: seq<Row<V>>, times: seq<int>): (t: Trace<V>)
    requires |rows| == |times|
    ensures |t.replies| == |rows|
    decreases |rows|
  {
    if rows == [] then Trace(s, [], [])
    else
      var n := |rows| - 1;
      var prev := Run(c, s, rows[..n], times[..n]);
      var (next, reply) := PushSpec(c, prev.final, rows[n], times[n]);
      Trace(next, prev.replies + [reply], prev.groups + Delivered(prev.final.buffer + [rows[n]], reply))
  }

  /** A push returns a batch exactly when a trigger fires and the conversion
      does not raise; it returns `None` exactly when no trigger fires. */
  lemma PushReturnsNone<V>(c: Config<V>, s: State<V>, row: Row<V>, now: int)
    ensures PushSpec(c, s, row, now).1 == Success(None) <==>
      |s.buffer| + 1 < c.batchSize && now - s.lastFlush < c.flushInterval
    ensures PushSpec(c, s, row, now).1 == Success(None) ==>
      PushSpec(c, s, row, now).0 == State(s.buffer + [row], s.lastFlush)
  {
  }

  /** Size trigger: once the row brings the buffer to `batchSize`, the push
      either returns a batch of every buffered row in push order and leaves an
      empty buffer and `lastFlush == now`, or raises and leaves the row
      appended and the timestamp as it was. */
  lemma PushSizeTrigger<V(!new)>(c: Config<V>, s: State<V>, row: Row<V>, now: int)
    requires Conforms(c.fromPylist)
    requires |s.buffer| + 1 >= c.batchSize
    ensures var (next, reply) := PushSpec(c, s, row, now);
      match c.fromPylist(s.buffer + [row], c.schema)
      case Success(b) =>
        reply == Success(Some(b)) && b.numRows == |s.buffer| + 1 && next == State([], now)
      case Failure(e) =>
        reply == Failure(e) && next == State(s.buffer + [row], s.lastFlush)
  {
  }

  /** Time trigger: below the size threshold, a push at least `flushInterval`
      after the last flush always has rows to flush, so it never returns `None`. */
  lemma PushTimeTrigger<V(!new)>(c: Config<V>, s: State<V>, row: Row<V>, now: int)
    requires Conforms(c.fromPylist)
    requires |s.buffer| + 1 < c.batchSize && now - s.lastFlush >= c.flushInterval
    ensures var (next, reply) := PushSpec(c, s, row, now);
      match c.fromPylist(s.buffer + [row], c.schema)
      case Success(b) =>
        reply == Success(Some(b)) && b.numRows == |s.buffer| + 1 && next == State([], now)
      case Failure(e) =>
        reply == Failure(e) && next == State(s.buffer + [row], s.lastFlush)
  {
  }

  /** After a push that returns normally the buffer is below the batch size,
      whatever the buffer held before (even after earlier raised conversions). */
  lemma PushBelowBatchSize<V>(c: Config<V>, s: State<V>, row: Row<V>, now: int)
    requires c.batchSize >= 1
    ensures PushSpec(c, s, row, now).1.Success? ==> |PushSpec(c, s, row, now).0.buffer| < c.batchSize
  {
  }

  /** A push loses, duplicates and reorders nothing: the rows it hands out
      followed by the rows it keeps are the rows held before plus the new row. */
  lemma PushConserves<V>(c: Config<V>, s: State<V>, row: Row<V>, now: int)
    ensures Flatten(Delivered(s.buffer + [row], PushSpec(c, s, row, now).1)) + PushSpec(c, s, row, now).0.buffer
      == s.buffer + [row]
  {
    var d := Delivered(s.buffer + [row], PushSpec(c, s, row, now).1);
    if d != [] {
      assert d[..0] == [];
    }
  }

  lemma {:induction false} FlattenAppend<V>(gs: seq<seq<Row<V>>>, hs: seq<seq<Row<V>>>)
    ensures Flatten(gs + hs) == Flatten(gs) + Flatten(hs)
    decreases |hs|
  {
    if hs == [] {
      assert gs + hs == gs;
    } else {
      var n := |hs| - 1;
      assert (gs + hs)[..|gs + hs| - 1] == gs + hs[..n];
      FlattenAppend(gs, hs[..n]);
    }
  }

  /** One more push extends a run by one step. */
  lemma RunLast<V>(c: Config<V>, s: State<V>, rows: seq<Row<V>>, times: seq<int>)
    requires |rows| == |times| && rows != []
    ensures var n := |rows| - 1;
      var prev := Run(c, s, rows[..n], times[..n]);
      var out := PushSpec(c, prev.final, rows[n], times[n]);
      && Run(c, s, rows, times).final == out.0
      && Run(c, s, rows, times).replies == prev.replies + [out.1]
      && Run(c, s, rows, times).groups == prev.groups + Delivered(prev.final.buffer + [rows[n]], out.1)
  {
  }

  /** Appending the rows of one push to a run, regrouped. */
  lemma Regroup<T>(all: seq<T>, kept: seq<T>, done: seq<T>, sent: seq<T>, pending: seq<T>, x: T, start: seq<T>, before: seq<T>, rows: seq<T>)
    requires all == done + sent
    requires sent + kept == pending + [x]
    requires done + pending == start + before
    requires before + [x] == rows
    ensures all + kept == start + rows
  {
    calc {
      all + kept;
      (done + sent) + kept;
      done + (sent + kept);
      (done + pending) + [x];
      (start + before) + [x];
      start + (before + [x]);
    }
  }

  /** Over any sequence of pushes, the batches handed out, in order, followed
      by what is still buffered, are exactly the rows held at the start
      followed by every pushed row in push order. */
  lemma {:induction false} RunConserves<V>(c: Config<V>, s: State<V>, rows: seq<Row<V>>, times: seq<int>)
    requires |rows| == |times|
    ensures Flatten(Run(c, s, rows, times).groups) + Run(c, s, rows, times).final.buffer == s.buffer + rows
    decreases |rows|
  {
    if rows != [] {
      var n := |rows| - 1;
      var prev := Run(c, s, rows[..n], times[..n]);
      var out := PushSpec(c, prev.final, rows[n], times[n]);
      var d := Delivered(prev.final.buffer + [rows[n]], out.1);
      var t := Run(c, s, rows, times);
      RunLast(c, s, rows, times);
      RunConserves(c, s, rows[..n], times[..n]);
      PushConserves(c, prev.final, rows[n], times[n]);
      FlattenAppend(prev.groups, d);
      assert rows[..n] + [rows[n]] == rows;
      Regroup(Flatten(t.groups), t.final.buffer, Flatten(prev.groups), Flatten(d), prev.final.buffer, rows[n], s.buffer, rows[..n], rows);
    }
  }

  /** The batches among a sequence of replies, in order: what the caller
      actually received from the pushes that returned one. */
  function Batches<V>(replies: seq<Reply<V>>): seq<RecordBatch<V>> {
    if replies == [] then []
    else
      var last := replies[|replies| - 1];
      Batches(replies[..|replies| - 1]) + if last.Success? && last.value.Some? then [last.value.value] else []
  }

  /** The recorded groups are exactly the batches the pushes returned: the
      k-th batch the caller received is the converter's batch of the k-th
      group, and no group is empty. With RunConserves, the batches received
      are built from every pushed row, in push order, each row once. */
  lemma {:induction false} RunGroupsAreBatches<V>(c: Config<V>, s: State<V>, rows: seq<Row<V>>, times: seq<int>)
    requires |rows| == |times|
    ensures |Batches(Run(c, s, rows, times).replies)| == |Run(c, s, rows, times).groups|
    ensures forall k :: 0 <= k < |Run(c, s, rows, times).groups| ==>
      Run(c, s, rows, times).groups[k] != [] &&
      c.fromPylist(Run(c, s, rows, times).groups[k], c.schema) == Success(Batches(Run(c, s, rows, times).replies)[k])
    decreases |rows|
  {
    if rows != [] {
      var n := |rows| - 1;
      var prev := Run(c, s, rows[..n], times[..n]);
      var out := PushSpec(c, prev.final, rows[n], times[n]);
      RunLast(c, s, rows, times);
      RunGroupsAreBatches(c, s, rows[..n], times[..n]);
      var t := Run(c, s, rows, times);
      assert t.replies[..|t.replies| - 1] == prev.replies;
      assert t.replies[|t.replies| - 1] == out.1;
    }
  }

  /** Without the time trigger firing, the first `k < batchSize` pushes into an
      empty buffer all return `None` and leave exactly those rows buffered. */
  lemma {:induction false} RunBelowSize<V>(c: Config<V>, s: State<V>, rows: seq<Row<V>>, times: seq<int>)
    requires |rows| == |times| && |rows| < c.batchSize
    requires s.buffer == []
    requires forall i :: 0 <= i < |times| ==> times[i] - s.lastFlush < c.flushInterval
    ensures Run(c, s, rows, times).final == State(rows, s.lastFlush)
    ensures forall i :: 0 <= i < |rows| ==> Run(c, s, rows, times).replies[i] == Success(None)
    ensures Run(c, s, rows, times).groups == []
    decreases |rows|
  {
    if rows != [] {
      var n := |rows| - 1;
      RunBelowSize(c, s, rows[..n], times[..n]);
      assert rows[..n] + [rows[n]] == rows;
    }
  }

  /** Pushing exactly `batchSize` rows into an empty buffer without the time
      trigger firing returns `None` on the first `batchSize - 1` pushes and, on
      the last, the converter's batch of all of them with `batchSize` rows,
      leaving the buffer empty. */
  lemma FillBatchBySize<V(!new)>(c: Config<V>, s: State<V>, rows: seq<Row<V>>, times: seq<int>)
    requires Conforms(c.fromPylist)
    requires c.batchSize >= 1 && |rows| == c.batchSize && |times| == c.batchSize
    requires s.buffer == []
    requires forall i :: 0 <= i < |times| ==> times[i] - s.lastFlush < c.flushInterval
    requires c.fromPylist(rows, c.schema).Success?
    ensures forall i :: 0 <= i < |rows| - 1 ==> Run(c, s, rows, times).replies[i] == Success(None)
    ensures Run(c, s, rows, times).replies[|rows| - 1] == Success(Some(c.fromPylist(rows, c.schema).value))
    ensures c.fromPylist(rows, c.schema).value.numRows == c.batchSize
    ensures Run(c, s, rows, times).final == State([], times[|rows| - 1])
    ensures Run(c, s, rows, times).groups == [rows]
  {
    var n := |rows| - 1;
    RunBelowSize(c, s, rows[..n], times[..n]);
    assert rows[..n] + [rows[n]] == rows;
  }

  /** Pushing fewer than `batchSize` rows into an empty buffer and then one
      more row at least `flushInterval` after the last flush: the earlier
      pushes return `None`, and the last returns the converter's batch of
      every row pushed so far, in push order, leaving the buffer empty. */
  lemma FlushByTime<V(!new)>(c: Config<V>, s: State<V>, rows: seq<Row<V>>, times: seq<int>)
    requires Conforms(c.fromPylist)
    requires |rows| == |times| && 1 <= |rows| < c.batchSize
    requires s.buffer == []
    requires forall i :: 0 <= i < |times| - 1 ==> times[i] - s.lastFlush < c.flushInterval
    requires times[|times| - 1] - s.lastFlush >= c.flushInterval
    requires c.fromPylist(rows, c.schema).Success?
    ensures forall i :: 0 <= i < |rows| - 1 ==> Run(c, s, rows, times).replies[i] == Success(None)
    ensures Run(c, s, rows, times).replies[|rows| - 1] == Success(Some(c.fromPylist(rows, c.schema).value))
    ensures c.fromPylist(rows, c.schema).value.numRows == |rows|
    ensures Run(c, s, rows, times).final == State([], times[|rows| - 1])
  {
    var n := |rows| - 1;
    RunBelowSize(c, s, rows[..n], times[..n]);
    assert rows[..n] + [rows[n]] == rows;
  }

  /** Flushing twice with no push in between: the second flush finds nothing
      to do, returns `None` and changes nothing, so `flush_remaining` can be
      repeated safely. */
  lemma FlushIdempotent<V>(c: Config<V>, s: State<V>, now1: int, now2: int)
    requires FlushSpec(c, s, now1).1.Success?
    ensures FlushSpec(c, FlushSpec(c, s, now1).0, now2) == (FlushSpec(c, s, now1).0, Success(None))
  {
  }

  /** `Batcher`: the buffer and the last-flush timestamp, updated in place. */
  class Batcher<V(!new)> {
    const schema: seq<ArrowField>
    const batchSize: int
    const flushInterval: int
    const fromPylist: Converter<V>
    var buffer: seq<Row<V>>
    var lastFlush: int

    predicate Valid() {
      batchSize >= 1 && flushInterval >= 1
    }

    function Params(): Config<V> {
      Config(schema, batchSize, flushInterval, fromPylist)
    }

    function Current(): State<V>
      reads this
    {
      State(buffer, lastFlush)
    }

    /** The body of `Batcher.__init__` once its checks have passed. */
    constructor (s: Schema, batchSize: int, flushMs: int, now: int, fromPylist: Converter<V>)
      requires s.Valid()
      requires CheckConfig(batchSize, flushMs).None?
      ensures Valid()
      ensures schema == s.ToArrow() && this.batchSize == batchSize && flushInterval == flushMs
      ensures this.fromPylist == fromPylist
      ensures buffer == [] && lastFlush == now
    {
      schema := s.ToArrow();
      this.batchSize := batchSize;
      flushInterval := flushMs;
      this.fromPylist := fromPylist;
      buffer := [];
      lastFlush := now;
    }

    /** `Batcher(schema, batch_size, flush_ms)`: raises on a batch size or an
        interval below 1, otherwise an empty batcher stamped with `now`. */
    static method Create(s: Schema, batchSize: int, flushMs: int, now: int, fromPylist: Converter<V>)
      returns (r: Result<Batcher<V>, ConfigError>)
      requires s.Valid()
      ensures r.Failure? <==> batchSize < 1 || flushMs < 1
      ensures r.Failure? ==> Some(r.error) == CheckConfig(batchSize, flushMs)
      ensures r.Success? ==> fresh(r.value) && r.value.Valid()
      ensures r.Success? ==> r.value.schema == s.ToArrow() && r.value.batchSize == batchSize
      ensures r.Success? ==> r.value.flushInterval == flushMs && r.value.fromPylist == fromPylist
      ensures r.Success? ==> r.value.buffer == [] && r.value.lastFlush == now
    {
      var err := CheckConfig(batchSize, flushMs);
      if err.Some? {
        return Failure(err.value);
      }
      var b := new Batcher(s, batchSize, flushMs, now, fromPylist);
      return Success(b);
    }

    /** `Batcher(schema)` with the default batch size and interval. */
    static method CreateDefault(s: Schema, now: int, fromPylist: Converter<V>) returns (b: Batcher<V>)
      requires s.Valid()
      ensures fresh(b) && b.Valid()
      ensures b.schema == s.ToArrow() && b.batchSize == DefaultBatchSize && b.flushInterval == DefaultFlushMs
      ensures b.fromPylist == fromPylist && b.buffer == [] && b.lastFlush == now
    {
      var r := Create(s, DefaultBatchSize, DefaultFlushMs, now, fromPylist);
      b := r.value;
    }

    /** `Batcher._flush`. An empty buffer is left alone, `lastFlush` included.
        Otherwise the whole buffer is converted; if that raises nothing has
        changed, else the buffer is cleared and `lastFlush` becomes `now`. */
    method Flush(now: int) returns (r: Reply<V>)
      requires Valid()
      requires lastFlush <= now
      modifies this
      ensures (Current(), r) == FlushSpec(Params(), old(Current()), now)
      ensures old(buffer) == [] ==> r == Success(None) && buffer == [] && lastFlush == old(lastFlush)
      ensures r.Failure? ==> buffer == old(buffer) && lastFlush == old(lastFlush)
      ensures r.Success? && r.value.Some? ==> buffer == [] && lastFlush == now
      ensures Conforms(fromPylist) && r.Success? && r.value.Some? ==> Shaped(r.value.value, old(buffer), schema)
      ensures old(lastFlush) <= lastFlush
    {
      if buffer == [] {
        return Success(None);
      }
      var converted := fromPylist(buffer, schema);
      if converted.Failure? {
        return Failure(converted.error);
      }
      buffer := [];
      lastFlush := now;
      return Success(Some(converted.value));
    }

    /** `Batcher.flush_remaining`: a flush whatever the thresholds. */
    method FlushRemaining(now: int) returns (r: Reply<V>)
      requires Valid()
      requires lastFlush <= now
      modifies this
      ensures (Current(), r) == FlushSpec(Params(), old(Current()), now)
      ensures old(buffer) == [] ==> r == Success(None) && buffer == [] && lastFlush == old(lastFlush)
    {
      r := Flush(now);
    }

    /** `Batcher.push`: appends `row`, then flushes if the buffer has reached
        `batchSize`, or else if `flushInterval` has passed since `lastFlush`. */
    method Push(row: Row<V>, now: int) returns (r: Reply<V>)
      requires Valid()
      requires lastFlush <= now
      modifies this
      ensures (Current(), r) == PushSpec(Params(), old(Current()), row, now)
      ensures r == Success(None) <==> |old(buffer)| + 1 < batchSize && now - old(lastFlush) < flushInterval
      ensures r == Success(None) || r.Failure? ==> buffer == old(buffer) + [row] && lastFlush == old(lastFlush)
      ensures r.Success? && r.value.Some? ==> buffer == [] && lastFlush == now
      ensures r.Success? && r.value.Some? ==> Success(r.value.value) == fromPylist(old(buffer) + [row], schema)
      ensures Conforms(fromPylist) && r.Success? && r.value.Some? ==> Shaped(r.value.value, old(buffer) + [row], schema)
      ensures r.Success? ==> |buffer| < batchSize
      ensures old(lastFlush) <= lastFlush
    {
      buffer := buffer + [row];
      if |buffer| >= batchSize {
        r := Flush(now);
        return;
      }
      if now - lastFlush >= flushInterval {
        r := Flush(now);
        return;
      }
      return Success(None);
    }
  }
}
