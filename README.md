# otters micro-batching layer in Dafny

A model of the Python micro-batching layer of otters: the schema registry
(`otters/schema.py`) and the dual-trigger batcher (`otters/batcher.py`).

- `wrappers.dfy` (module `Wrappers`): `Option` for Python's `None` returns,
  `Result` for a call that either returns or raises.
- `schema.dfy` (module `SchemaRegistry`): the tag constants `Str`, `F64`,
  `I64`, the closed table `TypeMap` (`_TYPE_MAP`), construction `NewSchema`
  (`Schema.__init__`), which fails with every unknown tag in field order or
  stores the fields unchanged, and `Schema.ToArrow` (`to_arrow`). The schema
  code only computes values, so it is modelled with datatypes, functions and
  lemmas.
- `batcher.dfy` (module `Batching`): the batcher's state machine as
  functions over values (`FlushSpec` for `_flush`, `PushSpec` for `push`, and
  `Run` for a caller making a sequence of pushes), the properties the batcher
  promises proved about them, and the class `Batcher`. The class holds
  `buffer` and `lastFlush` and updates them in place, as `_buffer.append`,
  `_buffer.clear()` and the `_last_flush` assignment do. Each of its methods is
  proved to move the object exactly as the matching function says.

Conventions of the model:

- The clock `time.monotonic()` is an explicit `now` argument in integer
  milliseconds. The interval `flush_ms` is kept in milliseconds instead of
  `flush_ms / 1000.0` seconds.
- `pa.RecordBatch.from_pylist(rows, schema=...)` is the function-valued field
  `fromPylist` of the batcher. It is fixed when the batcher is built. The
  predicate `Conforms` states the only thing the batcher relies on: when the
  conversion does not raise, the batch has the given schema, one row per input
  row, and one column per schema field in schema order. Whether rows with
  missing or extra keys, or values of the wrong type, are rejected is left to
  the converter, exactly as the code leaves it to pyarrow.
- A raised exception is a `Failure` result. When a flush raises inside
  `push`, the row appended at `otters/batcher.py:27` stays buffered and
  `lastFlush` is unchanged, because the conversion at line 44 runs before the
  clear and the reset at lines 45-46. So `|buffer| < batchSize` holds after
  every push that returns normally, but not after one that raised. The next
  push then flushes again on the size trigger.

Two policy questions the code leaves open are settled as the code settles them:

- Duplicate field names are not checked. The fields come from a dict, so
  their names are distinct. `NewSchema` therefore takes distinct names as a
  precondition instead of having a duplicate-name error.
- Rows are not checked against a strict policy. Whatever the converter
  accepts is accepted.

## Model

| member | source | states |
|---|---|---|
| `SchemaRegistry.UnknownTags` | otters/schema.py:17 | the collected tags are all outside the table, each comes from some field, every field whose tag is outside the table contributes its tag, and there are at most as many as fields |
| `SchemaRegistry.UnknownTagsAppend` | otters/schema.py:17 | the unknown-tag list of a concatenation of field lists is the concatenation of their lists, so the error keeps field order and repeats |
| `SchemaRegistry.UnknownTagsSingle` | otters/schema.py:17 | one field contributes its tag exactly when the tag is not in the table |
| `SchemaRegistry.NewSchema` | otters/schema.py:16-21 | construction fails exactly when some declared tag is outside the table; the error lists all unknown tags and is never empty; on success the stored fields equal the argument unchanged and every stored tag is in the table |
| `SchemaRegistry.ConstantsAccepted` | otters/schema.py:4-12 | the table's keys are exactly `Str`, `F64` and `I64`, and any field list using only those constants constructs a schema |
| `SchemaRegistry.Schema.ToArrow` | otters/schema.py:23-27 | one Arrow field per declared field, same names in the same order, names still distinct; utf8 gives string, float64 gives double and int64 gives int64, each in both directions |
| `SchemaRegistry.TagOf` | otters/schema.py:8-12 | the inverse of the table: the tag it returns is in the table and maps back to the given Arrow type |
| `SchemaRegistry.ToArrowRoundTrip` | otters/schema.py:23-27 | `to_arrow` loses nothing: each declared field is recovered from the Arrow field at the same position |
| `SchemaRegistry.ConstructThenToArrow` | otters/schema.py:16-27 | on a successfully constructed schema `to_arrow` is defined and gives, position by position, the field name with the table lookup of its tag |
| `SchemaRegistry.TickSchemaExample` | tests/schema.py:4-21 | symbol/price/volume declared as utf8/float64/int64 construct and convert to string, double and int64, in that order |
| `Batching.DefaultsAccepted` | otters/batcher.py:14 | the default arguments `batch_size = 500` and `flush_ms = 50` pass the constructor's checks |
| `Batching.Batcher.CreateDefault` | otters/batcher.py:14-24 | `Batcher(schema)` with the defaults gives a fresh batcher with batch size 500, interval 50 ms, an empty buffer and `lastFlush == now` |
| `Batching.CheckConfig` | otters/batcher.py:15-18 | the configuration is accepted exactly when `batch_size >= 1` and `flush_ms >= 1`; a bad batch size is reported first, a bad interval only when the batch size is fine |
| `Batching.FlushSpec` | otters/batcher.py:40-47 | on an empty buffer returns `None` and changes nothing; on a non-empty buffer it raises exactly when the converter raises on the whole buffer, with the converter's error, and then changes nothing; otherwise it returns the converter's batch of the whole buffer, clears the buffer and sets `lastFlush` to `now` |
| `Batching.FlushShaped` | otters/batcher.py:44 | a batch returned by a flush has the batcher's schema, one row per buffered row and one column per schema field in schema order |
| `Batching.FlushIdempotent` | otters/batcher.py:37-42 | after a flush that did not raise, a second flush with no push in between returns `None` and leaves the state unchanged |
| `Batching.PushSpec` | otters/batcher.py:26-35 | returns `None` exactly when neither trigger fires; on `None` or a raise the row is appended and `lastFlush` kept; when a trigger fires it raises exactly when the converter raises on the old buffer plus the row, with its error, and otherwise returns the converter's batch of the old buffer plus the row, leaving an empty buffer stamped `now` |
| `Batching.PushReturnsNone` | otters/batcher.py:26-35 | a push returns `None` exactly when neither the size trigger nor the time trigger fires, and then the row is appended and `lastFlush` is unchanged |
| `Batching.PushSizeTrigger` | otters/batcher.py:29-30 | when the appended row brings the buffer to `batchSize`, the push returns the converter's batch of all buffered rows in push order with that many rows and leaves an empty buffer stamped `now`, or raises and leaves the row appended and the stamp unchanged |
| `Batching.PushTimeTrigger` | otters/batcher.py:32-33 | below the size threshold, a push at least `flushInterval` after the last flush never returns `None`: it returns the batch of every buffered row and resets the state, or raises and changes only the buffer by the new row |
| `Batching.PushBelowBatchSize` | otters/batcher.py:27-35 | after any push that returns normally the buffer holds fewer than `batchSize` rows, whatever it held before |
| `Batching.PushConserves` | otters/batcher.py:27-30 | the rows a push hands out followed by the rows it keeps are exactly the old buffer followed by the new row |
| `Batching.RunConserves` | otters/batcher.py:26-47 | over any sequence of pushes, raised or not, the batches handed out in order followed by the final buffer are the initial buffer followed by every pushed row in push order: nothing lost, duplicated or reordered |
| `Batching.RunGroupsAreBatches` | otters/batcher.py:26-47 | the batches the caller actually received during a run are, one for one and in order, the converter's batches of the recorded groups, and no group is empty; together with `RunConserves`, the received batches are built from every pushed row in push order |
| `Batching.RunBelowSize` | otters/batcher.py:26-35 | fewer than `batchSize` pushes into an empty buffer, none of them after the interval, all return `None` and leave exactly those rows buffered with `lastFlush` unchanged |
| `Batching.FillBatchBySize` | tests/batcher.py:4-14 | exactly `batchSize` pushes into an empty buffer before the interval: `None` on all but the last, and on the last the converter's batch of all of them with `batchSize` rows, an empty buffer and `lastFlush` set to that push's clock |
| `Batching.FlushByTime` | otters/batcher.py:32-33 | fewer than `batchSize` pushes, only the last at least `flushInterval` after the last flush: `None` on all but the last, and on the last the batch of every row pushed so far, in push order, with an empty buffer afterwards |
| `Batching.Batcher.constructor` | otters/batcher.py:20-24 | the batcher holds the schema's Arrow form, the batch size and the interval, an empty buffer, and `lastFlush == now` |
| `Batching.Batcher.Create` | otters/batcher.py:14-24 | raises exactly when `batch_size < 1` or `flush_ms < 1`, with the error `CheckConfig` picks; otherwise a fresh batcher with an empty buffer stamped `now` |
| `Batching.Batcher.Flush` | otters/batcher.py:40-47 | moves the object as `FlushSpec` says: an empty buffer leaves everything alone, a raised conversion changes nothing, a batch clears the buffer and stamps `now` and, for a conforming converter, has the schema, one row per old buffered row and one column per field; `lastFlush` never goes back |
| `Batching.Batcher.FlushRemaining` | otters/batcher.py:37-38 | a flush regardless of thresholds, with `FlushSpec`'s outcome; on an empty buffer it returns `None` and changes nothing |
| `Batching.Batcher.Push` | otters/batcher.py:26-35 | moves the object as `PushSpec` says: returns `None` exactly when neither trigger fires; on `None` or a raised conversion the row is appended and `lastFlush` kept; on a batch, the batch is the conversion of the old buffer plus the row, shaped like it for a conforming converter, and the buffer is empty; after a normal return fewer than `batchSize` rows remain |

## Left out

- The clock: `time.monotonic()` is the `now` argument, and `Push` and `Flush` require `lastFlush <= now`, which a monotonic clock guarantees. When the time trigger fires, `push` reads the clock twice, at `otters/batcher.py:32` and again inside `_flush` at line 46. The model uses one reading for both, as if the two reads returned the same instant. When the size trigger fires the only read is at line 46, and when neither fires the only read is at line 32, so those cases are modelled exactly.
- Floating point: `flush_ms / 1000.0` and float timestamps are replaced by integer milliseconds.
- The conversion itself: the memory layout of a `pa.RecordBatch`, the cell values, and how `from_pylist` treats missing keys, extra keys or mistyped values. They are pyarrow's, so the converter is a parameter constrained only by `Conforms`.
- Error messages: the errors carry the offending tags or values, not the formatted `ValueError` text.
- Aliasing: `Schema.__init__` stores the caller's dict object itself, and `push` stores each caller's row dict object itself (`otters/batcher.py:27`), which `from_pylist` reads only at flush time (line 44). In the source, a caller who mutates or reuses a dict after pushing it changes what the batch contains; pushing one dict three times and then editing it gives three copies of its last contents. The model takes every field list and every row as a value fixed at the moment it is passed in, so it does not capture later mutation of those objects.
- Python's dynamic typing: arguments of the wrong Python type, such as a float batch size, are not modelled.
- The Rust side of the repository is not part of this model: the threaded pipeline and channel batcher (`src/pipeline.rs`, `src/batcher.rs`), the floating-point indicators (`src/builtins/`), Parquet I/O (`src/sinks/`, `src/sources/`) and module registration (`src/lib.rs`, `src/compute.rs`). They are concurrency, floating point, file I/O or foreign calls.
- Concurrency: the batcher is single-threaded and the model assumes one caller.
