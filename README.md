# Telemetry store of the molha.me IoT API

This project models the in-memory store behind the molha.me API (`backend/api_simples.js`).
Sensor nodes post readings, a dashboard polls the recent ones, and an operator adjusts alert thresholds.
The store has two parts:

- **the reading history** (`dadosHistorico`). Each posted reading gets stamped with the arrival time when its
  `timestamp` is falsy. It is then pushed onto the history, and the oldest entry is shifted out once the history
  holds more than 100 entries. The dashboard read returns the newest 10 entries, the newest entry (or `{}`) and the
  total count;
- **the threshold record** (`thresholds`). It has five properties with defaults of 30, 40, 200, 5 and 50. It is
  updated by a partial merge that overwrites a property only when the request body's value for it is truthy in
  JavaScript's sense.

Files and modules:

- `js_values.dfy` (`JsValues`): JSON/JavaScript values, property lookup (a missing property is `undefined`) and
  truthiness.
- `readings.dfy` (`Readings`): stamping, the bounded append, and the read side (`Recent`, `Current`). It also holds
  the FIFO lemmas about any sequence of appends.
- `thresholds.dfy` (`Thresholds`): the threshold snapshot, its defaults, the merge and its lemmas.
- `dashboard.dfy` (`Dashboard`): the dashboard response as a function of one snapshot of the state.
- `store.dfy` (`Store`): class `TelemetryStore`. It holds the module-level state as mutable fields: the history as
  a `seq` field, and the five thresholds as five fields, assigned one by one as the update handler does. Each handler
  body is one method. `Valid()` holds after every operation: the history never holds more than 100 entries, and every
  threshold stays truthy.

The clock read `Date.now()` at line 55 becomes the parameter `now` of `SendData`.

A request body is a plain map from property names to values. JavaScript property reads go through the prototype
chain, but `Object.prototype` has none of the six names the core reads (`timestamp` and the five threshold names).
`JSON.parse` also keeps a `__proto__` key as an ordinary property. So a plain map gives the same results.

Two consequences of the code's truthiness tests:

- The code tests `timestamp` for falsiness, not absence, so a timestamp of `0`, `null`, `false`, `""` or `NaN` is
  replaced by the arrival time as well.
- A zero threshold cannot be set: the truthiness test at lines 91-95 skips `0` (`MergeEmptyNullZeroAreNoops`).

## Model

| member | source | states |
|---|---|---|
| `JsValues.Truthy` | backend/api_simples.js:54-95 | the `!dados.timestamp` and `if (...)` tests: a value is falsy exactly when it is undefined, null, false, 0, NaN or the empty string |
| `Readings.Stamp` | backend/api_simples.js:53-56 | a truthy timestamp leaves the reading unchanged; a falsy one is set to `now` (adding the key when absent); no other property changes |
| `Readings.StampedHasTimestamp` | backend/api_simples.js:54-56 | when the clock does not read 0, every accepted reading carries a truthy timestamp |
| `Readings.Appended` | backend/api_simples.js:58-62 | below capacity the append is `h + [r]`; at capacity it is `h[1..] + [r]`, dropping exactly the oldest entry; the length becomes `min(length + 1, 100)`; the last entry is `r` |
| `Readings.AppendAllLength` | backend/api_simples.js:59-62 | from any history within capacity, after k appends the length is `min(length + k, 100)`, so it never exceeds 100 |
| `Readings.AppendsFromEmptyLength` | backend/api_simples.js:36-62 | from the initial empty history, after k appends the length is `min(k, 100)` |
| `Readings.AppendAllKeepsNewest` | backend/api_simples.js:59-62 | after any appends, the history is exactly the newest 100 of the old entries followed by the appended ones, in arrival order (FIFO eviction) |
| `Readings.OldestEvicted` | backend/api_simples.js:59-62 | appending 101 readings to the empty history keeps the last 100 in order and evicts the first one |
| `Readings.Recent` | backend/api_simples.js:73 | `slice(-10)` has `min(10, length)` entries, which are the newest entries of the history in their original order, so it is a suffix of the history |
| `Readings.Current` | backend/api_simples.js:74 | the current reading is `{}` for an empty history and the newest entry otherwise |
| `Readings.RecentAfterAppends` | backend/api_simples.js:73 | after any appends to the empty history, the recent list is the newest `min(10, k)` of the readings appended, in order |
| `Readings.CurrentAfterAppend` | backend/api_simples.js:59-74 | right after an append, the current reading, which is also the last recent reading, is the one just appended |
| `Dashboard.BuildDashboard` | backend/api_simples.js:72-83 | `dados_atuais` is the newest reading or `{}`; `historico` is the newest `min(10, length)` readings oldest first; `thresholds` is the record; `total_registros` is the history length; `api_status` is "online" |
| `Dashboard.TwoReadingsScenario` | backend/api_simples.js:49-83 | two readings that bring their own timestamps, posted to an empty store, give a dashboard showing the second as current, both in order, and a total of 2 |
| `Thresholds.Defaults` | backend/api_simples.js:25-31 | the start-up record 30, 40, 200, 5, 50; every one of its values is truthy |
| `Thresholds.Merged` | backend/api_simples.js:91-95 | each of the five properties takes the body's value when that value is truthy and keeps its old value otherwise |
| `Thresholds.MergeIgnoresUnknownKeys` | backend/api_simples.js:91-95 | two bodies that agree on the five known properties give the same merged record, so other keys have no effect |
| `Thresholds.MergeIdempotent` | backend/api_simples.js:91-95 | merging the same body twice equals merging it once |
| `Thresholds.MergeFalsyIsNoop` | backend/api_simples.js:91-95 | a body whose five known values are all falsy leaves the record unchanged |
| `Thresholds.MergeEmptyNullZeroAreNoops` | backend/api_simples.js:91-95 | the empty body, a `null` value and a `0` value leave the record unchanged |
| `Thresholds.MergeFromDefaultsExample` | backend/api_simples.js:25-95 | from the defaults, `{temperatura_max: 25}` changes only that property, and a following `{}` or `{temperatura_max: null}` keeps the result |
| `Thresholds.MergeKeepsTruthy` | backend/api_simples.js:91-95 | merging into a record whose five thresholds are all truthy keeps them all truthy, so from the truthy defaults every threshold stays truthy |
| `Store.TelemetryStore.constructor` | backend/api_simples.js:25-36 | the store starts with the default thresholds and an empty history |
| `Store.TelemetryStore.GetThresholds` | backend/api_simples.js:43-46 | returns the current threshold record, whose values are all truthy |
| `Store.TelemetryStore.SendData` | backend/api_simples.js:49-62 | the new history is the old one with the stamped reading appended and at most the oldest entry evicted; the length stays within 100; the thresholds do not change |
| `Store.TelemetryStore.GetData` | backend/api_simples.js:72-83 | returns the dashboard view of the current history and thresholds (newest reading or `{}`, newest 10 in order, total count) without changing the state |
| `Store.TelemetryStore.UpdateThresholds` | backend/api_simples.js:86-102 | the new record is the merge of the old one with the body; the echoed record equals the new record; the history does not change; every threshold stays truthy |

## Left out

- Express routing, CORS, JSON body parsing and response serialisation (`res.json`, `res.send`). The acknowledgement
  bodies `{success, message, ...}` are not modelled; the update's echoed record and the dashboard object are.
- The response timestamp of `POST /api/send-data` (line 67) is a second, separate read of the clock and is not related
  to the stored one.
- Request bodies are modelled as JSON objects only. An array body, or a missing body that makes the property access
  throw, is not modelled.
- The PostgreSQL pool and `POST /api/inserir-data` are not modelled: they are asynchronous database I/O unrelated to
  the store.
- The HTML status page at `/` and the server start-up and console logging are not modelled.
- Concurrency is not modelled. The handlers run to completion one at a time on Node's event loop, so each method is
  one atomic step.
- Floating point is not modelled. Threshold values and timestamps are only copied, so a number is a `real`, with NaN
  as a separate case for the truthiness test (a JSON body cannot carry NaN). `JSON.parse` turns an out-of-range literal
  such as `1e400` into Infinity. Infinity has no case of its own: it is truthy and only ever copied, so any non-zero
  `Num` behaves the same in the merge and in stamping. `res.json` writing it as `null` is part of the serialisation
  left out above.
- Object identity is not modelled. The stored reading is the very body object in the JavaScript code. The model keeps
  it as a value, which is the same thing here because nothing changes a reading after it is stored.
