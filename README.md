# Network intrusion detection service — verified model of the core

The service classifies network connections described by the 41 NSL-KDD
features. Its core has two parts, and this project models both in Dafny.

- **The micro-batching scheduler** (`backend/main.py`). `/predict` and
  `/predict/batch` do not call the classifier themselves. Each connection
  is put on a shared queue together with a future. A single background
  worker takes the first waiting request and then collects more until the
  batch holds `BATCH_SIZE` requests or the `BATCH_WAIT` deadline passes. It
  runs one inference over the whole batch. It then resolves the futures
  position by position, or fails all of them when the inference raises.
  Module `Batching` holds this part. Class `BatchWorker` has the queue and
  the table of futures as fields, and its methods mirror the worker cycle
  and the two handlers. The request schema with its bounds and defaults
  is in module `Features`.
- **The detector** (`backend/predictor.py`). Preprocessing copies the
  frame and drops the label columns. It maps unseen categorical values to
  the encoder's first known class and then encodes them. It projects the
  training feature order and scales. `predict_single` returns the class,
  the class-to-probability dictionary and the Italian description card.
  `predict_batch` returns a copy of the input frame with a `prediction`
  column and one `prob_<class>` column per class. Module `Predictor`
  holds this part. A pandas frame is modelled as class `Frame` over the
  value `Table` (module `DataFrames`). A row is a map from column name to
  `Value`, and a request record is an ordered list of key/value pairs
  (module `Records`).

Time is not modelled. The worker's deadline becomes a parameter `k`: the
number of further requests that arrive before the deadline passes. An
empty queue stands for the one-second timeout of the first `wait_for`.

Inference is a function argument to the worker. It either returns a list
of predictions or raises a `Failure`. The function that `main.py` calls,
`predict_batch_raw`, is not defined in `backend/predictor.py`, so the model
treats it as unknown.

Futures are write-once slots: `Pending`, `Resolved`, `Failed` or
`Cancelled`. `Cancelled` is the state a future takes when the handler
awaiting it is cancelled. Because of it, the worker's check that a future
is not yet done matters.

The fitted encoders, the scaler and the classifier are opaque functions
inside the `Detector` value.

A few behaviours of the code are easy to misread, and the model keeps them
as written:

- The worker awaits each inference before it forms the next batch, so
  one batch is in flight at a time (backend/main.py:47-87).
- The first request is always taken before the size check, so a batch
  holds up to `max(1, BATCH_SIZE)` requests (backend/main.py:53-61).
  This is the bound `BatchLen` states.
- Futures and results are paired with `zip` (backend/main.py:81). When
  inference returns fewer results than there are futures, the futures
  past the end stay pending (`ShortResultsLeaveFuturesAlone`).
- Nothing refuses a request when the worker is not running: the handlers
  enqueue unconditionally (backend/main.py:237, 272).

## Model

| member | source | states |
|---|---|---|
| Records.RowOf | backend/predictor.py:90 | The one row built from a record has exactly the record's keys. |
| Records.RowOfLookup | backend/predictor.py:90 | A record with distinct keys becomes a row that has every key, each mapped to that key's own value. |
| Features.FirstInvalidField | backend/main.py:127-169 | Validation finds no invalid field exactly when every field of the schema is admitted. Otherwise it names the first field, in declaration order, whose value is missing, of the wrong type or outside its bounds. |
| Features.FlagsAreBinary | backend/main.py:135-150 | In a valid request, `land`, `logged_in`, `root_shell`, `su_attempted`, `is_host_login` and `is_guest_login` are integers in [0, 1]. |
| Features.CountsAreBounded | backend/main.py:151-161 | In a valid request, `count` and `srv_count` lie in [0, 512], and `dst_host_count` and `dst_host_srv_count` lie in [0, 255]. |
| Features.IntegersNonNegative | backend/main.py:129-161 | Every integer field of a valid request is present, is an integer and is at least 0. |
| Features.DefaultsAdmitted | backend/main.py:129-169 | Every field's default satisfies that field's own type and bounds. |
| Features.FieldNamesDistinct | backend/main.py:129-169 | No two declared fields share a name. |
| Features.Dumped | backend/main.py:127-169 | The dumped body lists every declared field once, in declaration order (its keys are the declared names in order), with distinct keys. |
| Features.DumpedField | backend/main.py:129-169 | In the dumped body, each field holds the value the body gave, or its declared default when the body omitted it. |
| Features.DumpedValidIff | backend/main.py:127-169 | Once omitted fields take their defaults, a body is valid exactly when every field it gives is within that field's type and bounds. |
| Features.EmptyBodyValid | backend/main.py:129-169 | An empty request body passes validation, because every field then takes its default. |
| DataFrames.DropIfPresent | backend/predictor.py:70-72 | Dropping a column removes exactly that column name, keeps every other cell of every row and keeps the row count. |
| DataFrames.DropIfPresentOrder | backend/predictor.py:70-72 | The remaining columns keep their order, and dropping an absent column leaves the table equal. |
| DataFrames.Kept | backend/predictor.py:70-72 | Filtering names out leaves exactly the other names, keeps distinct names distinct, and changes nothing when none of them is present. |
| DataFrames.KeptTwice | backend/predictor.py:70-72 | Dropping one set of columns and then another is the same as dropping both at once. |
| DataFrames.WithColumn | backend/predictor.py:81 | Assigning a column overwrites it in place when it exists, or appends it last. Each row gets its own value and every other cell is kept. |
| DataFrames.Frame.Copy | backend/predictor.py:67 | A copy is a fresh frame with equal contents. |
| DataFrames.Frame.Drop | backend/predictor.py:72 | Dropping in place leaves the frame holding its old contents without that column. |
| DataFrames.Frame.Assign | backend/predictor.py:81 | Assigning in place leaves the frame holding its old contents with the column set. |
| Predictor.Describe | backend/predictor.py:100 | The description is always one of the cards. A known class gets its own card. The result is the "other" card exactly when the class is unknown or is "other". |
| Predictor.DropAll | backend/predictor.py:69-72 | After dropping `label`, `label_multi` and `difficulty`, none of them remains. Every other column and cell is kept, and so is the row count. |
| Predictor.DropAllOrder | backend/predictor.py:69-72 | The columns left after the drops keep their original order. |
| Predictor.Fallback | backend/predictor.py:77-80 | A value the encoder knows is kept. An unseen value becomes the encoder's first class. Either way the result is a known class. |
| Predictor.EncodedValues | backend/predictor.py:78-81 | A value the encoder knows is encoded as itself, an unseen value as the encoder's first class, and the column keeps its length. |
| Predictor.EncodeColumn | backend/predictor.py:76-81 | Encoding one column keeps the column order and the row count. Its only error is an encoder with no classes. |
| Predictor.EncodeAll | backend/predictor.py:75-81 | Encoding keeps the column order and the row count. Its only error is an encoder with no classes. |
| Predictor.EncodeAllFails | backend/predictor.py:75-81 | Encoding raises exactly when the frame has rows and one of its columns has an encoder with no classes. |
| Predictor.EncodeAllCell | backend/predictor.py:75-81 | After encoding, a cell under an encoded column holds the transform of its fallback value. Any other cell is unchanged. |
| Predictor.Project | backend/predictor.py:84 | Selecting the feature columns fails exactly when one of them is missing. Otherwise cell (i, j) is row i's value for feature j, in training order. |
| Predictor.MissingFrom | backend/predictor.py:84 | The list of missing feature columns is empty exactly when the frame has every feature column. |
| Predictor.Prepared | backend/predictor.py:65-84 | The matrix handed to the scaler has one row per frame row and one entry per feature column. Its only errors are a missing feature column and an encoder with no classes. |
| Predictor.Preprocessed | backend/predictor.py:65-86 | Preprocessing succeeds exactly when the matrix before scaling can be built, and fails only with a missing column or an encoder with no classes. |
| Predictor.PreparedColumns | backend/predictor.py:65-84 | With fitted encoders, preprocessing succeeds exactly when every feature column is present and is not a dropped label column. Each matrix cell is then the encoded value of that row's feature. |
| Predictor.Preprocess | backend/predictor.py:65-86 | The drop loop and the encoder loop on a private copy compute exactly the preprocessing function. The caller's frame cannot be changed. |
| Predictor.ProbabilityMap | backend/predictor.py:95 | The dictionary's keys are the classes that have a probability (zip truncation). |
| Predictor.ProbabilityPairing | backend/predictor.py:95 | With distinct classes, class i maps to probability i. |
| Predictor.OneEntryPerClass | backend/predictor.py:95 | With distinct classes and a full probability row, there is exactly one entry per class. |
| Predictor.SingleRowTable | backend/predictor.py:90 | The one-row frame built from a request record has the record's keys as its columns, in insertion order, and the record as its only row. |
| Predictor.SinglePrediction | backend/predictor.py:88-101 | A successful single prediction follows a successful preprocessing and carries the description of its own class. It fails only with a preprocessing error or an empty model output. |
| Predictor.PredictSingle | backend/predictor.py:88-101 | Single prediction builds the one-row frame, preprocesses it, takes the first prediction and the first probability row, and attaches the description, or raises the matching error. |
| Predictor.SinglePredictionShape | backend/predictor.py:93-100 | With distinct classes, a successful single prediction carries the model's first prediction, the description of that class, and each class paired with the probability at its position. |
| Predictor.AddProbColumns | backend/predictor.py:111-112 | Adding the class columns keeps the table well formed and keeps the row count. It fails only when a probability column is missing or has the wrong length. |
| Predictor.AddProbColumnsErrorSticks | backend/predictor.py:111-112 | Once adding one class column fails, the whole loop fails with that error. |
| Predictor.AddProbColumnsOk | backend/predictor.py:111-112 | When the probability matrix has a row per frame row and a column per class, every class column can be added. |
| Predictor.AddProbColumnsNames | backend/predictor.py:111-112 | With distinct classes whose `prob_` names are new, the columns become the old ones followed by one `prob_<class>` per class, in class order. |
| Predictor.AddProbColumnsKeepsCells | backend/predictor.py:111-112 | Adding the class columns keeps every cell of every other column. |
| Predictor.AddProbColumnsCell | backend/predictor.py:111-112 | With distinct classes, row i's `prob_<class j>` cell holds the model's probability of class j for row i. |
| Predictor.ProbColumnInjective | backend/predictor.py:112 | Distinct classes get distinct `prob_` column names. |
| Predictor.BatchPredictionTable | backend/predictor.py:103-114 | A successful batch prediction follows a successful preprocessing and a prediction per row. The result is well formed with one row per input row. It never fails with an empty-output error. |
| Predictor.BatchOutputColumns | backend/predictor.py:103-114 | Suppose the model outputs have one row per input row and a probability column per class, the classes are distinct, and neither `prediction` nor any `prob_<class>` is already an input column. Then the batch result has the input's columns, then `prediction`, then one `prob_<class>` column per class. It keeps every input cell and holds the model's prediction and probabilities in each row. |
| Predictor.AssignProbColumns | backend/predictor.py:111-112 | The in-place loop over the classes leaves the frame holding exactly the table with the class columns added, or stops with the same error. |
| Predictor.PredictBatch | backend/predictor.py:103-114 | Batch prediction leaves the caller's frame unchanged. It succeeds or fails as the batch-prediction function does. On success it returns a fresh frame holding exactly that function's table. |
| Batching.BatchLen | backend/main.py:52-72 | A cycle takes no request exactly when the queue is empty. It takes at most `max(1, BATCH_SIZE)` requests and at most one more than those arriving before the deadline. It stops early only when the size limit or the deadline is reached. |
| Batching.CollectBatch | backend/main.py:48-72 | The collecting loop takes a prefix of the queue of the length `BatchLen` gives, in arrival order. It returns that prefix's features and futures and leaves the rest queued. |
| Batching.Settle | backend/main.py:82-83 | Settling a pending future gives it the outcome. Every other future, and a future that is already done, keeps its state. No slot is added or removed. |
| Batching.SettleAll | backend/main.py:81-87 | Settling a list of writes adds and removes no slot. |
| Batching.Fanout | backend/main.py:74-87 | A dispatch adds and removes no slot. |
| Batching.Outcomes | backend/main.py:81-87 | A successful inference settles futures only as far as both the futures and the results reach. A failed one settles every future. The futures are taken in batch order. |
| Batching.SettleAllKeepsDone | backend/main.py:82-83 | A future that is already done is never overwritten. |
| Batching.SettleAllUntargeted | backend/main.py:81-87 | A future the dispatch does not target keeps its state. |
| Batching.SettleAllPositional | backend/main.py:81-83 | With distinct futures, the i-th pending future takes the i-th outcome. |
| Batching.SettleAllUniform | backend/main.py:85-87 | When every outcome is the same, every targeted pending future takes it. |
| Batching.SettleAllChangesOnlyPending | backend/main.py:81-87 | A future whose state changes was pending, and its new state is one of the outcomes assigned to it. |
| Batching.DispatchIsWriteOnce | backend/main.py:82-87 | A dispatch leaves every already-done future (resolved, failed or cancelled) as it was. |
| Batching.OutsideBatchUnchanged | backend/main.py:74-87 | A dispatch touches only the futures of its own batch. |
| Batching.SuccessPairsPositionally | backend/main.py:81-83 | After a successful inference, the i-th pending future of the batch is resolved with the i-th result. |
| Batching.ShortResultsLeaveFuturesAlone | backend/main.py:81-83 | When inference returns fewer results than there are futures, the futures past the end are not settled. |
| Batching.FailureFansOut | backend/main.py:84-87 | When inference raises, every pending future of the batch fails with that error, and no future becomes resolved. |
| Batching.NoCrossTalk | backend/main.py:74-83 | When inference classifies each record on its own, each request's future is resolved with the classification of that request's own features, whatever else was batched with it. |
| Batching.DrainInFullBatches | backend/main.py:47-72 | With a backlog and the deadline not limiting, successive cycles take full batches of `max(1, BATCH_SIZE)` and a final partial batch, and together they take every queued request exactly once. |
| Batching.BatchWorker.constructor | backend/main.py:14-21 | The worker starts with the configured batch size, an empty queue and no futures. |
| Batching.BatchWorker.Submit | backend/main.py:236-237 | Enqueuing creates a fresh pending future and appends the request with it to the end of the queue. |
| Batching.BatchWorker.Abandon | backend/main.py:240 | Cancelling a waiting handler cancels its future if it is still pending. The queue is left alone. |
| Batching.BatchWorker.Dispatch | backend/main.py:74-87 | The zip loop and the except loop leave the futures table equal to the fan-out of the inference outcome. The queue is unchanged. |
| Batching.BatchWorker.RunCycle | backend/main.py:46-87 | One worker cycle removes the `BatchLen` prefix from the queue. It runs inference on that prefix's features and fans the outcome out to exactly those futures. It does nothing when no request arrived. |
| Batching.BatchWorker.EnqueueBatch | backend/main.py:259-273 | An empty list or one with more than 1000 records is refused with status 400 and nothing is queued. Otherwise one fresh pending future per record is created and the records are queued in order. Existing futures are kept. |
| Batching.PredictReply | backend/main.py:240-251 | `/predict` waits while its future is pending. A resolved future gives the prediction, the probabilities and the description. A failed one gives status 500 with the error text. |
| Batching.FirstAbnormal | backend/main.py:275 | Finds the first future, in list order, that failed or was cancelled. There is none exactly when every future is pending or resolved. |
| Batching.GatherReply | backend/main.py:275-289 | `/predict/batch` answers successfully exactly when every future is resolved. `total` is then the number of requests, and prediction i holds request i's class and probabilities. The first failed or cancelled future in list order decides the other outcomes. If it failed, the reply is status 500 with its text. If it was cancelled, the handler is aborted. An error reply always carries the text of a failed future, and an abort always has a cancelled future. The handler waits while some future is pending and none has failed or been cancelled. |

## Left out

- The FastAPI application: routing, CORS, the `/` and `/health` endpoints, the JSON encoding of responses, and the `latency_ms` timing. These involve I/O and clocks.
- Pydantic parsing and coercion. The model takes a request that is already typed. `FirstInvalidField` states which dumped records the schema admits, and `Dumped` fills omitted fields with their defaults.
- Predictor.BatchOutputColumns: an input frame that already has a `prediction` or `prob_<class>` column has that column overwritten in place. `BatchPredictionTable` covers this case through column assignment, but no lemma states the resulting layout.
- Features.FirstInvalidField: float fields are checked only for their type, not for the [0.0, 1.0] bounds, because reals stand in for IEEE floats.
- The thread pool, the event loop, the worker's one-second idle wait and the `BATCH_WAIT` deadline. Time is replaced by the count `k` of requests arriving before the deadline. Only one batch is in flight at a time, as in the code.
- The application lifespan: starting the worker and cancelling it at shutdown. Requests left in the queue at shutdown are not modelled.
- `run_batch_inference`: it calls `predict_batch_raw`, which `backend/predictor.py` does not define. Inference is a function argument of `RunCycle`.
- Building a pandas frame from a list of dictionaries (taking the union of their keys and filling gaps with NaN). This is not part of this model. Single prediction builds the one-row frame from one record with distinct keys.
- The artifact loading in the detector's constructor (`joblib`). The encoders, the feature order, the classes, the scaler and the classifier are fields of the `Detector` value. The scaler's, the classifier's and the encoder transform's own errors (for example on a frame with no rows) are not modelled: these functions are total.
- Predictor.EncodeColumn: its only modelled error is an encoder with no classes on a frame with rows. Whatever the opaque transform itself might raise is not modelled.
- Batching.GatherReply: when several futures failed, the reply uses the first one in list order. `asyncio.gather` reports the first one to fail in time, which this model does not order.
- The numeric types: NumPy floats are `real`, and integers are unbounded.

