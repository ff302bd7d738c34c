/**
 * The request-batching worker of the HTTP service and the two prediction
 * endpoints that feed it.
 *
 * Requests wait in a FIFO queue as (features, future) pairs. One cycle of
 * the worker takes the first request, keeps taking requests while the batch
 * is smaller than the batch size and the deadline has not passed, runs
 * inference on the batch's features, and then either hands the i-th result
 * to the i-th future or gives every future of the batch the same exception.
 * A future is only written while it is not done, so each is a write-once slot.
 *
 * The clock is replaced by `k`, the number of further requests the worker
 * gets before the deadline passes; an empty queue stands for a wait that
 * timed out. Inference is a function argument that returns a result list
 * or raises.
 */
module Batching {
  import opened Wrappers
  import opened Records
  import opened Predictor

  /** Largest list /predict/batch accepts. */
  const MaxBatchRecords := 1000

  type SlotId = nat

  /** The exception raised by an inference call. */
  datatype Failure = Failure(message: string)

  /**
   * A future: pending until the worker resolves it with a result or an
   * exception; Cancelled when the handler awaiting it was cancelled first.
   */
  datatype Slot = Pending | Resolved(result: Prediction) | Failed(error: Failure) | Cancelled

  datatype Request = Request(features: Record, slot: SlotId)

  /** What an inference call does with a batch: return a result list or raise. */
  datatype Inference = Returned(results: seq<Prediction>) | Raised(error: Failure)

  datatype HttpError = HttpError(status: int, detail: string)

  function FeaturesOf(q: seq<Request>): (fs: seq<Record>)
    ensures |fs| == |q| && forall i :: 0 <= i < |q| ==> fs[i] == q[i].features
  {
    seq(|q|, i requires 0 <= i < |q| => q[i].features)
  }

  function SlotsOf(q: seq<Request>): (ids: seq<SlotId>)
    ensures |ids| == |q| && forall i :: 0 <= i < |q| ==> ids[i] == q[i].slot
  {
    seq(|q|, i requires 0 <= i < |q| => q[i].slot)
  }

  // ---------------------------------------------------------------------
  // Forming a batch
  // ---------------------------------------------------------------------

  /**
   * How many queued requests one cycle takes. The batch is empty exactly
   * when nothing is queued; it never exceeds max(1, batchSize) (the first
   * request is taken unconditionally) nor k + 1; and when requests are left
   * behind, the batch stopped because it was full or the deadline passed.
   */
  function BatchLen(queued: nat, batchSize: int, k: nat): (n: nat)
    ensures n <= queued
    ensures n == 0 <==> queued == 0
    ensures n <= Max(1, batchSize) && n <= k + 1
    ensures 0 < n < queued ==> n == Max(1, batchSize) || n == k + 1
  {
    if queued == 0 then 0 else Min(queued, 1 + Min(k, Max(batchSize - 1, 0)))
  }

  /**
   * The collecting part of one cycle: the batch is the first BatchLen
   * requests of the queue in arrival order, and the queue keeps the rest.
   */
  method CollectBatch(queue: seq<Request>, batchSize: int, k: nat)
    returns (features: seq<Record>, futures: seq<SlotId>, rest: seq<Request>)
    ensures var n := BatchLen(|queue|, batchSize, k);
            && features == FeaturesOf(queue[..n])
            && futures == SlotsOf(queue[..n])
            && rest == queue[n..]
  {
    features, futures, rest := [], [], queue;
    if rest == [] {
      // the wait for a first request timed out
      return;
    }
    features, futures := [rest[0].features], [rest[0].slot];
    rest := rest[1..];
    var arrived := 0;
    while |features| < batchSize
      invariant arrived <= k && |features| == arrived + 1 <= |queue|
      invariant |features| <= Max(1, batchSize)
      invariant features == FeaturesOf(queue[..arrived + 1])
      invariant futures == SlotsOf(queue[..arrived + 1])
      invariant rest == queue[arrived + 1..]
    {
      if arrived == k {
        // the deadline has passed
        break;
      }
      if rest == [] {
        // nothing more arrived before the deadline
        break;
      }
      features, futures := features + [rest[0].features], futures + [rest[0].slot];
      rest := rest[1..];
      arrived := arrived + 1;
    }
  }

  // ---------------------------------------------------------------------
  // Fanning results out to the futures
  // ---------------------------------------------------------------------

  /** Settling a future: a future that is already done keeps its state; a pending one takes the outcome. */
  function Settle(slots: map<SlotId, Slot>, id: SlotId, s: Slot): (r: map<SlotId, Slot>)
    ensures r.Keys == slots.Keys
    ensures id in slots && slots[id].Pending? ==> r[id] == s
    ensures forall k :: k in slots && (k != id || !slots[k].Pending?) ==> r[k] == slots[k]
  {
    if id in slots && slots[id].Pending? then slots[id := s] else slots
  }

  /** The futures a list of writes names, in order. */
  function Targets(pairs: seq<(SlotId, Slot)>): (ids: seq<SlotId>)
    ensures |ids| == |pairs| && forall i :: 0 <= i < |pairs| ==> ids[i] == pairs[i].0
  {
    seq(|pairs|, i requires 0 <= i < |pairs| => pairs[i].0)
  }

  /** Settling the futures one after the other; no slot is added or removed. */
  function SettleAll(slots: map<SlotId, Slot>, pairs: seq<(SlotId, Slot)>): (r: map<SlotId, Slot>)
    ensures r.Keys == slots.Keys
    decreases |pairs|
  {
    if pairs == [] then slots
    else
      var n := |pairs| - 1;
      Settle(SettleAll(slots, pairs[..n]), pairs[n].0, pairs[n].1)
  }

  /** Settling one more write at the end. */
  lemma SettleAllSnoc(slots: map<SlotId, Slot>, pairs: seq<(SlotId, Slot)>, i: nat)
    requires i < |pairs|
    ensures SettleAll(slots, pairs[..i + 1]) == Settle(SettleAll(slots, pairs[..i]), pairs[i].0, pairs[i].1)
  {
    assert pairs[..i + 1][..i] == pairs[..i];
  }

  /** A future that is already done keeps its state (write-once). */
  lemma {:induction false} SettleAllKeepsDone(slots: map<SlotId, Slot>, pairs: seq<(SlotId, Slot)>, id: SlotId)
    requires id in slots && !slots[id].Pending?
    ensures SettleAll(slots, pairs)[id] == slots[id]
    decreases |pairs|
  {
    if pairs != [] {
      SettleAllKeepsDone(slots, pairs[..|pairs| - 1], id);
    }
  }

  /** A future no write names keeps its state. */
  lemma {:induction false} SettleAllUntargeted(slots: map<SlotId, Slot>, pairs: seq<(SlotId, Slot)>, id: SlotId)
    requires id in slots && id !in Targets(pairs)
    ensures SettleAll(slots, pairs)[id] == slots[id]
    decreases |pairs|
  {
    if pairs != [] {
      var n := |pairs| - 1;
      assert Targets(pairs) == Targets(pairs[..n]) + [pairs[n].0];
      SettleAllUntargeted(slots, pairs[..n], id);
    }
  }

  /** With distinct ids, a pending future ends up with the value its write carries. */
  lemma {:induction false} SettleAllPositional(slots: map<SlotId, Slot>, pairs: seq<(SlotId, Slot)>, i: nat)
    requires Distinct(Targets(pairs))
    requires i < |pairs| && pairs[i].0 in slots && slots[pairs[i].0].Pending?
    ensures SettleAll(slots, pairs)[pairs[i].0] == pairs[i].1
    decreases |pairs|
  {
    var n := |pairs| - 1;
    var front := pairs[..n];
    var id := pairs[i].0;
    assert Targets(pairs) == Targets(front) + [pairs[n].0];
    if i < n {
      assert Distinct(Targets(front)) by {
        forall a, b | 0 <= a < b < n ensures Targets(front)[a] != Targets(front)[b] {
          assert Targets(pairs)[a] != Targets(pairs)[b];
        }
      }
      assert front[i] == pairs[i];
      SettleAllPositional(slots, front, i);
      assert Targets(pairs)[i] != Targets(pairs)[n];
    } else {
      assert id !in Targets(front) by {
        forall a | 0 <= a < n ensures Targets(front)[a] != id {
          assert Targets(pairs)[a] != Targets(pairs)[n];
        }
      }
      SettleAllUntargeted(slots, front, id);
    }
  }

  /** If every write carries the same value, every named future that was pending ends up with it. */
  lemma {:induction false} SettleAllUniform(slots: map<SlotId, Slot>, pairs: seq<(SlotId, Slot)>, s: Slot, i: nat)
    requires forall a :: 0 <= a < |pairs| ==> pairs[a].1 == s
    requires i < |pairs| && pairs[i].0 in slots && slots[pairs[i].0].Pending?
    ensures SettleAll(slots, pairs)[pairs[i].0] == s
    decreases |pairs|
  {
    var n := |pairs| - 1;
    var front := pairs[..n];
    var id := pairs[i].0;
    if i < n {
      assert front[i] == pairs[i];
      SettleAllUniform(slots, front, s, i);
    } else if id in Targets(front) {
      var a :| 0 <= a < n && Targets(front)[a] == id;
      assert front[a] == pairs[a];
      SettleAllUniform(slots, front, s, a);
    } else {
      SettleAllUntargeted(slots, front, id);
    }
  }

  /** A future that ends up changed was pending and received the value of one of the writes naming it. */
  lemma {:induction false} SettleAllChangesOnlyPending(slots: map<SlotId, Slot>, pairs: seq<(SlotId, Slot)>, id: SlotId)
    requires id in slots && SettleAll(slots, pairs)[id] != slots[id]
    ensures slots[id].Pending?
    ensures exists i :: 0 <= i < |pairs| && pairs[i] == (id, SettleAll(slots, pairs)[id])
    decreases |pairs|
  {
    if !slots[id].Pending? {
      SettleAllKeepsDone(slots, pairs, id);
    }
    var n := |pairs| - 1;
    var front := pairs[..n];
    var before := SettleAll(slots, front);
    if before[id] != slots[id] {
      SettleAllChangesOnlyPending(slots, front, id);
      var i :| 0 <= i < n && front[i] == (id, before[id]);
      assert pairs[i] == front[i];
    } else {
      assert pairs[n] == (id, SettleAll(slots, pairs)[id]);
    }
  }

  /**
   * The writes a dispatch makes: on success the futures zipped with the
   * results (the shorter list decides the length), on failure every future
   * with the same exception.
   */
  function Outcomes(futures: seq<SlotId>, inf: Inference): (pairs: seq<(SlotId, Slot)>)
    ensures inf.Returned? ==> |pairs| == Min(|futures|, |inf.results|)
    ensures inf.Raised? ==> |pairs| == |futures|
    ensures Targets(pairs) == futures[..|pairs|]
  {
    match inf
    case Returned(results) =>
      seq(Min(|futures|, |results|), i requires 0 <= i < Min(|futures|, |results|) => (futures[i], Resolved(results[i])))
    case Raised(e) =>
      seq(|futures|, i requires 0 <= i < |futures| => (futures[i], Failed(e)))
  }

  /** The slot table after a dispatch of `futures` whose inference did `inf`. */
  function Fanout(slots: map<SlotId, Slot>, futures: seq<SlotId>, inf: Inference): (r: map<SlotId, Slot>)
    ensures r.Keys == slots.Keys
  {
    SettleAll(slots, Outcomes(futures, inf))
  }

  /** A dispatch never overwrites a future that is already done, on either path. */
  lemma DispatchIsWriteOnce(slots: map<SlotId, Slot>, futures: seq<SlotId>, inf: Inference, id: SlotId)
    requires id in slots && !slots[id].Pending?
    ensures Fanout(slots, futures, inf)[id] == slots[id]
  {
    SettleAllKeepsDone(slots, Outcomes(futures, inf), id);
  }

  /** A dispatch leaves every future outside its batch as it was. */
  lemma OutsideBatchUnchanged(slots: map<SlotId, Slot>, futures: seq<SlotId>, inf: Inference, id: SlotId)
    requires id in slots && id !in futures
    ensures Fanout(slots, futures, inf)[id] == slots[id]
  {
    SettleAllUntargeted(slots, Outcomes(futures, inf), id);
  }

  /**
   * On success, the i-th future of the batch receives the i-th result, as
   * far as both lists reach, provided it was still pending.
   */
  lemma SuccessPairsPositionally(slots: map<SlotId, Slot>, futures: seq<SlotId>, results: seq<Prediction>, i: nat)
    requires Distinct(futures)
    requires i < |futures| && i < |results|
    requires futures[i] in slots && slots[futures[i]].Pending?
    ensures Fanout(slots, futures, Returned(results))[futures[i]] == Resolved(results[i])
  {
    var pairs := Outcomes(futures, Returned(results));
    assert Distinct(Targets(pairs)) by {
      forall a, b | 0 <= a < b < |pairs| ensures Targets(pairs)[a] != Targets(pairs)[b] {
        assert Targets(pairs)[a] == futures[a] && Targets(pairs)[b] == futures[b];
      }
    }
    SettleAllPositional(slots, pairs, i);
  }

  /** Futures past the end of a shorter result list stay as they were: `zip` stops early. */
  lemma ShortResultsLeaveFuturesAlone(slots: map<SlotId, Slot>, futures: seq<SlotId>, results: seq<Prediction>, i: nat)
    requires Distinct(futures)
    requires |results| <= i < |futures| && futures[i] in slots
    ensures Fanout(slots, futures, Returned(results))[futures[i]] == slots[futures[i]]
  {
    var pairs := Outcomes(futures, Returned(results));
    assert futures[i] !in Targets(pairs) by {
      forall a | 0 <= a < |pairs| ensures Targets(pairs)[a] != futures[i] {
        assert Targets(pairs)[a] == futures[a];
      }
    }
    SettleAllUntargeted(slots, pairs, futures[i]);
  }

  /**
   * On failure, every future of the batch that was pending receives the
   * same exception, and no future anywhere receives a result.
   */
  lemma FailureFansOut(slots: map<SlotId, Slot>, futures: seq<SlotId>, e: Failure)
    ensures forall i :: 0 <= i < |futures| && futures[i] in slots && slots[futures[i]].Pending? ==>
              Fanout(slots, futures, Raised(e))[futures[i]] == Failed(e)
    ensures forall id :: id in slots && Fanout(slots, futures, Raised(e))[id].Resolved? ==>
              Fanout(slots, futures, Raised(e))[id] == slots[id]
  {
    var pairs := Outcomes(futures, Raised(e));
    forall i | 0 <= i < |futures| && futures[i] in slots && slots[futures[i]].Pending?
      ensures Fanout(slots, futures, Raised(e))[futures[i]] == Failed(e)
    {
      SettleAllUniform(slots, pairs, Failed(e), i);
    }
    forall id | id in slots && Fanout(slots, futures, Raised(e))[id].Resolved?
      ensures Fanout(slots, futures, Raised(e))[id] == slots[id]
    {
      if Fanout(slots, futures, Raised(e))[id] != slots[id] {
        SettleAllChangesOnlyPending(slots, pairs, id);
      }
    }
  }

  /** An engine that computes each result from its own input alone. */
  function Pointwise(classify: Record -> Prediction, fs: seq<Record>): (rs: seq<Prediction>)
    ensures |rs| == |fs| && forall j :: 0 <= j < |fs| ==> rs[j] == classify(fs[j])
  {
    seq(|fs|, j requires 0 <= j < |fs| => classify(fs[j]))
  }

  /**
   * No cross-talk: if the engine returns one result per input, computed
   * from that input alone, each pending request of the batch receives the
   * result of its own features.
   */
  lemma NoCrossTalk(slots: map<SlotId, Slot>, batch: seq<Request>, classify: Record -> Prediction, i: nat)
    requires Distinct(SlotsOf(batch))
    requires i < |batch| && batch[i].slot in slots && slots[batch[i].slot].Pending?
    ensures Fanout(slots, SlotsOf(batch), Returned(Pointwise(classify, FeaturesOf(batch))))[batch[i].slot]
              == Resolved(classify(batch[i].features))
  {
    SuccessPairsPositionally(slots, SlotsOf(batch), Pointwise(classify, FeaturesOf(batch)), i);
  }

  // ---------------------------------------------------------------------
  // Draining a backlog
  // ---------------------------------------------------------------------

  /** The batch sizes of successive cycles over a backlog of `queued` requests when nothing new arrives. */
  function DrainSizes(queued: nat, batchSize: int, k: nat): seq<nat>
    decreases queued
  {
    if queued == 0 then []
    else
      var n := BatchLen(queued, batchSize, k);
      [n] + DrainSizes(queued - n, batchSize, k)
  }

  function Sum(s: seq<nat>): nat
  {
    if s == [] then 0 else s[0] + Sum(s[1..])
  }

  /**
   * When the deadline never cuts a batch short (k + 1 >= max(1, batchSize)),
   * a backlog is served in full batches of max(1, batchSize) followed by
   * one last non-empty batch, covering every request exactly once.
   */
  lemma {:induction false} DrainInFullBatches(queued: nat, batchSize: int, k: nat)
    requires k + 1 >= Max(1, batchSize)
    ensures Sum(DrainSizes(queued, batchSize, k)) == queued
    ensures var s := DrainSizes(queued, batchSize, k);
            && (queued == 0 <==> s == [])
            && (forall j :: 0 <= j < |s| - 1 ==> s[j] == Max(1, batchSize))
            && (s != [] ==> 0 < s[|s| - 1] <= Max(1, batchSize))
    decreases queued
  {
    if queued > 0 {
      var n := BatchLen(queued, batchSize, k);
      DrainInFullBatches(queued - n, batchSize, k);
      var s := DrainSizes(queued, batchSize, k);
      assert forall j :: 1 <= j < |s| ==> s[j] == DrainSizes(queued - n, batchSize, k)[j - 1];
    }
  }

  // ---------------------------------------------------------------------
  // The worker and its queue
  // ---------------------------------------------------------------------

  class BatchWorker {
    /** BATCH_SIZE, read from the environment (any integer). */
    const batchSize: int
    /** The request queue, oldest first. */
    var queue: seq<Request>
    /** Every future created so far. */
    var slots: map<SlotId, Slot>
    /** The id the next future gets. */
    var nextSlot: SlotId

    /** Queued requests name distinct, existing futures; every future id is below nextSlot. */
    ghost predicate Valid()
      reads this
    {
      && (forall id :: id in slots ==> id < nextSlot)
      && (forall i :: 0 <= i < |queue| ==> queue[i].slot in slots)
      && Distinct(SlotsOf(queue))
    }

    constructor (batchSize: int)
      ensures Valid()
      ensures this.batchSize == batchSize && queue == [] && slots == map[]
    {
      this.batchSize := batchSize;
      queue, slots, nextSlot := [], map[], 0;
    }

    /** A handler creates a pending future and enqueues its features with it. */
    method Submit(features: Record) returns (id: SlotId)
      requires Valid()
      modifies this
      ensures Valid()
      ensures id !in old(slots)
      ensures slots == old(slots)[id := Pending]
      ensures queue == old(queue) + [Request(features, id)]
    {
      id := nextSlot;
      assert forall i :: 0 <= i < |queue| ==> SlotsOf(queue)[i] != id;
      slots := slots[id := Pending];
      queue := queue + [Request(features, id)];
      nextSlot := nextSlot + 1;
    }

    /** The handler awaiting a future was cancelled: the future is cancelled unless already done. */
    method Abandon(id: SlotId)
      requires Valid()
      modifies this
      ensures Valid()
      ensures queue == old(queue)
      ensures slots == Settle(old(slots), id, Cancelled)
    {
      if id in slots && slots[id].Pending? {
        slots := slots[id := Cancelled];
      }
    }

    /** Resolving the futures of a dispatched batch with what inference did. */
    method Dispatch(futures: seq<SlotId>, inf: Inference)
      modifies this
      ensures queue == old(queue) && nextSlot == old(nextSlot)
      ensures slots == Fanout(old(slots), futures, inf)
    {
      ghost var pairs := Outcomes(futures, inf);
      match inf
      case Returned(results) =>
        var i := 0;
        while i < |futures| && i < |results|
          invariant 0 <= i <= Min(|futures|, |results|)
          invariant queue == old(queue) && nextSlot == old(nextSlot)
          invariant slots == SettleAll(old(slots), pairs[..i])
        {
          SettleAllSnoc(old(slots), pairs, i);
          assert pairs[i] == (futures[i], Resolved(results[i]));
          if futures[i] in slots && slots[futures[i]].Pending? {
            slots := slots[futures[i] := Resolved(results[i])];
          }
          i := i + 1;
        }
        assert pairs[..i] == pairs;
      case Raised(e) =>
        var i := 0;
        while i < |futures|
          invariant 0 <= i <= |futures|
          invariant queue == old(queue) && nextSlot == old(nextSlot)
          invariant slots == SettleAll(old(slots), pairs[..i])
        {
          SettleAllSnoc(old(slots), pairs, i);
          assert pairs[i] == (futures[i], Failed(e));
          if futures[i] in slots && slots[futures[i]].Pending? {
            slots := slots[futures[i] := Failed(e)];
          }
          i := i + 1;
        }
        assert pairs[..i] == pairs;
    }

    /**
     * One cycle of the worker: form a batch from the front of the queue,
     * and, if it is not empty, run inference on its features and resolve its
     * futures. The next cycle starts only after this one returns.
     */
    method RunCycle(k: nat, infer: seq<Record> -> Inference) returns (dispatched: seq<SlotId>)
      requires Valid()
      modifies this
      ensures Valid()
      ensures var n := BatchLen(|old(queue)|, batchSize, k);
              && dispatched == SlotsOf(old(queue)[..n])
              && queue == old(queue)[n..]
              && slots == if n == 0 then old(slots)
                          else Fanout(old(slots), dispatched, infer(FeaturesOf(old(queue)[..n])))
    {
      ghost var q := queue;
      ghost var n := BatchLen(|q|, batchSize, k);
      var features, rest;
      features, dispatched, rest := CollectBatch(queue, batchSize, k);
      queue := rest;
      assert forall i :: 0 <= i < |rest| ==> SlotsOf(rest)[i] == SlotsOf(q)[i + n];
      if dispatched == [] {
        return;
      }
      var outcome := infer(features);
      Dispatch(dispatched, outcome);
    }

    /**
     * The /predict/batch handler up to the point where it awaits: an empty
     * list or one over 1000 records is refused with status 400 before
     * anything is enqueued; otherwise each record is enqueued, in input
     * order, with a new pending future.
     */
    method EnqueueBatch(records: seq<Record>) returns (r: Result<seq<SlotId>, HttpError>)
      requires Valid()
      modifies this
      ensures Valid()
      ensures r.Err? <==> |records| == 0 || |records| > MaxBatchRecords
      ensures r.Err? ==> r.error.status == 400 && queue == old(queue) && slots == old(slots)
      ensures r.Ok? ==>
                var ids := r.value;
                && |ids| == |records|
                && Distinct(ids)
                && queue == old(queue) + seq(|ids|, i requires 0 <= i < |ids| => Request(records[i], ids[i]))
                && (forall i :: 0 <= i < |ids| ==> ids[i] !in old(slots) && ids[i] in slots && slots[ids[i]] == Pending)
                && (forall id :: id in old(slots) ==> id in slots && slots[id] == old(slots)[id])
                && (forall id :: id in slots ==> id in old(slots) || id in ids)
    {
      if |records| == 0 {
        return Err(HttpError(400, "La lista non pu\U{F2} essere vuota."));
      }
      if |records| > MaxBatchRecords {
        return Err(HttpError(400, "Massimo 1000 connessioni per richiesta."));
      }
      var ids: seq<SlotId> := [];
      var i := 0;
      while i < |records|
        invariant 0 <= i <= |records| && |ids| == i
        invariant Valid()
        invariant Distinct(ids)
        invariant queue == old(queue) + seq(i, j requires 0 <= j < i => Request(records[j], ids[j]))
        invariant forall j :: 0 <= j < i ==> ids[j] !in old(slots) && ids[j] in slots && slots[ids[j]] == Pending
        invariant forall id :: id in old(slots) ==> id in slots && slots[id] == old(slots)[id]
        invariant forall id :: id in slots ==> id in old(slots) || id in ids
      {
        var id := Submit(records[i]);
        assert forall j :: 0 <= j < i ==> ids[j] != id;
        ids := ids + [id];
        i := i + 1;
      }
      r := Ok(ids);
    }
  }

  // ---------------------------------------------------------------------
  // What the handlers answer once their futures are done
  // ---------------------------------------------------------------------

  datatype PredictionResponse = PredictionResponse(prediction: string, probabilities: map<string, real>, description: Description)

  datatype Summary = Summary(prediction: string, probabilities: map<string, real>)

  datatype BatchResponse = BatchResponse(total: nat, predictions: seq<Summary>)

  /** A handler still awaiting, one that answered, or one that was cancelled and answers nothing. */
  datatype Reply<T> = Waiting | Answered(value: Result<T, HttpError>) | Aborted

  /**
   * The /predict handler awaiting its future: it answers with the result
   * once resolved, with status 500 and the exception's text once failed,
   * and not at all when cancelled.
   */
  function PredictReply(s: Slot): (r: Reply<PredictionResponse>)
    ensures r.Waiting? <==> s.Pending?
    ensures r.Aborted? <==> s.Cancelled?
    ensures r.Answered? && r.value.Ok? <==> s.Resolved?
    ensures s.Resolved? ==>
              && r.value.value.prediction == s.result.prediction
              && r.value.value.probabilities == s.result.probabilities
              && r.value.value.description == s.result.description
    ensures s.Failed? ==> r.value.error == HttpError(500, s.error.message)
  {
    match s
    case Pending => Waiting
    case Resolved(p) => Answered(Ok(PredictionResponse(p.prediction, p.probabilities, p.description)))
    case Failed(e) => Answered(Err(HttpError(500, e.message)))
    case Cancelled => Aborted
  }

  /** The first future, in list order, that failed or was cancelled. */
  function FirstAbnormal(slots: map<SlotId, Slot>, ids: seq<SlotId>): (r: Option<nat>)
    requires forall i :: 0 <= i < |ids| ==> ids[i] in slots
    ensures r.None? <==> forall i :: 0 <= i < |ids| ==> slots[ids[i]].Pending? || slots[ids[i]].Resolved?
    ensures r.Some? ==> r.value < |ids| && (slots[ids[r.value]].Failed? || slots[ids[r.value]].Cancelled?)
    ensures r.Some? ==> forall j :: 0 <= j < r.value ==> slots[ids[j]].Pending? || slots[ids[j]].Resolved?
    decreases |ids|
  {
    if ids == [] then None
    else if slots[ids[0]].Failed? || slots[ids[0]].Cancelled? then Some(0)
    else
      match FirstAbnormal(slots, ids[1..])
      case None => None
      case Some(j) => Some(j + 1)
  }

  /** The summary each /predict/batch entry carries. */
  function Summarize(p: Prediction): Summary
  {
    Summary(p.prediction, p.probabilities)
  }

  /**
   * The /predict/batch handler gathering its futures: the first failure
   * answers 500 at once, a cancellation aborts, and otherwise it answers
   * once every future is resolved with `total` equal to the number of
   * records and the i-th prediction taken from the i-th future.
   */
  function GatherReply(slots: map<SlotId, Slot>, ids: seq<SlotId>): (r: Reply<BatchResponse>)
    requires forall i :: 0 <= i < |ids| ==> ids[i] in slots
    ensures r.Answered? && r.value.Ok? <==> forall i :: 0 <= i < |ids| ==> slots[ids[i]].Resolved?
    ensures r.Answered? && r.value.Ok? ==>
              && r.value.value.total == |ids|
              && |r.value.value.predictions| == |ids|
              && forall i :: 0 <= i < |ids| ==> r.value.value.predictions[i] == Summarize(slots[ids[i]].result)
    ensures r.Answered? && r.value.Err? ==>
              r.value.error.status == 500 &&
              exists i :: 0 <= i < |ids| && slots[ids[i]] == Failed(Failure(r.value.error.detail))
    ensures r.Waiting? ==> exists i :: 0 <= i < |ids| && slots[ids[i]].Pending?
    ensures r.Aborted? ==> exists i :: 0 <= i < |ids| && slots[ids[i]].Cancelled?
    ensures forall i :: 0 <= i < |ids| && (slots[ids[i]].Failed? || slots[ids[i]].Cancelled?)
                        && (forall j :: 0 <= j < i ==> slots[ids[j]].Pending? || slots[ids[j]].Resolved?) ==>
              r == if slots[ids[i]].Failed? then Answered(Err(HttpError(500, slots[ids[i]].error.message))) else Aborted
  {
    match FirstAbnormal(slots, ids)
    case Some(i) =>
      (match slots[ids[i]]
       case Failed(e) => Answered(Err(HttpError(500, e.message)))
       case _ => Aborted)
    case None =>
      if forall i :: 0 <= i < |ids| ==> slots[ids[i]].Resolved? then
        var predictions := seq(|ids|, i requires 0 <= i < |ids| => Summarize(slots[ids[i]].result));
        Answered(Ok(BatchResponse(|predictions|, predictions)))
      else Waiting
  }
}
