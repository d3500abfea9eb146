/**
 The builder object: shared fields, the producers' calls and the writer thread's loop over the queue. The ghost
 `script` lists what happened so far, so `Valid` says that the object is in a state some interleaving leads to.
 */
module CapturedRun {
  import opened Basics
  import opened CaptureStore
  import BatchWriter
  import opened RunBuilder

  type Item = BatchWriter.Item
  type Record = BatchWriter.Record

  class CapturedRunBuilder {
    const batchSize: nat
    const capacity: nat
    const store: CaptureWriter
    var accepting: bool
    var queue: seq<Item>
    var pendingTicks: seq<TickResult>
    var pendingCommunications: seq<CommunicationRow>
    var pendingErrors: seq<ErrorRow>
    var nextOrdinal: map<CommunicationKey, nat>
    var batchStartedAt: Option<int>
    var mode: BatchWriter.Mode
    ghost var taken: seq<BatchWriter.Stored>
    ghost var persisted: nat
    ghost var checked: map<nat, Item>
    ghost var accepted: seq<Record>
    ghost var closing: Option<Option<CaptureStatus>>
    ghost var script: seq<Event>

    ghost function WriterView(): BatchWriter.Writer
      reads this, store
    {
      BatchWriter.Writer(batchSize, store.View(), Batch(pendingTicks, pendingCommunications, pendingErrors),
                         nextOrdinal, batchStartedAt, mode, taken, persisted)
    }

    ghost function View(): Builder
      reads this, store
    {
      Builder(capacity, accepting, closing, checked, queue, WriterView(), accepted)
    }

    ghost predicate Valid()
      reads this, store
    {
      batchSize > 0 && View() == Perform(Opened(store.expected, batchSize, capacity), script)
    }

    constructor (expected: nat, batchSize: nat, capacity: nat)
      requires batchSize > 0
      ensures Valid() && script == [] && View() == Opened(expected, batchSize, capacity)
      ensures fresh(store)
    {
      this.batchSize, this.capacity := batchSize, capacity;
      store := new CaptureWriter(expected);
      accepting, queue := true, [];
      pendingTicks, pendingCommunications, pendingErrors := [], [], [];
      nextOrdinal, batchStartedAt, mode := map[], None, BatchWriter.Running;
      taken, persisted, checked, accepted, closing := [], 0, map[], [], None;
      script := [];
    }

    /** Put what just happened on the script. */
    ghost method Took(e: Event)
      requires batchSize > 0 && View() == React(Perform(Opened(store.expected, batchSize, capacity), script), e)
      modifies this`script
      ensures View() == old(View()) && script == old(script) + [e] && Valid()
    {
      PerformOne(Opened(store.expected, batchSize, capacity), script, e);
      script := script + [e];
    }

    // ---------- The producers' side ----------

    /** The last check of a submission by `producer`. */
    method CheckSubmission(ghost producer: nat, item: Item) returns (reply: Reply)
      requires item.Row? ==> InRun(store.expected, item.record)
      modifies this`checked
      ensures (View(), reply) == PassCheck(old(View()), producer, item)
      ensures reply == if mode.Failed? then WriterFailed else if !accepting then NotAccepting else Passed
    {
      if mode.Failed? {
        return WriterFailed;
      }
      if !accepting {
        return NotAccepting;
      }
      checked := checked[producer := item];
      reply := Passed;
    }

    /** `add_tick_result`, `add_communication_result` and `add_application_error`, up to the put. */
    method AddRecord(ghost producer: nat, r: Record) returns (reply: Reply)
      requires Valid() && producer !in checked
      modifies this`checked, this`script
      ensures Valid() && script == old(script) + [Check(producer, BatchWriter.Row(r))]
      ensures (View(), reply) == PassCheck(old(View()), producer, BatchWriter.Row(r))
      ensures reply.OutOfRange? <==>
        match r
        case Tick(result) => result.tick >= store.expected
        case Communication(key, _, _) => key.tick >= store.expected
        case Diagnostic(row) => row.tick.Some? && row.tick.value >= store.expected
      ensures !reply.OutOfRange? ==>
        reply == if mode.Failed? then WriterFailed else if !accepting then NotAccepting else Passed
      ensures reply.Passed? ==> checked == old(checked)[producer := BatchWriter.Row(r)]
    {
      if !InRun(store.expected, r) {
        reply := OutOfRange;
      } else {
        reply := CheckSubmission(producer, BatchWriter.Row(r));
      }
      Took(Check(producer, BatchWriter.Row(r)));
    }

    /** `flush`, up to the put. */
    method RequestFlush(ghost producer: nat) returns (reply: Reply)
      requires Valid() && producer !in checked
      modifies this`checked, this`script
      ensures Valid() && script == old(script) + [Check(producer, BatchWriter.Flush)]
      ensures (View(), reply) == PassCheck(old(View()), producer, BatchWriter.Flush)
    {
      reply := CheckSubmission(producer, BatchWriter.Flush);
      Took(Check(producer, BatchWriter.Flush));
    }

    /** One attempt to put the item that passed its check; on a full queue the submission goes back to its check. */
    method PutOnce(ghost producer: nat, item: Item) returns (reply: Reply)
      requires Valid() && producer in checked && checked[producer] == item
      modifies this`queue, this`accepted, this`checked, this`script
      ensures Valid()
      ensures reply.Queued? ==> View() == PutPassed(old(View()), producer).0 && script == old(script) + [Put(producer)]
      ensures reply.Queued? ==> |old(queue)| < capacity && queue == old(queue) + [item]
      ensures !reply.Queued? ==> reply.QueueFull? && |old(queue)| >= capacity
      ensures !reply.Queued? ==>
        View() == GiveUpPut(old(View()), producer) && script == old(script) + [PutTimesOut(producer)]
    {
      if |queue| >= capacity {
        checked := checked - {producer};
        Took(PutTimesOut(producer));
        return QueueFull;
      }
      queue := queue + [item];
      accepted := accepted + RowsOf([item]);
      checked := checked - {producer};
      Took(Put(producer));
      reply := Queued;
    }

    /** The first half of `finalize`: from here on nothing is accepted. */
    method BeginFinalize(requested: Option<CaptureStatus>) returns (reply: Reply)
      requires Valid()
      modifies this`accepting, this`closing, this`script
      ensures Valid() && script == old(script) + [RunBuilder.BeginFinalize(requested)]
      ensures (View(), reply) == StopAccepting(old(View()), requested)
      ensures reply == if mode.Failed? then WriterFailed else if !old(accepting) then NotAccepting else Passed
      ensures reply.Passed? ==> !accepting && closing == Some(requested)
    {
      if mode.Failed? {
        reply := WriterFailed;
      } else if !accepting {
        reply := NotAccepting;
      } else {
        accepting := false;
        closing := Some(requested);
        reply := Passed;
      }
      Took(RunBuilder.BeginFinalize(requested));
    }

    /** The second half of `finalize`: the request goes in behind everything that is queued. */
    method QueueFinalize(requested: Option<CaptureStatus>) returns (reply: Reply)
      requires Valid() && closing == Some(requested)
      modifies this`queue, this`closing, this`script
      ensures Valid() && script == old(script) + [RunBuilder.QueueFinalize]
      ensures (View(), reply) == PutFinalize(old(View()))
      ensures reply == if mode.Failed? then WriterFailed else if |old(queue)| >= capacity then QueueFull else Queued
      ensures reply.Queued? ==> queue == old(queue) + [BatchWriter.Finalize(requested)]
    {
      if mode.Failed? {
        reply := WriterFailed;
      } else if |queue| >= capacity {
        reply := QueueFull;
      } else {
        queue := queue + [BatchWriter.Finalize(requested)];
        closing := None;
        reply := Queued;
      }
      Took(RunBuilder.QueueFinalize);
    }

    // ---------- The writer thread ----------

    method FlushPending()
      modifies this`pendingTicks, this`pendingCommunications, this`pendingErrors, this`batchStartedAt, this`mode,
        this`persisted, store
      ensures WriterView() == BatchWriter.FlushPending(old(WriterView()))
    {
      var ok := store.WriteBatch(Batch(pendingTicks, pendingCommunications, pendingErrors));
      if !ok {
        mode := BatchWriter.Failed;
        return;
      }
      pendingTicks, pendingCommunications, pendingErrors := [], [], [];
      batchStartedAt := None;
      persisted := |taken|;
    }

    method CollectCommunication(key: CommunicationKey, ordinal: Option<nat>, payload: seq<nat>)
      modifies this`pendingCommunications, this`nextOrdinal, this`taken
      ensures var x := BatchWriter.Numbered(old(nextOrdinal), BatchWriter.Communication(key, ordinal, payload));
        && pendingCommunications == old(pendingCommunications) + [x.row]
        && nextOrdinal == BatchWriter.Advanced(old(nextOrdinal), x)
        && taken == old(taken) + [x]
    {
      var next := if key in nextOrdinal then nextOrdinal[key] else 0;
      var number := if ordinal.Some? then ordinal.value else next;
      nextOrdinal := nextOrdinal[key := if next > number + 1 then next else number + 1];
      pendingCommunications := pendingCommunications + [CommunicationRow(key, number, payload)];
      taken := taken + [BatchWriter.StoredCommunication(CommunicationRow(key, number, payload))];
    }

    method Collect(r: Record)
      modifies this`pendingTicks, this`pendingCommunications, this`pendingErrors, this`nextOrdinal, this`taken
      ensures var x := BatchWriter.Numbered(old(nextOrdinal), r);
        && Batch(pendingTicks, pendingCommunications, pendingErrors)
           == BatchWriter.Extend(Batch(old(pendingTicks), old(pendingCommunications), old(pendingErrors)), x)
        && nextOrdinal == BatchWriter.Advanced(old(nextOrdinal), x)
        && taken == old(taken) + [x]
    {
      match r
      case Tick(result) =>
        pendingTicks := pendingTicks + [result];
        taken := taken + [BatchWriter.StoredTick(result)];
      case Communication(key, ordinal, payload) =>
        CollectCommunication(key, ordinal, payload);
      case Diagnostic(row) =>
        pendingErrors := pendingErrors + [row];
        taken := taken + [BatchWriter.StoredDiagnostic(row)];
    }

    method TakeRecord(r: Record, now: int)
      modifies this`pendingTicks, this`pendingCommunications, this`pendingErrors, this`nextOrdinal, this`taken,
        this`batchStartedAt
      ensures WriterView() == BatchWriter.Enter(old(WriterView()), r, now)
    {
      Collect(r);
      if batchStartedAt.None? {
        batchStartedAt := Some(now);
      }
    }

    method FinishRun(requested: Option<CaptureStatus>)
      modifies this`mode, store`status
      ensures WriterView() == BatchWriter.Finish(old(WriterView()), requested)
    {
      var r := store.Finalize(requested);
      mode := if r.Success? then BatchWriter.Finished else BatchWriter.Failed;
    }

    /** One turn of the loop: the queue wait expired, or an item was taken. */
    method Iterate(a: BatchWriter.Arrival)
      requires mode.Running?
      modifies this`pendingTicks, this`pendingCommunications, this`pendingErrors, this`nextOrdinal, this`taken,
               this`batchStartedAt, this`mode, this`persisted, store
      ensures WriterView() == BatchWriter.Step(old(WriterView()), a)
    {
      match a
      case Expired => FlushPending();
      case Taken(Row(r), now) =>
        TakeRecord(r, now);
        if |pendingTicks| + |pendingCommunications| + |pendingErrors| >= batchSize {
          FlushPending();
        }
      case Taken(Flush, _) => FlushPending();
      case Taken(Finalize(requested), _) =>
        FlushPending();
        if !mode.Failed? {
          FinishRun(requested);
        }
    }

    method TakeFromQueue(now: int)
      requires Valid() && queue != [] && mode.Running?
      modifies this, store
      ensures Valid() && View() == TakeNext(old(View()), now) && script == old(script) + [WriterTakes(now)]
    {
      var item := queue[0];
      queue := queue[1..];
      Iterate(BatchWriter.Taken(item, now));
      if mode.Failed? {
        queue := [];
      }
      Took(WriterTakes(now));
    }

    /** The queue wait expires with a batch pending: it is flushed. */
    method ExpireQueueWait()
      requires Valid() && queue == [] && mode.Running? && batchStartedAt.Some?
      modifies this, store
      ensures Valid() && View() == ExpireWait(old(View())) && script == old(script) + [WriterWaitExpires]
    {
      Iterate(BatchWriter.Expired);
      Took(WriterWaitExpires);
    }

    /** `_writer_loop`, run until it stops or would wait without limit. */
    method WriterLoop(clock: nat -> int)
      requires Valid()
      modifies this, store
      ensures Valid() && old(script) <= script && View() == Loop(old(View()), clock, 0)
    {
      var turn := 0;
      while mode.Running? && (queue != [] || batchStartedAt.Some?)
        invariant Valid() && old(script) <= script
        invariant Loop(View(), clock, turn) == Loop(old(View()), clock, 0)
        decreases |queue|, if batchStartedAt.Some? then 1 else 0, if mode.Running? then 1 else 0
      {
        if queue != [] {
          TakeFromQueue(clock(turn));
          turn := turn + 1;
        } else {
          ExpireQueueWait();
        }
      }
    }

    /**
     `finalize` with nothing else going on until the writer stops: the writer empties the queue, takes the request
     behind it and stops. If it stops normally, the capture holds exactly the records whose submission has gone
     through.
     */
    method Finalize(requested: Option<CaptureStatus>, clock: nat -> int) returns (ok: bool)
      requires Valid() && capacity > 0
      modifies this, store
      ensures Valid() && old(script) <= script
      ensures ok ==> mode.Finished? && EverythingStored(View()) && accepted == old(accepted)
      ensures ok ==> forall r :: r in accepted ==> BatchWriter.HoldsRecord(store.View(), r)
      ensures ok ==> IsStatusFor(store.View(), requested)
      ensures ok && requested == Some(Aborted) ==> store.status == Aborted
      ensures old(accepting) && !old(mode).Failed? ==> ok == mode.Finished? && !mode.Running?
    {
      ghost var before, built := script, View();
      var reply := BeginFinalize(requested);
      if !reply.Passed? {
        return false;
      }
      assert built == Perform(Opened(store.expected, batchSize, capacity), before) && built.accepting;
      ok := FinishClosing(requested, clock);
      assert script[..|before|] == before && script[|before|] == RunBuilder.BeginFinalize(requested);
      StatusSince(store.expected, batchSize, capacity, script, |before|);
    }

    /** The rest of `finalize`, after acceptance stopped. */
    method FinishClosing(requested: Option<CaptureStatus>, clock: nat -> int) returns (ok: bool)
      requires Valid() && closing == Some(requested) && capacity > 0
      modifies this, store
      ensures Valid() && old(script) <= script
      ensures ok ==> mode.Finished? && EverythingStored(View()) && accepted == old(accepted)
      ensures ok ==> forall r :: r in accepted ==> BatchWriter.HoldsRecord(store.View(), r)
      ensures ok == mode.Finished? && !mode.Running?
    {
      EveryBuilderIsSound(this);
      LoopSettles(View(), clock);
      WriterLoop(clock);
      if mode.Failed? {
        return false;
      }
      var reply := QueueFinalize(requested);
      EveryBuilderIsSound(this);
      LoopFinishes(View(), requested, clock);
      WriterLoop(clock);
      ok := mode.Finished?;
    }
  }

  /** Every builder object keeps the account of records, whatever calls and turns led to its state. */
  lemma EveryBuilderIsSound(c: CapturedRunBuilder)
    requires c.Valid()
    ensures Sound(c.View()) && c.View().writer.store.expected == c.store.expected
  {
    EveryPerformanceIsSound(c.store.expected, c.batchSize, c.capacity, c.script);
  }

  /**
   A builder object whose writer has finished holds every accepted record, if no record was between its check and its
   put when acceptance stopped, whatever the interleaving before and after.
   */
  lemma FinishedBuilderLostNothing(c: CapturedRunBuilder, k: nat)
    requires c.Valid() && c.mode.Finished? && k < |c.script| && c.script[k].BeginFinalize?
    requires var b := Perform(Opened(c.store.expected, c.batchSize, c.capacity), c.script[..k]);
      b.accepting && !b.writer.mode.Failed? && NoRecordPassed(b)
    ensures EverythingStored(c.View()) && forall r :: r in c.accepted ==> BatchWriter.HoldsRecord(c.store.View(), r)
  {
    assert c.script == c.script[..k] + [c.script[k]] + c.script[k + 1..];
    FinalizeLosesNothing(
      c.store.expected, c.batchSize, c.capacity, c.script[..k], c.script[k].requested, c.script[k + 1..]);
  }
}
