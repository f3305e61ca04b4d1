/** The sending core of `send_owb_M_ui.py`.

    The script keeps its state in module globals: the slot table
    `data_list`, one wake flag per worker in `wake_events`, the channel count
    `num_threads` and the dispatch guard `job_lock`. `Sender` holds these as
    fields. Its methods are `create_data`, one wake-up of `worker` and
    `scheduled_job`. Each is proved against a function or a state description
    stated here. The serial sink is reduced to two inputs of a wake-up:
    whether the port is open and what the write did. `sent` records the
    frames the sink accepted. `jobLog` records what `scheduled_job` did, in
    order. Ticks come from the UI thread's timer one at a time, so a tick
    finds the guard held only after an earlier tick raised between taking
    and releasing it; the only call there that can raise is `flush()`. */
module UiSender {
  import opened FrameChecksum
  import opened Frames
  import opened FrameText
  import opened Slots

  /** One wake-up of worker `id` (`worker`, lines 84-110): check the stop
      flag, read slot `id`, skip an empty slot, give up when the port is
      closed, else write the frame and empty the slot if the write went
      through. */
  function WorkerStep(table: seq<string>, id: nat, stop: bool, sinkOpen: bool, w: WriteResult): (r: Step)
    ensures |r.table| == |table|
    ensures forall k :: 0 <= k < |table| && k != id ==> r.table[k] == table[k]
    ensures stop ==> r == Step(Stopped, table)
    ensures !stop && id >= |table| ==> r == Step(IndexError, table)
    ensures !stop && id < |table| && table[id] == Empty ==> r == Step(NoOp, table)
    ensures !stop && id < |table| && table[id] != Empty && !sinkOpen ==> r == Step(Stopped, table)
    ensures r.outcome == Sent <==> !stop && id < |table| && table[id] != Empty && sinkOpen && w == Written
    ensures r.outcome == Sent ==> r.table == table[id := Empty]
    ensures r.outcome != Sent ==> r.table == table
    ensures r.outcome.Failed? <==> !stop && id < |table| && table[id] != Empty && sinkOpen && w.WriteFailed?
    ensures r.outcome.Failed? ==> w == WriteFailed(r.outcome.error)
  {
    if stop then Step(Stopped, table)
    else if id >= |table| then Step(IndexError, table)
    else if table[id] == Empty then Step(NoOp, table)
    else if !sinkOpen then Step(Stopped, table)
    else match w
      case Written => Step(Sent, table[id := Empty])
      case WriteFailed(e) => Step(Failed(e), table)
  }

  /** A wake-up removes the worker's slot from the pending ones exactly when
      it sends, and never touches the sentinel. */
  lemma StepPending(table: seq<string>, id: nat, stop: bool, sinkOpen: bool, w: WriteResult)
    ensures var r := WorkerStep(table, id, stop, sinkOpen, w);
      Pending(r.table) == if r.outcome == Sent then Pending(table) - {id} else Pending(table)
    ensures |table| > 0 && table[0] == Empty ==> WorkerStep(table, id, stop, sinkOpen, w).table[0] == Empty
  {
    var r := WorkerStep(table, id, stop, sinkOpen, w);
    if r.outcome == Sent {
      ClearPending(table, id);
    }
  }

  /** Workers 1..k each wake once, with the stop flag clear, the port open
      and every write going through. Gives the table they leave and the
      frames the sink received, in order. */
  function Drain(t: seq<string>, k: nat): (seq<string>, seq<string>)
  {
    if k == 0 then (t, [])
    else
      var (u, out) := Drain(t, k - 1);
      var s := WorkerStep(u, k, false, true, Written);
      (s.table, if s.outcome == Sent then out + [u[k]] else out)
  }

  lemma SliceSnoc(t: seq<string>, k: nat)
    requires 1 <= k < |t|
    ensures t[1..k + 1] == t[1..k] + [t[k]]
  {
  }

  lemma {:induction false} DrainState(t: seq<string>, k: nat)
    requires k < |t|
    ensures |Drain(t, k).0| == |t|
    ensures forall j :: 1 <= j <= k ==> Drain(t, k).0[j] == Empty
    ensures forall j :: 0 <= j < |t| && (j == 0 || j > k) ==> Drain(t, k).0[j] == t[j]
    ensures (forall j :: 1 <= j <= k ==> t[j] != Empty) ==> Drain(t, k).1 == t[1..k + 1]
  {
    if k > 0 {
      DrainState(t, k - 1);
      var (u, out) := Drain(t, k - 1);
      assert u[k] == t[k];
      SliceSnoc(t, k);
    }
  }

  /** Every channel slot of a batch holds a frame. */
  lemma BatchSlotsFull(tpl: Template, n: nat, ts: string)
    ensures forall j :: 1 <= j <= n ==> Batch(tpl, n, ts)[j] != Empty
  {
    forall j | 1 <= j <= n
      ensures Batch(tpl, n, ts)[j] != Empty
    {
      var f := Frame(tpl, j, ts);
      assert f[0] != Empty[0];
    }
  }

  /** End to end: when every worker of a fresh batch wakes once and its
      write goes through, the sink receives every frame of the batch in
      channel order, and the table is complete by the polling loop's
      test. */
  lemma DrainBatch(tpl: Template, n: nat, ts: string)
    ensures Drain(Batch(tpl, n, ts), n).1 == Batch(tpl, n, ts)[1..]
    ensures AllEqualFirst(Drain(Batch(tpl, n, ts), n).0)
    ensures Pending(Drain(Batch(tpl, n, ts), n).0) == {}
  {
    var t := Batch(tpl, n, ts);
    BatchSlotsFull(tpl, n, ts);
    DrainState(t, n);
    assert t[1..n + 1] == t[1..];
    AllEmptyComplete(Drain(t, n).0);
  }

  /** What `scheduled_job` did, in the order it did it. */
  datatype JobEvent = Skipped | Acquired | Flushed | FlushFailed | Generated | Raised(index: nat) | Released

  /** The wake-flag raisings of `for wake_event in wake_events`, in order. */
  function Raisings(n: nat): (r: seq<JobEvent>)
    ensures |r| == n
    ensures forall k :: 0 <= k < n ==> r[k] == Raised(k)
  {
    if n == 0 then [] else Raisings(n - 1) + [Raised(n - 1)]
  }

  /** Whether the guard is held after a tick that found it `locked` and
      whose `flush()` went through (`flushOk`) or raised. Nothing in the
      tick catches an exception, so a `flush()` that raises leaves the
      guard held. */
  function GuardAfter(locked: bool, flushOk: bool): bool
  {
    locked || !flushOk
  }

  /** For ticks whose flushes fare as `flushes` says, starting with the
      guard `locked`: which of them get past the guard. */
  function TickRuns(locked: bool, flushes: seq<bool>): (r: seq<bool>)
    ensures |r| == |flushes|
    ensures |r| > 0 ==> r[0] == !locked
    decreases |flushes|
  {
    if flushes == [] then []
    else [!locked] + TickRuns(GuardAfter(locked, flushes[0]), flushes[1..])
  }

  /** A tick whose `flush()` raises leaves the guard held for good: every
      later tick is skipped. A held guard skips every tick, and with a free
      guard and no failing flush every tick runs. */
  lemma {:induction false} StuckGuard(locked: bool, flushes: seq<bool>)
    decreases |flushes|
    ensures forall j, k :: 0 <= j < k < |flushes| && !flushes[j] ==> !TickRuns(locked, flushes)[k]
    ensures locked ==> forall k :: 0 <= k < |flushes| ==> !TickRuns(locked, flushes)[k]
    ensures !locked && (forall k :: 0 <= k < |flushes| ==> flushes[k]) ==>
      forall k :: 0 <= k < |flushes| ==> TickRuns(locked, flushes)[k]
  {
    if flushes != [] {
      var next := GuardAfter(locked, flushes[0]);
      var r, rest := TickRuns(locked, flushes), TickRuns(next, flushes[1..]);
      StuckGuard(next, flushes[1..]);
      assert forall k :: 1 <= k < |flushes| ==> r[k] == rest[k - 1] && flushes[k] == flushes[1..][k - 1];
    }
  }

  class Sender {
    /** `num_threads`, as `on_start_click` read it from the channel control
        before starting the workers; no tick changes it. */
    const numThreads: nat
    /** The header, payload and marker `create_data` hard-codes. */
    const template: Template
    var dataList: seq<string>
    var wakeEvents: seq<bool>
    /** `job_lock` is held. */
    var jobLocked: bool
    /** The frames the serial sink accepted, in order. */
    ghost var sent: seq<string>
    ghost var jobLog: seq<JobEvent>

    /** One wake flag per worker. */
    predicate Valid()
      reads this
    {
      |wakeEvents| == numThreads
    }

    /** The state after `start_scheduled_tasks` created one cleared wake
        flag per worker. */
    constructor (numThreads: nat)
      ensures this.numThreads == numThreads && template == Owb
      ensures dataList == [] && wakeEvents == seq(numThreads, _ => false)
      ensures !jobLocked && sent == [] && jobLog == []
      ensures Valid()
    {
      this.numThreads := numThreads;
      template := Owb;
      dataList := [];
      wakeEvents := seq(numThreads, _ => false);
      jobLocked := false;
      sent := [];
      jobLog := [];
    }

    /** `create_data` (lines 62-73): rebuild the table for the timestamp. */
    method CreateData(ts: string)
      modifies this`dataList
      ensures dataList == Batch(template, numThreads, ts)
    {
      dataList := [];
      dataList := dataList + [Empty];
      for i := 0 to numThreads
        invariant dataList == Batch(template, i, ts)
      {
        var data := template.header + ts + template.payload + ZFill(Hex(i + 1), 2) + template.marker;
        var check := CreateValidate(data);
        data := "$" + data + "*" + check + Terminator;
        dataList := dataList + [data];
      }
    }

    /** One wake-up of worker `id`: clear its own wake flag, then act as
        `WorkerStep` says. */
    method Worker(id: nat, stop: bool, sinkOpen: bool, w: WriteResult) returns (o: Outcome)
      modifies this`dataList, this`wakeEvents, this`sent
      ensures Step(o, dataList) == WorkerStep(old(dataList), id, stop, sinkOpen, w)
      ensures wakeEvents == if 1 <= id <= |old(wakeEvents)| then old(wakeEvents)[id - 1 := false] else old(wakeEvents)
      ensures sent == if o == Sent then old(sent) + [old(dataList)[id]] else old(sent)
      ensures old(Valid()) ==> Valid()
    {
      if 1 <= id <= |wakeEvents| {
        wakeEvents := wakeEvents[id - 1 := false];
      }
      if stop {
        return Stopped;
      }
      if id >= |dataList| {
        return IndexError;
      }
      var data := dataList[id];
      if data == Empty {
        return NoOp;
      }
      if sinkOpen {
        match w {
          case Written =>
            sent := sent + [data];
            dataList := dataList[id := Empty];
            o := Sent;
          case WriteFailed(e) =>
            o := Failed(e);
        }
      } else {
        o := Stopped;
      }
    }

    /** `for wake_event in wake_events: wake_event.set()`. */
    method RaiseAll()
      modifies this`wakeEvents, this`jobLog
      ensures wakeEvents == seq(|old(wakeEvents)|, _ => true)
      ensures jobLog == old(jobLog) + Raisings(|wakeEvents|)
      ensures old(Valid()) ==> Valid()
    {
      for k := 0 to |wakeEvents|
        invariant |wakeEvents| == |old(wakeEvents)|
        invariant forall j :: 0 <= j < k ==> wakeEvents[j]
        invariant jobLog == old(jobLog) + Raisings(k)
      {
        wakeEvents := wakeEvents[k := true];
        jobLog := jobLog + [Raised(k)];
      }
    }

    /** `scheduled_job` (lines 113-125). A tick while the guard is held is
        skipped and changes nothing but the log. Otherwise the tick takes
        the guard and flushes the port. When `flush()` raises (`flushOk`
        false) the exception leaves the tick with the guard still held and
        the table and wake flags untouched. Otherwise the tick rebuilds the
        table, raises every wake flag in order, and releases the guard. */
    method ScheduledJob(ts: string, flushOk: bool) returns (ran: bool)
      modifies this`dataList, this`wakeEvents, this`jobLocked, this`jobLog
      ensures ran == !old(jobLocked)
      ensures jobLocked == GuardAfter(old(jobLocked), flushOk)
      ensures !ran ==> dataList == old(dataList) && wakeEvents == old(wakeEvents)
      ensures !ran ==> jobLog == old(jobLog) + [Skipped]
      ensures ran && !flushOk ==> dataList == old(dataList) && wakeEvents == old(wakeEvents)
      ensures ran && !flushOk ==> jobLog == old(jobLog) + [Acquired, FlushFailed]
      ensures ran && flushOk ==> dataList == Batch(template, numThreads, ts)
      ensures ran && flushOk ==> wakeEvents == seq(|old(wakeEvents)|, _ => true)
      ensures ran && flushOk ==> jobLog == old(jobLog) + [Acquired, Flushed, Generated] + Raisings(|wakeEvents|) + [Released]
      ensures old(Valid()) ==> Valid() && (ran && flushOk ==> wakeEvents == seq(numThreads, _ => true))
    {
      if jobLocked {
        jobLog := jobLog + [Skipped];
        return false;
      }
      ran := true;
      jobLocked := true;
      if !flushOk {
        jobLog := jobLog + [Acquired, FlushFailed];
        return;
      }
      ghost var log0 := jobLog;
      jobLog := jobLog + [Acquired, Flushed];
      CreateData(ts);
      jobLog := jobLog + [Generated];
      assert jobLog == log0 + [Acquired, Flushed, Generated];
      ghost var log1 := jobLog;
      RaiseAll();
      assert jobLog == log1 + Raisings(|wakeEvents|);
      jobLocked := false;
      jobLog := jobLog + [Released];
    }
  }
}
