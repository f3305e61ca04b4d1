/** The sending core of `send_owb_M.py`.

    The command-line script keeps the same slot table `data_list` as the
    windowed one, but has a fixed channel count of 100 and one wake flag
    shared by every worker. Its workers test their guards in another order
    and keep looping when the port is closed. Its `scheduled_job` has no
    guard. Instead it polls the table until every entry equals entry 0,
    giving up after three one-second sleeps. The tables the workers leave
    between two checks are an input of the poll (`snapshots(k)` is the
    table the k-th check sees), since the workers run on their own
    threads. */
module CliSender {
  import opened FrameChecksum
  import opened Frames
  import opened FrameText
  import opened Slots
  import UiSender

  /** `num_threads`. */
  const NumThreads := 100

  /** One wake-up of worker `id` (`worker`, lines 71-92), from the wait to
      the next loop-head test: read slot `id`; an empty slot goes back to
      the loop head, which ends the thread when the stop flag is set; then
      check the stop flag, then write if the port is open. A closed port is
      not a reason to exit. */
  function WorkerStep(table: seq<string>, id: nat, stop: bool, sinkOpen: bool, w: WriteResult): (r: Step)
    ensures |r.table| == |table|
    ensures forall k :: 0 <= k < |table| && k != id ==> r.table[k] == table[k]
    ensures id >= |table| ==> r == Step(IndexError, table)
    ensures id < |table| && table[id] == Empty ==> r == Step(if stop then Stopped else NoOp, table)
    ensures id < |table| && stop ==> r == Step(Stopped, table)
    ensures stop ==> Exits(r.outcome)
    ensures !sinkOpen ==> r.table == table
    ensures !sinkOpen && !stop ==> !Exits(r.outcome) || id >= |table|
    ensures r.outcome == Sent <==> !stop && id < |table| && table[id] != Empty && sinkOpen && w == Written
    ensures r.outcome == Sent ==> r.table == table[id := Empty]
    ensures r.outcome != Sent ==> r.table == table
    ensures r.outcome.Failed? <==> !stop && id < |table| && table[id] != Empty && sinkOpen && w.WriteFailed?
    ensures r.outcome.Failed? ==> w == WriteFailed(r.outcome.error)
  {
    if id >= |table| then Step(IndexError, table)
    else if table[id] == Empty then Step(if stop then Stopped else NoOp, table)
    else if stop then Step(Stopped, table)
    else if !sinkOpen then Step(NoOp, table)
    else match w
      case Written => Step(Sent, table[id := Empty])
      case WriteFailed(e) => Step(Failed(e), table)
  }

  /** The two scripts' workers always leave the same table, and both end
      once the stop flag is set. Their outcomes differ only when the stop
      flag is set or the port is closed. */
  lemma {:induction false} VariantsAgree(table: seq<string>, id: nat, stop: bool, sinkOpen: bool, w: WriteResult)
    ensures WorkerStep(table, id, stop, sinkOpen, w).table == UiSender.WorkerStep(table, id, stop, sinkOpen, w).table
    ensures !stop && sinkOpen ==> WorkerStep(table, id, stop, sinkOpen, w) == UiSender.WorkerStep(table, id, stop, sinkOpen, w)
    ensures stop ==> Exits(WorkerStep(table, id, stop, sinkOpen, w).outcome) && Exits(UiSender.WorkerStep(table, id, stop, sinkOpen, w).outcome)
  {
    var c, u := WorkerStep(table, id, stop, sinkOpen, w), UiSender.WorkerStep(table, id, stop, sinkOpen, w);
    if c.outcome == Sent {
      assert u.outcome == Sent;
    } else {
      assert u.outcome != Sent;
    }
  }

  /** The counter value at which the poll stops when it looks from check
      `k` on: the first check that finds the table complete, or check 3. */
  function PollExit(snapshots: nat -> seq<string>, k: nat): (r: nat)
    requires k <= 3
    ensures k <= r <= 3
    ensures AllEqualFirst(snapshots(r)) || r == 3
    decreases 3 - k
  {
    if AllEqualFirst(snapshots(k)) || k == 3 then k else PollExit(snapshots, k + 1)
  }

  /** No check before the exit found the table complete. */
  lemma {:induction false} PollExitFirst(snapshots: nat -> seq<string>, k: nat)
    requires k <= 3
    ensures forall j :: k <= j < PollExit(snapshots, k) ==> !AllEqualFirst(snapshots(j))
    decreases 3 - k
  {
    if !(AllEqualFirst(snapshots(k)) || k == 3) {
      PollExitFirst(snapshots, k + 1);
    }
  }

  /** The polling loop of `scheduled_job` (lines 102-116). It returns the
      counter `i` at the exit and the number of one-second sleeps taken. */
  method PollUntilDone(snapshots: nat -> seq<string>) returns (i: nat, sleeps: nat)
    ensures i == PollExit(snapshots, 0)
    ensures i <= 3 && sleeps == i
    ensures AllEqualFirst(snapshots(i)) || i == 3
    ensures forall k :: 0 <= k < i ==> !AllEqualFirst(snapshots(k))
    ensures AllEqualFirst(snapshots(0)) ==> i == 0 && sleeps == 0
  {
    var allDone := true;
    i, sleeps := 0, 0;
    while allDone
      invariant i <= 3 && sleeps == i
      invariant forall k :: 0 <= k < i ==> !AllEqualFirst(snapshots(k))
      invariant PollExit(snapshots, i) == PollExit(snapshots, 0)
      decreases 3 - i
    {
      if AllEqualFirst(snapshots(i)) || i == 3 {
        allDone := false;
        break;
      } else {
        i := i + 1;
      }
      sleeps := sleeps + 1;
    }
  }

  /** A table the workers can leave behind from `batch`: the same length,
      and every slot either untouched or emptied by its worker's send. */
  predicate DrainedFrom(t: seq<string>, batch: seq<string>)
  {
    |t| == |batch| && forall k :: 0 <= k < |t| ==> t[k] == batch[k] || t[k] == Empty
  }

  /** What the poll's exit tells about the table: when the batch starts
      with the sentinel, the exit check's table is complete exactly when no
      frame is pending, an exit before check 3 means every frame went out,
      and every earlier check still had a frame pending. */
  lemma {:induction false} PollOutcome(snapshots: nat -> seq<string>, batch: seq<string>)
    requires |batch| > 0 && batch[0] == Empty
    requires forall k :: 0 <= k <= 3 ==> DrainedFrom(snapshots(k), batch)
    ensures var i := PollExit(snapshots, 0);
      (AllEqualFirst(snapshots(i)) <==> Pending(snapshots(i)) == {}) &&
      (i < 3 ==> Pending(snapshots(i)) == {}) &&
      (forall k :: 0 <= k < i ==> Pending(snapshots(k)) != {})
  {
    var i := PollExit(snapshots, 0);
    PollExitFirst(snapshots, 0);
    forall k | 0 <= k <= 3
      ensures AllEqualFirst(snapshots(k)) <==> Pending(snapshots(k)) == {}
    {
      assert DrainedFrom(snapshots(k), batch);
      QuiescentIffNothingPending(snapshots(k));
    }
  }

  class Sender {
    /** The header, payload and marker `create_data` hard-codes. */
    const template: Template
    var dataList: seq<string>
    /** The one `wake_event` all workers wait on. */
    var wakeEvent: bool
    /** The frames the serial sink accepted, in order, as `Worker` records
        them. A tick does not add to it: the sends made while it polls are
        seen only through the tables the poll reads. */
    ghost var sent: seq<string>
    /** How often the port's output buffer was reset. */
    ghost var outputResets: nat

    constructor ()
      ensures template == Owb
      ensures dataList == [] && !wakeEvent && sent == [] && outputResets == 0
    {
      template := Owb;
      dataList := [];
      wakeEvent := false;
      sent := [];
      outputResets := 0;
    }

    /** `create_data` (lines 48-60): rebuild the table for the timestamp. */
    method CreateData(ts: string)
      modifies this`dataList
      ensures dataList == Batch(template, NumThreads, ts)
    {
      dataList := [];
      dataList := dataList + [Empty];
      for i := 0 to NumThreads
        invariant dataList == Batch(template, i, ts)
      {
        var data := template.header + ts + template.payload + ZFill(Hex(i + 1), 2) + template.marker;
        var check := CreateValidate(data);
        data := "$" + data + "*" + check + Terminator;
        dataList := dataList + [data];
      }
    }

    /** One pass of worker `id` through its loop, up to the next loop-head
        test, as `WorkerStep` says. The shared wake flag stays raised. */
    method Worker(id: nat, stop: bool, sinkOpen: bool, w: WriteResult) returns (o: Outcome)
      modifies this`dataList, this`sent
      ensures Step(o, dataList) == WorkerStep(old(dataList), id, stop, sinkOpen, w)
      ensures sent == if o == Sent then old(sent) + [old(dataList)[id]] else old(sent)
    {
      if id >= |dataList| {
        return IndexError;
      }
      var data := dataList[id];
      if data == Empty {
        // `continue`: the loop-head test reads the stop flag
        return if stop then Stopped else NoOp;
      }
      if stop {
        return Stopped;
      }
      o := NoOp;
      if sinkOpen {
        match w {
          case Written =>
            sent := sent + [data];
            dataList := dataList[id := Empty];
            o := Sent;
          case WriteFailed(e) =>
            o := Failed(e);
        }
      }
    }

    /** `scheduled_job` (lines 97-116): rebuild the table, raise the wake
        flag, poll, then clear the flag and reset the port's output buffer.
        `snapshots(k)` is the table the k-th check of the poll sees, as the
        workers left it: the fresh batch with some frames sent. `i` is the
        poll's counter at the exit, and the table is the one the exit check
        saw. An exit before the third sleep means every frame went out. */
    method ScheduledJob(ts: string, snapshots: nat -> seq<string>) returns (i: nat)
      requires forall k :: 0 <= k <= 3 ==> DrainedFrom(snapshots(k), Batch(template, NumThreads, ts))
      modifies this`dataList, this`wakeEvent, this`outputResets
      ensures i == PollExit(snapshots, 0)
      ensures dataList == snapshots(i)
      ensures DrainedFrom(dataList, Batch(template, NumThreads, ts))
      ensures AllEqualFirst(dataList) <==> Pending(dataList) == {}
      ensures i < 3 ==> Pending(dataList) == {}
      ensures forall k :: 0 <= k < i ==> Pending(snapshots(k)) != {}
      ensures !wakeEvent
      ensures outputResets == old(outputResets) + 1
    {
      CreateData(ts);
      wakeEvent := true;
      var sleeps;
      i, sleeps := PollUntilDone(snapshots);
      wakeEvent := false;
      outputResets := outputResets + 1;
      dataList := snapshots(i);
      PollOutcome(snapshots, Batch(template, NumThreads, ts));
    }
  }
}
