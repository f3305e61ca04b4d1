/** The slot table the senders share (`data_list`) and what one wake-up of
    one worker can do to it.

    Slot 0 holds the sentinel "0"; slot i holds the frame channel i still
    has to send, or "0" once it has been sent. A wake-up of worker i either
    leaves the table as it is or, after a successful write, puts "0" back
    into slot i. Both scripts share these notions; the order in which they
    test their guards differs and lives with each script. */
module Slots {
  import opened Frames

  /** Why a write to the serial sink failed. */
  datatype WriteError = SerialTimeout | OtherError

  /** What the serial sink did with one write. */
  datatype WriteResult = Written | WriteFailed(error: WriteError)

  /** How one wake-up of a worker ended. `IndexError` is the uncaught
      exception `data_list[thread_id]` raises when the table is shorter
      than the worker's id. */
  datatype Outcome = Stopped | NoOp | Sent | Failed(error: WriteError) | IndexError

  /** The outcome of a wake-up together with the table it leaves. */
  datatype Step = Step(outcome: Outcome, table: seq<string>)

  /** The worker thread ends after this outcome (by `return`, `break`, a
      loop-head test that finds the stop flag set, or an uncaught
      exception); after any other it waits for the next wake-up. */
  predicate Exits(o: Outcome)
  {
    o.Stopped? || o.IndexError?
  }

  /** The slots still holding a frame to send. */
  function Pending(t: seq<string>): set<nat>
  {
    set k: nat | k < |t| && t[k] != Empty
  }

  /** The completion test of the polling loop: every entry equals entry 0. */
  predicate AllEqualFirst(t: seq<string>)
  {
    forall k :: 0 <= k < |t| ==> t[k] == t[0]
  }

  /** Emptying a pending slot removes exactly that slot from the pending ones. */
  lemma ClearPending(t: seq<string>, id: nat)
    requires id < |t| && t[id] != Empty
    ensures Pending(t[id := Empty]) == Pending(t) - {id}
  {
    var u := t[id := Empty];
    forall k: nat | k < |t|
      ensures k in Pending(u) <==> k in Pending(t) - {id}
    {
      if k == id {
        assert u[k] == Empty;
      } else {
        assert u[k] == t[k];
      }
    }
  }

  /** A table whose every slot is empty is complete. */
  lemma AllEmptyComplete(t: seq<string>)
    requires forall k :: 0 <= k < |t| ==> t[k] == Empty
    ensures AllEqualFirst(t) && Pending(t) == {}
  {
    forall k: nat | k in Pending(t)
      ensures false
    {
    }
  }

  /** With the sentinel in slot 0, "every entry equals entry 0" means
      "no slot is pending": the poll stops exactly when every frame is out. */
  lemma QuiescentIffNothingPending(t: seq<string>)
    requires |t| > 0 && t[0] == Empty
    ensures AllEqualFirst(t) <==> Pending(t) == {}
  {
    if !AllEqualFirst(t) {
      var k :| 0 <= k < |t| && t[k] != t[0];
      assert k in Pending(t);
    }
    if Pending(t) != {} {
      var k :| k in Pending(t);
      assert t[k] != t[0];
    }
  }

  /** A table whose slot 0 is the sentinel and whose other slots all hold
      frames (text starting with '$') has every slot but 0 pending. */
  lemma PendingOfFrames(t: seq<string>)
    requires |t| > 0 && t[0] == Empty
    requires forall k :: 1 <= k < |t| ==> |t[k]| > 0 && t[k][0] == '$'
    ensures forall k: nat :: k in Pending(t) <==> 1 <= k < |t|
    ensures |t| > 1 ==> !AllEqualFirst(t)
  {
    forall k: nat | 1 <= k < |t|
      ensures k in Pending(t)
    {
      assert t[k][0] != Empty[0];
    }
    if |t| > 1 {
      assert t[1] != t[0] by { assert t[1][0] != Empty[0]; }
    }
  }

  /** A freshly built batch with at least one channel is not yet complete:
      every slot 1..n is pending. */
  lemma FreshBatchPending(tpl: Template, n: nat, ts: string)
    ensures forall k: nat :: k in Pending(Batch(tpl, n, ts)) <==> 1 <= k <= n
    ensures n >= 1 ==> !AllEqualFirst(Batch(tpl, n, ts))
  {
    var t := Batch(tpl, n, ts);
    forall k | 1 <= k < |t|
      ensures |t[k]| > 0 && t[k][0] == '$'
    {
      var f := Frame(tpl, k, ts);
      assert t[k] == f;
    }
    PendingOfFrames(t);
  }
}
