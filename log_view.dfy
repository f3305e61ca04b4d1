/** The message list behind the log pane of the windowed sender
    (`SerialFrame.log_messages`, appended to by `log_message`).

    Every message is appended with its time stamp. Once the list holds more
    than 100000 messages, the older half, rounded down, is dropped. So the
    list is always the most recent stretch of everything ever logged, in
    order, and it never grows past the cap. */
module LogView {

  /** The length beyond which the older half is dropped. */
  const MaxMessages := 100000

  function Min(a: int, b: int): int
  {
    if a <= b then a else b
  }

  /** a is the tail end of b. */
  predicate IsSuffix(a: seq<string>, b: seq<string>)
  {
    |a| <= |b| && a == b[|b| - |a|..]
  }

  /** The list after one `log_message` (lines 210-214): append, then drop
      the first `len // 2` entries if the list has grown past the cap. */
  function AfterAppend(log: seq<string>, entry: string): (r: seq<string>)
    ensures IsSuffix(r, log + [entry])
    ensures |r| >= 1 && r[|r| - 1] == entry
    ensures |log| + 1 <= MaxMessages ==> r == log + [entry]
    ensures |log| + 1 > MaxMessages ==> |r| == |log| + 1 - (|log| + 1) / 2
    ensures |log| <= MaxMessages ==> |r| <= MaxMessages
    ensures |r| >= Min(|log| + 1, MaxMessages / 2 + 1)
  {
    var grown := log + [entry];
    if |grown| > MaxMessages then grown[|grown| / 2..] else grown
  }

  /** The list after logging each of `entries` in turn. */
  function AppendAll(log: seq<string>, entries: seq<string>): seq<string>
  {
    if entries == [] then log
    else AfterAppend(AppendAll(log, entries[..|entries| - 1]), entries[|entries| - 1])
  }

  lemma SuffixTrans(a: seq<string>, b: seq<string>, c: seq<string>)
    requires IsSuffix(a, b) && IsSuffix(b, c)
    ensures IsSuffix(a, c)
  {
    assert c[|c| - |b|..][|b| - |a|..] == c[|c| - |a|..];
  }

  lemma SuffixExtend(a: seq<string>, b: seq<string>, x: string)
    requires IsSuffix(a, b)
    ensures IsSuffix(a + [x], b + [x])
  {
    assert (b + [x])[|b| + 1 - (|a| + 1)..] == b[|b| - |a|..] + [x];
  }

  /** However many messages are logged, the list is the most recent
      stretch of everything logged, in order, ending with the newest. */
  lemma {:induction false} AppendAllIsRecent(log: seq<string>, entries: seq<string>)
    ensures IsSuffix(AppendAll(log, entries), log + entries)
  {
    if entries == [] {
      assert log + entries == log;
    } else {
      var init, last := entries[..|entries| - 1], entries[|entries| - 1];
      AppendAllIsRecent(log, init);
      var prev := AppendAll(log, init);
      assert log + entries == (log + init) + [last] by {
        assert entries == init + [last];
      }
      SuffixExtend(prev, log + init, last);
      SuffixTrans(AfterAppend(prev, last), prev + [last], log + entries);
    }
  }

  /** However many messages are logged, the list keeps at least the newest
      50001 of them (all of them, if fewer were logged), and it stays within
      the cap if it started within it. */
  lemma {:induction false} AppendAllBounds(log: seq<string>, entries: seq<string>)
    ensures |AppendAll(log, entries)| >= Min(|log| + |entries|, MaxMessages / 2 + 1)
    ensures |log| <= MaxMessages ==> |AppendAll(log, entries)| <= MaxMessages
  {
    if entries != [] {
      AppendAllBounds(log, entries[..|entries| - 1]);
    }
  }

  /** The part of the windowed sender's main frame that holds the log. */
  class SerialFrame {
    var logMessages: seq<string>

    constructor ()
      ensures logMessages == []
    {
      logMessages := [];
    }

    /** `log_message(message)` at the time `stamp`, formatted as
        `%Y-%m-%d %H:%M:%S`. */
    method LogMessage(stamp: string, message: string)
      modifies this
      ensures logMessages == AfterAppend(old(logMessages), stamp + " - " + message + "\n")
    {
      var timestamped := stamp + " - " + message + "\n";
      logMessages := logMessages + [timestamped];
      if |logMessages| > MaxMessages {
        logMessages := logMessages[|logMessages| / 2..];
      }
    }
  }
}
