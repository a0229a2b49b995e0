/** The repeated-failure guard and its place in executeToolCall (runtime/service.go). */
module FailureGuard {
  /** How one keyed call ended. Calls without a key leave no outcome. */
  datatype Outcome = Outcome(key: string, failed: bool)

  /** A tool call: its failure key and how real execution would end. */
  datatype ToolCall = ToolCall(key: string, fails: bool)

  /** How many of the latest outcomes are failures of one and the same key. */
  function TrailingRun(h: seq<Outcome>): nat {
    var n := |h| - 1;
    if h == [] || !h[n].failed then 0
    else if n > 0 && h[n - 1] == h[n] then 1 + TrailingRun(h[..n])
    else 1
  }

  /** The latest `n` outcomes are failures of the latest key. */
  predicate IsRun(h: seq<Outcome>, n: nat) {
    n <= |h| && forall i | |h| - n <= i < |h| :: h[i] == Outcome(h[|h| - 1].key, true)
  }

  /** The trailing run is the longest one. */
  lemma {:induction false} TrailingRunLongest(h: seq<Outcome>, n: nat)
    ensures IsRun(h, n) <==> n <= TrailingRun(h)
  {
    if h != [] && n > 0 {
      var m := |h| - 1;
      TrailingRunLongest(h[..m], n - 1);
      assert IsRun(h, n) && n > 1 ==> h[m - 1] == Outcome(h[m].key, true) == h[m];
      if h[m].failed && m > 0 && h[m - 1] == h[m] {
        assert IsRun(h[..m], n - 1) ==> IsRun(h, n) by {
          assert forall i | 0 <= i < m :: h[..m][i] == h[i];
        }
        if IsRun(h, n) {
          forall i | m - (n - 1) <= i < m ensures h[..m][i] == Outcome(h[..m][m - 1].key, true) {
            assert h[i] == h[..m][i];
          }
        }
      }
    }
  }

  class ToolFailureGuard {
    var lastKey: string
    var failures: nat

    constructor ()
      ensures lastKey == "" && failures == 0
    {
      lastKey, failures := "", 0;
    }

    /** The guard has seen exactly these outcomes. */
    predicate Tracks(h: seq<Outcome>)
      reads this
    {
      && failures == TrailingRun(h)
      && lastKey == (if failures == 0 then "" else h[|h| - 1].key)
      && forall o | o in h :: o.key != ""
    }

    method ShouldBlock(key: string, ghost h: seq<Outcome>) returns (block: bool)
      requires Tracks(h)
      ensures block <==> Repeats(h, key)
    {
      RepeatsExactly(h, key);
      if key == "" { return false; }
      return lastKey == key && failures >= 2;
    }

    method Record(key: string, failed: bool, ghost h: seq<Outcome>)
      requires Tracks(h)
      modifies this
      ensures Tracks(Recorded(h, key, failed))
    {
      if key == "" { return; }
      assert (h + [Outcome(key, failed)])[..|h|] == h;
      if !failed {
        lastKey, failures := "", 0;
        return;
      }
      if lastKey == key {
        failures := failures + 1;
        return;
      }
      lastKey, failures := key, 1;
    }

    /** The guarded part of `executeToolCall`; `executed` says whether the tool ran. A
        blocked call counts as a failure. */
    method ExecuteToolCall(call: ToolCall, ghost h: seq<Outcome>) returns (failed: bool, executed: bool)
      requires Tracks(h)
      modifies this
      ensures executed <==> !Repeats(h, call.key)
      ensures failed <==> FailsNow(h, call)
      ensures Tracks(Recorded(h, call.key, failed))
    {
      var blocked := ShouldBlock(call.key, h);
      executed := !blocked;
      failed := blocked || call.fails;
      Record(call.key, failed, h);
    }
  }

  /** The two latest keyed outcomes were both failures of this command. */
  predicate Repeats(h: seq<Outcome>, key: string) {
    key != "" && |h| >= 2 && h[|h| - 1] == h[|h| - 2] == Outcome(key, true)
  }

  function Recorded(h: seq<Outcome>, key: string, failed: bool): seq<Outcome> {
    if key == "" then h else h + [Outcome(key, failed)]
  }

  predicate FailsNow(h: seq<Outcome>, call: ToolCall) {
    Repeats(h, call.key) || call.fails
  }

  lemma RepeatsExactly(h: seq<Outcome>, key: string)
    ensures Repeats(h, key) <==> key != "" && TrailingRun(h) >= 2 && h[|h| - 1].key == key
  {
    if |h| >= 2 && h[|h| - 2] == h[|h| - 1] && h[|h| - 1].failed {
      var m := h[..|h| - 1];
      assert m[|m| - 1] == h[|h| - 2];
      assert TrailingRun(m) >= 1;
    }
  }

  // ----- Whole runs -----

  function History(h: seq<Outcome>, calls: seq<ToolCall>): seq<Outcome> {
    if calls == [] then h else
      var before := History(h, calls[..|calls| - 1]);
      Recorded(before, calls[|calls| - 1].key, FailsNow(before, calls[|calls| - 1]))
  }

  /** The call at `i` is really executed: the two latest keyed outcomes before it were not
      both failures of its command. */
  predicate Runs(h: seq<Outcome>, calls: seq<ToolCall>, i: nat)
    requires i < |calls|
  {
    !Repeats(History(h, calls[..i]), calls[i].key)
  }

  lemma RunsMeans(h: seq<Outcome>, calls: seq<ToolCall>, i: nat)
    requires i < |calls|
    ensures Runs(h, calls, i) <==> !Repeats(History(h, calls[..i]), calls[i].key)
  {
  }

  lemma HistoryNext(h: seq<Outcome>, calls: seq<ToolCall>, i: nat)
    requires i < |calls|
    ensures var before := History(h, calls[..i]);
      History(h, calls[..i + 1]) == Recorded(before, calls[i].key, FailsNow(before, calls[i]))
  {
    assert calls[..i + 1][..i] == calls[..i];
  }

  /** The tool loop of one run, reduced to its calls: `ran` lists those really executed. */
  method ExecuteAll(guard: ToolFailureGuard, calls: seq<ToolCall>, ghost h: seq<Outcome>) returns (ran: seq<nat>)
    requires guard.Tracks(h)
    modifies guard
    ensures guard.Tracks(History(h, calls))
    ensures forall i: nat :: i in ran <==> i < |calls| && Runs(h, calls, i)
  {
    ran := [];
    assert calls[..0] == [] && calls[..|calls|] == calls;
    assert History(h, calls[..0]) == h;
    hide History, TrailingRun, Repeats, Recorded, FailsNow, Runs;
    for i := 0 to |calls|
      invariant guard.Tracks(History(h, calls[..i]))
      invariant forall j: nat :: j in ran <==> j < i && Runs(h, calls, j)
    {
      var failed, executed := guard.ExecuteToolCall(calls[i], History(h, calls[..i]));
      HistoryNext(h, calls, i);
      RunsMeans(h, calls, i);
      if executed { ran := ran + [i]; }
    }
  }

  /** Once blocked, a command stays blocked until another keyed command intervenes. */
  lemma {:induction false} BlockedUntilOther(h: seq<Outcome>, key: string, calls: seq<ToolCall>)
    requires Repeats(h, key) && forall c | c in calls :: c.key == key || c.key == ""
    ensures Repeats(History(h, calls), key)
  {
    if calls != [] {
      BlockedUntilOther(h, key, calls[..|calls| - 1]);
    }
  }

  /** So in any run, however long, the failures of one command that were really executed
      in a row are at most two. */
  lemma {:induction false} AtMostTwoInARow(h: seq<Outcome>, key: string, calls: seq<ToolCall>)
    requires key != "" && forall c | c in calls :: c.key == key && c.fails
    ensures forall i | 2 <= i < |calls| :: Repeats(History(h, calls[..i]), key)
  {
    forall i | 2 <= i < |calls| ensures Repeats(History(h, calls[..i]), key) {
      FailingHistory(h, key, calls[..i]);
    }
  }

  lemma {:induction false} FailingHistory(h: seq<Outcome>, key: string, calls: seq<ToolCall>)
    requires key != "" && forall c | c in calls :: c.key == key && c.fails
    ensures History(h, calls) == h + seq(|calls|, i => Outcome(key, true))
  {
    if calls == [] {
      assert h + [] == h;
    } else {
      FailingHistory(h, key, calls[..|calls| - 1]);
    }
  }
}
