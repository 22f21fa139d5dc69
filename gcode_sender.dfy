/** The host's G-code streamer (`GcodeSender`): loading a program from a file,
    and the sending loop that hands it to the controller one line at a time,
    under the user's pause, resume and stop requests. */
module GcodeSending {
  import opened Text
  import opened Options
  import opened GrblSerial

  /** A line of the file is kept by `load_file` when, stripped, it is neither
      empty nor a `;` comment. */
  predicate Keeps(line: string)
  {
    var s := Strip(line, IsPySpace);
    s != [] && !StartsWith(s, ";")
  }

  /** The program `load_file` builds from the lines of a file: each kept line,
      stripped, in file order. */
  function FilterProgram(lines: seq<string>): (prog: seq<string>)
    ensures |prog| <= |lines|
  {
    if lines == [] then [] else Kept(lines[0]) + FilterProgram(lines[1..])
  }

  /** Every line of a loaded program is stripped, not empty and not a comment. */
  lemma {:induction false} FilterProgramClean(lines: seq<string>)
    ensures forall k :: 0 <= k < |FilterProgram(lines)| ==> Clean(FilterProgram(lines)[k])
  {
    if lines != [] {
      FilterProgramClean(lines[1..]);
      KeptShape(lines[0]);
      var here, rest := Kept(lines[0]), FilterProgram(lines[1..]);
      forall k | 0 <= k < |here + rest|
        ensures Clean((here + rest)[k])
      {
        if k >= |here| {
          assert (here + rest)[k] == rest[k - |here|];
        }
      }
    }
  }

  /** What one line of the file contributes to the program. */
  function Kept(line: string): seq<string>
  {
    var s := Strip(line, IsPySpace);
    if s != [] && !StartsWith(s, ";") then [s] else []
  }

  /** A line contributes exactly when it is kept, and then one clean line. */
  lemma KeptShape(line: string)
    ensures Kept(line) != [] <==> Keeps(line)
    ensures Kept(line) != [] ==> |Kept(line)| == 1 && Clean(Kept(line)[0])
  {
    StripShape(line, IsPySpace);
  }

  /** A program line: stripped, not empty, not a comment. */
  predicate Clean(s: string)
  {
    s != [] && !StartsWith(s, ";") && !IsPySpace(s[0]) && !IsPySpace(s[|s| - 1])
  }

  /** Loading keeps file order: the program of `a + b` is that of `a`, then that of `b`. */
  lemma {:induction false} FilterProgramAppend(a: seq<string>, b: seq<string>)
    ensures FilterProgram(a + b) == FilterProgram(a) + FilterProgram(b)
  {
    if a == [] {
      assert a + b == b;
    } else {
      assert (a + b)[0] == a[0];
      assert (a + b)[1..] == a[1..] + b;
      FilterProgramAppend(a[1..], b);
      var h, p, q := Kept(a[0]), FilterProgram(a[1..]), FilterProgram(b);
      assert h + (p + q) == (h + p) + q;
    }
  }

  /** One line gives itself stripped when it is kept, and nothing otherwise. */
  lemma FilterProgramSingle(line: string)
    ensures FilterProgram([line]) == Kept(line)
  {
    assert [line][1..] == [];
  }

  /** Every line of a loaded program is itself kept and unchanged by a second load. */
  lemma {:induction false} FilterProgramIdempotent(lines: seq<string>)
    ensures FilterProgram(FilterProgram(lines)) == FilterProgram(lines)
  {
    if lines != [] {
      FilterProgramIdempotent(lines[1..]);
      var here := Kept(lines[0]);
      assert FilterProgram(lines) == here + FilterProgram(lines[1..]);
      FilterProgramAppend(here, FilterProgram(lines[1..]));
      KeptShape(lines[0]);
      if Keeps(lines[0]) {
        StripIdempotent(lines[0], IsPySpace);
        FilterProgramSingle(Strip(lines[0], IsPySpace));
      }
    }
  }

  /** One `on_progress(progress, lines_sent, total_lines)` call. */
  datatype Progress = Progress(linesSent: nat, totalLines: nat)

  /** The `progress` argument: the fraction of the program sent. */
  function Fraction(p: Progress): real
    requires p.totalLines > 0
  {
    p.linesSent as real / p.totalLines as real
  }

  /** `is_running` and `is_paused`. */
  datatype Flags = Flags(running: bool, paused: bool)

  /** A call the user interface makes on the sender while it streams. */
  datatype UiCall = CallPause | CallResume | CallStop

  /** `pause()`, `resume()` or `stop()` on the flags. */
  function Call(f: Flags, c: UiCall): Flags
  {
    match c
    case CallPause => f.(paused := true)
    case CallResume => f.(paused := false)
    case CallStop => f.(running := false)
  }

  /** The flags after a sequence of calls, in order. */
  function ApplyUi(f: Flags, calls: seq<UiCall>): Flags
  {
    if calls == [] then f else Call(ApplyUi(f, calls[..|calls| - 1]), calls[|calls| - 1])
  }

  /** Only a stop clears `running`, and nothing sets it again. */
  lemma {:induction false} ApplyUiRunning(f: Flags, calls: seq<UiCall>)
    ensures ApplyUi(f, calls).running == (f.running && CallStop !in calls)
  {
    if calls != [] {
      var init, last := calls[..|calls| - 1], calls[|calls| - 1];
      ApplyUiRunning(f, init);
      assert calls == init + [last];
      assert CallStop in calls <==> CallStop in init || last == CallStop;
    }
  }

  /** The last pause or resume decides `paused`, and stops alone leave it as it was. */
  lemma {:induction false} ApplyUiPaused(f: Flags, calls: seq<UiCall>)
    ensures calls != [] && calls[|calls| - 1] == CallPause ==> ApplyUi(f, calls).paused
    ensures calls != [] && calls[|calls| - 1] == CallResume ==> !ApplyUi(f, calls).paused
    ensures (forall k :: 0 <= k < |calls| ==> calls[k] == CallStop) ==> ApplyUi(f, calls).paused == f.paused
  {
    if calls != [] {
      var init := calls[..|calls| - 1];
      ApplyUiPaused(f, init);
      if forall k :: 0 <= k < |calls| ==> calls[k] == CallStop {
        assert forall k :: 0 <= k < |init| ==> init[k] == calls[k];
      }
    }
  }

  /** How a run of the sending loop ends: every line was sent; a stop was seen
      before a line; a response without "ok" halted it; or the loop is waiting,
      paused, before a line. */
  datatype Halt = Completed | Stopped | Rejected(response: string) | Waiting

  /** What a run works on: the program, the user calls that land before the
      checks of each line, how the controller's write of each line goes, and
      whether an `on_progress` callback was given. */
  datatype Job = Job(lines: seq<string>, ui: seq<seq<UiCall>>, outcomes: seq<WriteOutcome>, reports: bool)

  predicate Fits(j: Job)
  {
    |j.ui| == |j.lines| && |j.outcomes| == |j.lines|
  }

  /** The outcome of a run: how it ended, the flags and the controller's link
      afterwards, every progress report made, and the index of the first line
      not handed to `send_command`. */
  datatype Run = Run(halt: Halt, flags: Flags, link: Link, progress: seq<Progress>, sent: nat)

  /** The lines whose response was accepted: all handed over, except a rejected last one. */
  function Accepted(r: Run): int
  {
    if r.halt.Rejected? then r.sent - 1 else r.sent
  }

  /** What one pass of the `for` loop of `_send_gcode` leads to: the loop goes
      on to the next line with these flags and this link, reporting `report`,
      or the run ends here, with `sent` lines handed over. */
  datatype Step =
    | Continue(flags: Flags, link: Link, report: seq<Progress>)
    | Halted(halt: Halt, flags: Flags, link: Link, sent: nat)

  /** The pass for line `i`: the user's calls for it land, then the loop waits
      if paused and running, ends if not running, and otherwise sends the line
      and ends unless the answer contains "ok"; an accepted line is reported. */
  function LineStep(j: Job, f: Flags, l: Link, i: nat): (st: Step)
    requires Fits(j) && i < |j.lines|
    ensures st.Continue? ==> st.flags.running && !st.flags.paused &&
                             st.report == if j.reports then [Progress(i + 1, |j.lines|)] else []
    ensures st.Halted? ==> !st.halt.Completed? && (st.halt.Waiting? <==> st.flags.running)
    ensures st.Halted? && st.halt.Waiting? ==> st.flags.paused
    ensures st.Halted? ==> st.sent == if st.halt.Rejected? then i + 1 else i
    ensures st.Halted? && st.halt.Rejected? ==> !Contains(st.halt.response, "ok")
    ensures LinkValid(l) ==> LinkValid(st.link)
    ensures st.Halted? && !st.halt.Rejected? ==> st.link == l
    ensures !(st.Halted? && !st.halt.Rejected?) ==> st.link == SendStep(l, j.lines[i], j.outcomes[i]).after
  {
    var g := ApplyUi(f, j.ui[i]);
    SendStepShape(l, j.lines[i], j.outcomes[i]);
    if g.paused && g.running then Halted(Waiting, g, l, i)
    else if !g.running then Halted(Stopped, g, l, i)
    else
      var s := SendStep(l, j.lines[i], j.outcomes[i]);
      if !Contains(s.response, "ok") then Halted(Rejected(s.response), g.(running := false), s.after, i + 1)
      else Continue(g, s.after, if j.reports then [Progress(i + 1, |j.lines|)] else [])
  }

  /** `_send_gcode` from line `i` on, after the reports `acc`. When every line
      has been passed, `is_running` is cleared. */
  function StreamRun(j: Job, f: Flags, l: Link, acc: seq<Progress>, i: nat): (r: Run)
    requires Fits(j) && i <= |j.lines|
    ensures i <= r.sent <= |j.lines|
    ensures r.halt.Completed? ==> r.sent == |j.lines|
    ensures r.halt.Rejected? ==> r.sent > i
    decreases |j.lines| - i
  {
    if i == |j.lines| then Run(Completed, f.(running := false), l, acc, i)
    else
      match LineStep(j, f, l, i)
      case Halted(halt, g, after, sent) => Run(halt, g, after, acc, sent)
      case Continue(g, after, here) => StreamRun(j, g, after, acc + here, i + 1)
  }

  /** The link after `send_command` was called on each of `lines` in turn, the
      `k`-th write going as `outs[k]` says. */
  function SendAll(l: Link, lines: seq<string>, outs: seq<WriteOutcome>): (r: Link)
    requires |lines| == |outs|
    ensures l.written <= r.written && |r.written| <= |l.written| + |lines|
    decreases |lines|
  {
    if lines == [] then l
    else
      SendStepShape(l, lines[0], outs[0]);
      SendAll(SendStep(l, lines[0], outs[0]).after, lines[1..], outs[1..])
  }

  /** Each line followed by the newline `send_command` adds. */
  function Terminated(lines: seq<string>): (ws: seq<string>)
    ensures |ws| == |lines|
  {
    if lines == [] then [] else [lines[0] + "\n"] + Terminated(lines[1..])
  }

  /** On a connected link whose writes all complete, the port receives every
      line, newline-terminated, in order. */
  lemma {:induction false} SendAllWritten(l: Link, lines: seq<string>, outs: seq<WriteOutcome>)
    requires |lines| == |outs| && l.isConnected
    requires forall k :: 0 <= k < |outs| ==> outs[k] == Written
    ensures SendAll(l, lines, outs).written == l.written + Terminated(lines)
    decreases |lines|
  {
    if lines != [] {
      var a := SendStep(l, lines[0], outs[0]).after;
      assert a.written == l.written + [lines[0] + "\n"] && a.isConnected;
      SendAllWritten(a, lines[1..], outs[1..]);
      assert l.written + Terminated(lines) == l.written + [lines[0] + "\n"] + Terminated(lines[1..]);
    }
  }

  /** A run hands the lines from `i` up to `sent` to `send_command`, in program
      order and each once, and no other line: its link is exactly what those
      calls make of the starting link. */
  lemma {:induction false} RunSendsInOrder(j: Job, f: Flags, l: Link, acc: seq<Progress>, i: nat)
    requires Fits(j) && i <= |j.lines|
    ensures var r := StreamRun(j, f, l, acc, i);
            r.link == SendAll(l, j.lines[i..r.sent], j.outcomes[i..r.sent])
    decreases |j.lines| - i
  {
    if i < |j.lines| {
      var st := LineStep(j, f, l, i);
      var r := StreamRun(j, f, l, acc, i);
      if st.Continue? {
        RunSendsInOrder(j, st.flags, st.link, acc + st.report, i + 1);
        var ls, os := j.lines[i..r.sent], j.outcomes[i..r.sent];
        assert ls[0] == j.lines[i] && ls[1..] == j.lines[i + 1..r.sent];
        assert os[0] == j.outcomes[i] && os[1..] == j.outcomes[i + 1..r.sent];
      } else if st.halt.Rejected? {
        var ls, os := j.lines[i..r.sent], j.outcomes[i..r.sent];
        assert ls[0] == j.lines[i] && ls[1..] == [] && os[0] == j.outcomes[i] && os[1..] == [];
      }
    }
  }

  /** Pauses and stops that the user does not make. */
  predicate Unhindered(j: Job, i: nat)
    requires Fits(j)
  {
    forall k :: i <= k < |j.lines| ==> CallStop !in j.ui[k] && CallPause !in j.ui[k]
  }

  /** Every write from line `i` on fails with an exception whose text has "ok". */
  predicate OkAnswers(j: Job, i: nat)
    requires Fits(j)
  {
    forall k :: i <= k < |j.lines| ==> j.outcomes[k].WriteOtherError? && Contains(j.outcomes[k].error, "ok")
  }

  /** Calls without a pause never set `paused`. */
  lemma {:induction false} ApplyUiNoPause(f: Flags, calls: seq<UiCall>)
    requires !f.paused && CallPause !in calls
    ensures !ApplyUi(f, calls).paused
  {
    if calls != [] {
      var init := calls[..|calls| - 1];
      assert forall c :: c in init ==> c in calls;
      ApplyUiNoPause(f, init);
    }
  }

  /** A running, unpaused sender on a connected link whose every answer carries
      "ok", and that the user neither pauses nor stops, sends the whole program
      and completes. */
  lemma {:induction false} AllOkCompletes(j: Job, f: Flags, l: Link, acc: seq<Progress>, i: nat)
    requires Fits(j) && i <= |j.lines|
    requires f.running && !f.paused && l.isConnected
    requires Unhindered(j, i) && OkAnswers(j, i)
    ensures var r := StreamRun(j, f, l, acc, i);
            r.halt.Completed? && r.sent == |j.lines|
    decreases |j.lines| - i
  {
    if i < |j.lines| {
      var g := ApplyUi(f, j.ui[i]);
      ApplyUiRunning(f, j.ui[i]);
      ApplyUiNoPause(f, j.ui[i]);
      SendResponseOk(true, j.outcomes[i]);
      SendStepShape(l, j.lines[i], j.outcomes[i]);
      var st := LineStep(j, f, l, i);
      assert st.Continue? && st.flags == g;
      assert st.link.isConnected;
      AllOkCompletes(j, st.flags, st.link, acc + st.report, i + 1);
    }
  }

  /** A run that ends waiting leaves the sender running and paused; any other
      end clears `is_running`; a rejected line's answer has no "ok". */
  lemma {:induction false} StreamRunFlags(j: Job, f: Flags, l: Link, acc: seq<Progress>, i: nat)
    requires Fits(j) && i <= |j.lines|
    ensures var r := StreamRun(j, f, l, acc, i);
            (r.halt.Waiting? ==> r.flags.running && r.flags.paused) &&
            (!r.halt.Waiting? ==> !r.flags.running) &&
            (r.halt.Rejected? ==> !Contains(r.halt.response, "ok"))
    decreases |j.lines| - i
  {
    if i < |j.lines| {
      var st := LineStep(j, f, l, i);
      if st.Continue? {
        StreamRunFlags(j, st.flags, st.link, acc + st.report, i + 1);
      }
    }
  }

  /** The link stays well formed: a connected controller always holds an open port. */
  lemma {:induction false} StreamRunKeepsLinkValid(j: Job, f: Flags, l: Link, acc: seq<Progress>, i: nat)
    requires Fits(j) && i <= |j.lines| && LinkValid(l)
    ensures LinkValid(StreamRun(j, f, l, acc, i).link)
    decreases |j.lines| - i
  {
    if i < |j.lines| {
      var st := LineStep(j, f, l, i);
      if st.Continue? {
        StreamRunKeepsLinkValid(j, st.flags, st.link, acc + st.report, i + 1);
      }
    }
  }

  /** Without a progress callback a run reports nothing. */
  lemma {:induction false} StreamRunSilent(j: Job, f: Flags, l: Link, acc: seq<Progress>, i: nat)
    requires Fits(j) && i <= |j.lines| && !j.reports
    ensures StreamRun(j, f, l, acc, i).progress == acc
    decreases |j.lines| - i
  {
    if i < |j.lines| {
      var st := LineStep(j, f, l, i);
      if st.Continue? {
        StreamRunSilent(j, st.flags, st.link, acc + st.report, i + 1);
        assert acc + st.report == acc;
      }
    }
  }

  /** With a progress callback, a run reports each accepted line in order, as
      that line's number over the program's length, and nothing else. */
  lemma {:induction false} StreamRunReports(j: Job, f: Flags, l: Link, acc: seq<Progress>, i: nat)
    requires Fits(j) && i <= |j.lines| && j.reports
    ensures var r := StreamRun(j, f, l, acc, i);
            i <= Accepted(r) && r.progress == acc + Reports(i, Accepted(r) - i, |j.lines|)
    decreases |j.lines| - i
  {
    if i < |j.lines| {
      var st := LineStep(j, f, l, i);
      if st.Continue? {
        var acc' := acc + [Progress(i + 1, |j.lines|)];
        var r := StreamRun(j, st.flags, st.link, acc', i + 1);
        StreamRunReports(j, st.flags, st.link, acc', i + 1);
        var later := Reports(i + 1, Accepted(r) - (i + 1), |j.lines|);
        assert Reports(i, Accepted(r) - i, |j.lines|) == [Progress(i + 1, |j.lines|)] + later;
        assert acc' + later == acc + ([Progress(i + 1, |j.lines|)] + later);
      }
    }
  }

  /** The reports for the `count` lines after line `from`, of a program of `total` lines. */
  function Reports(from: nat, count: nat, total: nat): (ps: seq<Progress>)
    ensures |ps| == count
    decreases count
  {
    if count == 0 then [] else [Progress(from + 1, total)] + Reports(from + 1, count - 1, total)
  }

  /** The `k`-th of those reports is for line `from + k + 1`. */
  lemma {:induction false} ReportsAt(from: nat, count: nat, total: nat, k: nat)
    requires k < count
    ensures Reports(from, count, total)[k] == Progress(from + k + 1, total)
    decreases count
  {
    if k > 0 {
      ReportsAt(from + 1, count - 1, total, k - 1);
    }
  }

  /** A stop requested before line `k` ends the run there at the latest: no
      line from `k` on is sent, and the run does not complete. */
  lemma {:induction false} StopEndsRun(j: Job, f: Flags, l: Link, acc: seq<Progress>, i: nat, k: nat)
    requires Fits(j) && i <= k < |j.lines|
    requires CallStop in j.ui[k]
    ensures var r := StreamRun(j, f, l, acc, i);
            r.sent <= k && !r.halt.Completed?
    decreases |j.lines| - i
  {
    var st := LineStep(j, f, l, i);
    if i == k {
      ApplyUiRunning(f, j.ui[k]);
    } else if st.Continue? {
      StopEndsRun(j, st.flags, st.link, acc + st.report, i + 1, k);
    }
  }

  /** A pause that is the last call before line `k` holds the run there at the
      latest: the loop waits (or, if also stopped, stops) before line `k`. */
  lemma {:induction false} PauseHoldsRun(j: Job, f: Flags, l: Link, acc: seq<Progress>, i: nat, k: nat)
    requires Fits(j) && i <= k < |j.lines|
    requires j.ui[k] != [] && j.ui[k][|j.ui[k]| - 1] == CallPause
    ensures var r := StreamRun(j, f, l, acc, i);
            r.sent <= k && !r.halt.Completed?
    decreases |j.lines| - i
  {
    var st := LineStep(j, f, l, i);
    if i == k {
      ApplyUiPaused(f, j.ui[k]);
    } else if st.Continue? {
      PauseHoldsRun(j, st.flags, st.link, acc + st.report, i + 1, k);
    }
  }

  /** A line counts as accepted only when the controller's answer carried "ok",
      which `send_command` gives only when the link was connected and an
      exception whose own text contains "ok" was raised by the write. */
  lemma {:induction false} AcceptedNeedsOkError(j: Job, f: Flags, l: Link, acc: seq<Progress>, i: nat)
    requires Fits(j) && i <= |j.lines|
    ensures var r := StreamRun(j, f, l, acc, i);
            forall k :: i <= k < Accepted(r) ==>
              !j.outcomes[k].Written? && Contains(j.outcomes[k].error, "ok")
    decreases |j.lines| - i
  {
    if i < |j.lines| {
      var st := LineStep(j, f, l, i);
      SendResponseOk(l.isConnected, j.outcomes[i]);
      if st.Continue? {
        AcceptedNeedsOkError(j, st.flags, st.link, acc + st.report, i + 1);
      }
    }
  }

  /** The loop halts after the first line whenever the controller writes it:
      the answer to a completed write is "Sent", which has no "ok". */
  lemma FirstWriteHalts(j: Job, f: Flags, l: Link, acc: seq<Progress>)
    requires Fits(j) && |j.lines| > 0
    requires l.isConnected && j.outcomes[0] == Written
    requires ApplyUi(f, j.ui[0]).running && !ApplyUi(f, j.ui[0]).paused
    ensures StreamRun(j, f, l, acc, 0) ==
            Run(Rejected("Sent"), ApplyUi(f, j.ui[0]).(running := false),
                l.(written := l.written + [j.lines[0] + "\n"], events := l.events + [Log("Sent: " + j.lines[0])]),
                acc, 1)
  {
    SendResponseOk(true, Written);
  }

  /** Streaming over a disconnected link halts at the first line with "Not connected". */
  lemma NotConnectedHalts(j: Job, f: Flags, l: Link, acc: seq<Progress>)
    requires Fits(j) && |j.lines| > 0
    requires !l.isConnected
    requires ApplyUi(f, j.ui[0]).running && !ApplyUi(f, j.ui[0]).paused
    ensures var r := StreamRun(j, f, l, acc, 0);
            r.halt == Rejected("Not connected") && r.sent == 1 && r.progress == acc &&
            r.link.written == l.written
  {
    SendResponseOk(false, j.outcomes[0]);
  }

  /** A run from the first line with a progress callback, on a connected link
      whose every answer carries "ok", and that the user neither pauses nor
      stops, completes and reports every line in order: the `k`-th report is
      line `k + 1` of the program. */
  lemma CompletedReportsAll(j: Job, f: Flags, l: Link)
    requires Fits(j) && j.reports
    requires f.running && !f.paused && l.isConnected
    requires Unhindered(j, 0) && OkAnswers(j, 0)
    ensures var r := StreamRun(j, f, l, [], 0);
            r.halt.Completed? && |r.progress| == |j.lines| &&
            forall k :: 0 <= k < |j.lines| ==> r.progress[k] == Progress(k + 1, |j.lines|)
  {
    var r := StreamRun(j, f, l, [], 0);
    AllOkCompletes(j, f, l, [], 0);
    StreamRunReports(j, f, l, [], 0);
    assert r.progress == Reports(0, |j.lines|, |j.lines|);
    forall k | 0 <= k < |j.lines|
      ensures r.progress[k] == Progress(k + 1, |j.lines|)
    {
      ReportsAt(0, |j.lines|, |j.lines|, k);
    }
  }

  /** The fraction reported for a line of the program lies in (0, 1], and is 1
      exactly for the last line. */
  lemma FractionRange(sent: nat, total: nat)
    requires 0 < sent <= total
    ensures 0.0 < Fraction(Progress(sent, total)) <= 1.0
    ensures Fraction(Progress(sent, total)) == 1.0 <==> sent == total
  {
    var a, b := sent as real, total as real;
    var q := a / b;
    assert q * b == a;
    if q > 1.0 {
      assert q * b > 1.0 * b;
    }
    if q <= 0.0 {
      NonPositiveProduct(q, b);
    }
    if q == 1.0 {
      assert a == b;
    }
  }

  lemma NonPositiveProduct(q: real, b: real)
    requires q <= 0.0 && b > 0.0
    ensures q * b <= 0.0
  {
  }

  /** `GcodeSender`. `progress` is the sequence of `on_progress` calls;
      `reportsProgress` says whether an `on_progress` callback was given. */
  class GcodeSender {
    const controller: GrblController
    const reportsProgress: bool
    var filepath: Option<string>
    var gcodeLines: seq<string>
    var isRunning: bool
    var isPaused: bool
    var progress: seq<Progress>

    constructor (controller: GrblController, reportsProgress: bool)
      ensures this.controller == controller && this.reportsProgress == reportsProgress
      ensures filepath == None && gcodeLines == [] && !isRunning && !isPaused && progress == []
    {
      this.controller := controller;
      this.reportsProgress := reportsProgress;
      filepath := None;
      gcodeLines := [];
      isRunning := false;
      isPaused := false;
      progress := [];
    }

    /** `load_file(filepath)`, given the lines of the file. */
    method LoadFile(path: string, fileLines: seq<string>)
      modifies this
      ensures filepath == Some(path) && gcodeLines == FilterProgram(fileLines)
      ensures isRunning == old(isRunning) && isPaused == old(isPaused) && progress == old(progress)
    {
      filepath := Some(path);
      gcodeLines := FilterProgram(fileLines);
    }

    /** `start()`: only a loaded program over a connected link starts; then the
      sender is running and not paused and its thread is launched. */
    method Start() returns (launched: bool)
      modifies this
      ensures launched == (gcodeLines != [] && controller.isConnected)
      ensures launched ==> isRunning && !isPaused
      ensures !launched ==> isRunning == old(isRunning) && isPaused == old(isPaused)
      ensures filepath == old(filepath) && gcodeLines == old(gcodeLines) && progress == old(progress)
    {
      if gcodeLines == [] || !controller.isConnected {
        return false;
      }
      isRunning := true;
      isPaused := false;
      launched := true;
    }

    /** `stop()`. */
    method Stop()
      modifies this
      ensures Flags(isRunning, isPaused) == Call(old(Flags(isRunning, isPaused)), CallStop)
      ensures filepath == old(filepath) && gcodeLines == old(gcodeLines) && progress == old(progress)
    {
      isRunning := false;
    }

    /** `pause()`. */
    method Pause()
      modifies this
      ensures Flags(isRunning, isPaused) == Call(old(Flags(isRunning, isPaused)), CallPause)
      ensures filepath == old(filepath) && gcodeLines == old(gcodeLines) && progress == old(progress)
    {
      isPaused := true;
    }

    /** `resume()`. */
    method Resume()
      modifies this
      ensures Flags(isRunning, isPaused) == Call(old(Flags(isRunning, isPaused)), CallResume)
      ensures filepath == old(filepath) && gcodeLines == old(gcodeLines) && progress == old(progress)
    {
      isPaused := false;
    }

    /** The user interface's calls, made one after the other. */
    method ApplyCalls(calls: seq<UiCall>)
      modifies this
      ensures Flags(isRunning, isPaused) == ApplyUi(old(Flags(isRunning, isPaused)), calls)
      ensures filepath == old(filepath) && gcodeLines == old(gcodeLines) && progress == old(progress)
    {
      var j := 0;
      while j < |calls|
        invariant 0 <= j <= |calls|
        invariant Flags(isRunning, isPaused) == ApplyUi(old(Flags(isRunning, isPaused)), calls[..j])
        invariant filepath == old(filepath) && gcodeLines == old(gcodeLines) && progress == old(progress)
      {
        assert calls[..j + 1][..j] == calls[..j];
        match calls[j] {
          case CallPause => Pause();
          case CallResume => Resume();
          case CallStop => Stop();
        }
        j := j + 1;
      }
      assert calls[..j] == calls;
    }

    /** One pass of the `for` loop of `_send_gcode`, for line `i`, as `LineStep` says. */
    method SendLine(j: Job, i: nat) returns (st: Step)
      requires Fits(j) && j.lines == gcodeLines && j.reports == reportsProgress && i < |j.lines|
      modifies this, controller
      ensures filepath == old(filepath) && gcodeLines == old(gcodeLines)
      ensures st == LineStep(j, old(Flags(isRunning, isPaused)), old(controller.State()), i)
      ensures Flags(isRunning, isPaused) == st.flags && controller.State() == st.link
      ensures progress == old(progress) + if st.Continue? then st.report else []
    {
      ApplyCalls(j.ui[i]);
      if isPaused && isRunning {
        // `while self.is_paused and self.is_running: sleep`: no call is left to end the wait.
        return Halted(Waiting, Flags(isRunning, isPaused), controller.State(), i);
      }
      if !isRunning {
        return Halted(Stopped, Flags(isRunning, isPaused), controller.State(), i);
      }
      var response := controller.SendCommand(gcodeLines[i], j.outcomes[i]);
      if !Contains(response, "ok") {
        isRunning := false;
        return Halted(Rejected(response), Flags(isRunning, isPaused), controller.State(), i + 1);
      }
      var here := [];
      if reportsProgress {
        here := [Progress(i + 1, |gcodeLines|)];
        progress := progress + here;
      }
      st := Continue(Flags(isRunning, isPaused), controller.State(), here);
    }

    /** `_send_gcode`, the body of the sending thread, as `StreamRun` says.
      Before each line the user's calls for that line land; a sender left
      paused and running waits there, which ends this model of the run. */
    method SendGcode(ui: seq<seq<UiCall>>, outcomes: seq<WriteOutcome>) returns (halt: Halt)
      requires |ui| == |gcodeLines| && |outcomes| == |gcodeLines|
      modifies this, controller
      ensures var r := StreamRun(Job(old(gcodeLines), ui, outcomes, reportsProgress),
                                 old(Flags(isRunning, isPaused)), old(controller.State()), old(progress), 0);
              halt == r.halt && Flags(isRunning, isPaused) == r.flags &&
              controller.State() == r.link && progress == r.progress
      ensures filepath == old(filepath) && gcodeLines == old(gcodeLines)
    {
      var j := Job(gcodeLines, ui, outcomes, reportsProgress);
      ghost var whole := StreamRun(j, Flags(isRunning, isPaused), controller.State(), progress, 0);
      var i := 0;
      halt := Completed;
      while i < |j.lines|
        invariant 0 <= i <= |j.lines| && j.lines == gcodeLines
        invariant filepath == old(filepath) && gcodeLines == old(gcodeLines)
        invariant whole == StreamRun(j, Flags(isRunning, isPaused), controller.State(), progress, i)
      {
        var st := SendLine(j, i);
        if st.Halted? {
          halt := st.halt;
          if halt.Waiting? {
            return;
          }
          break;
        }
        i := i + 1;
      }
      isRunning := false;
    }
  }
}
