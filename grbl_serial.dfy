/** The host side of the serial link to the controller (`GRBLController`):
    connecting, disconnecting, sending one command, and the reader loop that
    turns each line read from the port into status, position and log events. */
module GrblSerial {
  import opened Text
  import opened Options

  /** One callback invocation: `on_status_change(status, detail)`,
      `on_position_update(pos)` or `on_log(text)`. */
  datatype Event =
    | StatusChange(status: string, detail: string)
    | PositionUpdate(pos: string)
    | Log(text: string)

  /** The `serial.Serial` object the controller holds in `ser`. */
  datatype Port = Port(device: string, baudrate: int, isOpen: bool)

  /** How opening the port goes in `connect`: the `serial.Serial(...)` call
      fails, or it succeeds and the later `flushInput` fails, or all is well. */
  datatype OpenOutcome = Opened | OpenFailed(error: string) | FlushFailed(error: string)

  /** How one `ser.write` goes: it succeeds, raises `SerialException`, or raises
      any other exception. */
  datatype WriteOutcome = Written | WriteSerialError(error: string) | WriteOtherError(error: string)

  /** One pass of the reader loop: `readline().decode('utf-8')` yields a line, or
      raises `SerialException`, `UnicodeDecodeError`, or another exception. */
  datatype ReadOutcome =
    | Line(raw: string)
    | ReadSerialError(error: string)
    | DecodeError(error: string)
    | ReadOtherError(error: string)

  /** The position events of the `|`-fields of a status report: one per field
      that starts with `WPos:`, carrying the field without that prefix. */
  function WPosEvents(parts: seq<string>): seq<Event>
  {
    if parts == [] then [] else WPosField(parts[0]) + WPosEvents(parts[1..])
  }

  /** What one field contributes. */
  function WPosField(p: string): seq<Event>
  {
    if StartsWith(p, "WPos:") then [PositionUpdate(p[5..])] else []
  }

  /** There are at most as many position events as fields, and all of them are
      position events. */
  lemma {:induction false} WPosEventsPositions(parts: seq<string>)
    ensures |WPosEvents(parts)| <= |parts|
    ensures forall k :: 0 <= k < |WPosEvents(parts)| ==> WPosEvents(parts)[k].PositionUpdate?
  {
    if parts != [] {
      WPosEventsPositions(parts[1..]);
      var here, rest := WPosField(parts[0]), WPosEvents(parts[1..]);
      assert forall k :: 0 <= k < |rest| ==> rest[k] == (here + rest)[|here| + k];
    }
  }

  /** A report has no position event exactly when none of its fields starts with `WPos:`. */
  lemma {:induction false} WPosEventsEmpty(parts: seq<string>)
    ensures WPosEvents(parts) == [] <==> forall k :: 0 <= k < |parts| ==> !StartsWith(parts[k], "WPos:")
  {
    if parts != [] {
      WPosEventsEmpty(parts[1..]);
      assert forall k :: 1 <= k < |parts| ==> parts[k] == parts[1..][k - 1];
    }
  }

  /** Every position event carries a field of the report with its `WPos:` prefix removed. */
  lemma {:induction false} WPosEventsFromFields(parts: seq<string>)
    ensures forall k :: 0 <= k < |WPosEvents(parts)| ==>
              WPosEvents(parts)[k].PositionUpdate? && "WPos:" + WPosEvents(parts)[k].pos in parts
  {
    if parts != [] {
      WPosEventsFromFields(parts[1..]);
      var here: seq<Event>, rest: seq<Event> := WPosField(parts[0]), WPosEvents(parts[1..]);
      assert StartsWith(parts[0], "WPos:") ==> "WPos:" + parts[0][5..] == parts[0];
      forall k | 0 <= k < |here + rest|
        ensures (here + rest)[k].PositionUpdate? && "WPos:" + (here + rest)[k].pos in parts
      {
        if k >= |here| {
          assert (here + rest)[k] == rest[k - |here|];
          assert rest[k - |here|].PositionUpdate? && "WPos:" + rest[k - |here|].pos in parts[1..];
        }
      }
    }
  }

  /** Position events keep field order: those of `a + b` are those of `a`, then those of `b`. */
  lemma {:induction false} WPosEventsAppend(a: seq<string>, b: seq<string>)
    ensures WPosEvents(a + b) == WPosEvents(a) + WPosEvents(b)
  {
    if a != [] {
      assert (a + b)[0] == a[0];
      assert (a + b)[1..] == a[1..] + b;
      WPosEventsAppend(a[1..], b);
      var here := WPosField(a[0]);
      assert here + (WPosEvents(a[1..]) + WPosEvents(b)) == (here + WPosEvents(a[1..])) + WPosEvents(b);
    } else {
      assert a + b == b;
    }
  }

  /** One field contributes exactly one event when it starts with `WPos:`, none otherwise. */
  lemma WPosEventsSingle(p: string)
    ensures WPosEvents([p]) == if StartsWith(p, "WPos:") then [PositionUpdate(p[5..])] else []
  {
    assert [p][1..] == [];
  }

  /** A line framed by `<` and `>`, which the reader treats as a status report. */
  predicate IsStatusReport(line: string)
  {
    2 <= |line| && line[0] == '<' && line[|line| - 1] == '>'
  }

  /** Being framed is `line.startswith('<') and line.endswith('>')`: one character
      cannot be both, so a report has at least two. */
  lemma IsStatusReportFraming(line: string)
    ensures IsStatusReport(line) <==> StartsWith(line, "<") && EndsWith(line, ">")
  {
    if StartsWith(line, "<") && EndsWith(line, ">") {
      assert line[0] == line[..1][0] == '<';
      assert line[|line| - 1] == line[|line| - 1..][0] == '>';
    }
    if IsStatusReport(line) {
      assert line[..1] == "<" && line[|line| - 1..] == ">";
    }
  }

  /** The status text of a report: what lies between the brackets, before the first `|`. */
  function StatusTag(line: string): string
    requires |line| >= 2
  {
    var inner := line[1..|line| - 1];
    var bar := FirstIndex(inner, '|');
    if bar == -1 then inner else inner[..bar]
  }

  /** The events of a status report: its status, then its position events. */
  function ReportEvents(line: string): seq<Event>
    requires |line| >= 2
  {
    var parts := Split(line[1..|line| - 1], '|');
    [StatusChange(parts[0], line)] + WPosEvents(parts)
  }

  /** A report's first event is its status, the text before the first `|`
      paired with the whole line; every later one is a position event. */
  lemma ReportEventsShape(line: string)
    requires |line| >= 2
    ensures |ReportEvents(line)| >= 1 && ReportEvents(line)[0] == StatusChange(StatusTag(line), line)
    ensures forall k :: 1 <= k < |ReportEvents(line)| ==> ReportEvents(line)[k].PositionUpdate?
  {
    var parts := Split(line[1..|line| - 1], '|');
    FirstPiece(line[1..|line| - 1], '|');
    WPosEventsPositions(parts);
    var wpos := WPosEvents(parts);
    assert forall k :: 1 <= k < |wpos| + 1 ==> ([StatusChange(parts[0], line)] + wpos)[k] == wpos[k - 1];
  }

  /** The events the reader loop emits for one decoded line (the body of the
      `if line:` block): nothing for a blank line; otherwise the log event, then,
      for a status report, its status and position events. */
  function DispatchLine(raw: string): seq<Event>
  {
    var line := Strip(raw, IsPySpace);
    if line == [] then []
    else [Log("GRBL: " + line)] + (if IsStatusReport(line) then ReportEvents(line) else [])
  }

  /** A line gives no event exactly when it is blank once stripped. */
  lemma DispatchBlank(raw: string)
    ensures DispatchLine(raw) == [] <==> AllSpace(raw, IsPySpace)
  {
    StripShape(raw, IsPySpace);
  }

  /** The log event of the stripped line comes first; a status event can only
      come second, and no other event is a log event. */
  lemma DispatchOrder(raw: string)
    ensures var evs := DispatchLine(raw);
            evs != [] ==> evs[0] == Log("GRBL: " + Strip(raw, IsPySpace))
    ensures var evs := DispatchLine(raw);
            forall k :: 0 <= k < |evs| && evs[k].StatusChange? ==> k == 1
    ensures var evs := DispatchLine(raw);
            forall k :: 0 <= k < |evs| && evs[k].Log? ==> k == 0
  {
    var line := Strip(raw, IsPySpace);
    if line != [] && IsStatusReport(line) {
      ReportEventsShape(line);
      var report := ReportEvents(line);
      assert forall k :: 1 <= k < |report| + 1 ==> ([Log("GRBL: " + line)] + report)[k] == report[k - 1];
    }
  }

  /** A framed line gives exactly one status event, the report's status, and
      then the position events of its fields in field order; an unframed line
      gives its log event alone. */
  lemma DispatchFraming(raw: string)
    ensures var line := Strip(raw, IsPySpace);
            var evs := DispatchLine(raw);
            IsStatusReport(line) ==>
              |evs| >= 2 && evs[1] == StatusChange(StatusTag(line), line) &&
              evs[2..] == WPosEvents(Split(line[1..|line| - 1], '|'))
    ensures var line := Strip(raw, IsPySpace);
            line != [] && !IsStatusReport(line) ==> DispatchLine(raw) == [Log("GRBL: " + line)]
  {
    var line := Strip(raw, IsPySpace);
    if IsStatusReport(line) {
      ReportEventsShape(line);
      var evs := DispatchLine(raw);
      assert evs[2..] == ReportEvents(line)[1..];
    }
  }

  /** A well-formed report `<S|WPos:P>` gives the log line, status `S` and position `P`. */
  lemma StatusReportWithPosition(state: string, pos: string)
    requires '|' !in state && '|' !in pos
    requires !StartsWith(state, "WPos:")
    ensures var line := "<" + state + "|WPos:" + pos + ">";
            DispatchLine(line) == [Log("GRBL: " + line), StatusChange(state, line), PositionUpdate(pos)]
  {
    var line := "<" + state + "|WPos:" + pos + ">";
    assert line[0] == '<' && line[|line| - 1] == '>';
    StripUnchanged(line, IsPySpace);
    ReportWithPosition(state, pos);
  }

  /** The report events of `<S|WPos:P>`. */
  lemma ReportWithPosition(state: string, pos: string)
    requires '|' !in state && '|' !in pos
    requires !StartsWith(state, "WPos:")
    ensures var line := "<" + state + "|WPos:" + pos + ">";
            |line| >= 2 && ReportEvents(line) == [StatusChange(state, line), PositionUpdate(pos)]
  {
    var line := "<" + state + "|WPos:" + pos + ">";
    var inner := line[1..|line| - 1];
    var field := "WPos:" + pos;
    assert inner == state + "|" + field;
    assert '|' !in field by {
      assert forall i :: 0 <= i < |field| ==> field[i] == if i < 5 then "WPos:"[i] else pos[i - 5];
    }
    assert inner == Join([state, field], '|');
    SplitJoin([state, field], '|');
    assert [state, field] == [state] + [field];
    WPosEventsAppend([state], [field]);
    WPosEventsSingle(state);
    WPosEventsSingle(field);
    assert field[..5] == "WPos:" && field[5..] == pos;
  }

  /** A report without a `WPos:` field still gives its status event, and no position event. */
  lemma StatusReportWithoutPosition(raw: string)
    requires var line := Strip(raw, IsPySpace);
             IsStatusReport(line) &&
             var parts := Split(line[1..|line| - 1], '|');
             forall k :: 0 <= k < |parts| ==> !StartsWith(parts[k], "WPos:")
    ensures var line := Strip(raw, IsPySpace);
            DispatchLine(raw) == [Log("GRBL: " + line), StatusChange(StatusTag(line), line)]
  {
    var line := Strip(raw, IsPySpace);
    var evs := DispatchLine(raw);
    DispatchOrder(raw);
    DispatchFraming(raw);
    WPosEventsEmpty(Split(line[1..|line| - 1], '|'));
    assert evs == [evs[0], evs[1]] + evs[2..];
  }

  /** The events of one pass of the reader loop (its `try` body or the handler
      that catches what the body raised). */
  function ReadEvents(r: ReadOutcome): seq<Event>
  {
    match r
    case Line(raw) => DispatchLine(raw)
    case ReadSerialError(e) =>
      [Log("Serial error in reader thread: " + e), StatusChange("Error", "Serial error: " + e)]
    case DecodeError(e) => [Log("Unicode decode error in reader thread: " + e)]
    case ReadOtherError(e) => [Log("Unexpected error in reader thread: " + e)]
  }

  predicate NoSerialError(rs: seq<ReadOutcome>)
  {
    forall k :: 0 <= k < |rs| ==> !rs[k].ReadSerialError?
  }

  /** How many reads a running reader loop processes: all of them, or up to and
      including the first `SerialException`, which ends the loop. Decode errors
      and other exceptions do not end it. */
  function ReaderConsumed(rs: seq<ReadOutcome>): (n: nat)
    ensures n <= |rs|
  {
    if rs == [] then 0
    else if rs[0].ReadSerialError? then 1
    else 1 + ReaderConsumed(rs[1..])
  }

  /** Without a `SerialException` the reader processes every read. */
  lemma {:induction false} ReaderConsumedAll(rs: seq<ReadOutcome>)
    requires NoSerialError(rs)
    ensures ReaderConsumed(rs) == |rs|
  {
    if rs != [] {
      assert NoSerialError(rs[1..]) by {
        assert forall k :: 0 <= k < |rs| - 1 ==> rs[1..][k] == rs[k + 1];
      }
      ReaderConsumedAll(rs[1..]);
    }
  }

  /** The events of a running reader loop over `rs`, in read order. */
  function ReaderEvents(rs: seq<ReadOutcome>): seq<Event>
  {
    if rs == [] then []
    else ReadEvents(rs[0]) + (if rs[0].ReadSerialError? then [] else ReaderEvents(rs[1..]))
  }

  /** The reader delivers events in the order the lines were read: with no
      `SerialException` in `a`, the events of `a + b` are those of `a`, then those of `b`. */
  lemma {:induction false} ReaderEventsAppend(a: seq<ReadOutcome>, b: seq<ReadOutcome>)
    requires NoSerialError(a)
    ensures ReaderEvents(a + b) == ReaderEvents(a) + ReaderEvents(b)
  {
    if a != [] {
      assert (a + b)[0] == a[0];
      assert (a + b)[1..] == a[1..] + b;
      assert NoSerialError(a[1..]) by {
        assert forall k :: 0 <= k < |a| - 1 ==> a[1..][k] == a[k + 1];
      }
      ReaderEventsAppend(a[1..], b);
    } else {
      assert a + b == b;
    }
  }

  /** Nothing is read after a `SerialException`. */
  lemma ReaderStopsAtSerialError(a: seq<ReadOutcome>, e: string, b: seq<ReadOutcome>)
    requires NoSerialError(a)
    ensures ReaderEvents(a + [ReadSerialError(e)] + b) == ReaderEvents(a) + ReadEvents(ReadSerialError(e))
  {
    assert a + [ReadSerialError(e)] + b == a + ([ReadSerialError(e)] + b);
    ReaderEventsAppend(a, [ReadSerialError(e)] + b);
  }

  /** What `send_command` returns, given whether the link was connected and how
      the write went. */
  function SendResponse(connected: bool, outcome: WriteOutcome): (r: string)
  {
    if !connected then "Not connected"
    else match outcome
      case Written => "Sent"
      case WriteSerialError(e) => "Serial error: " + e
      case WriteOtherError(e) => "Communication error: " + e
  }

  /** No answer of `send_command` carries the controller's "ok": a completed
      write answers "Sent", a disconnected link "Not connected", and an error
      answer contains "ok" only when the exception's own text does. */
  lemma SendResponseOk(connected: bool, outcome: WriteOutcome)
    ensures !connected || outcome.Written? ==> !Contains(SendResponse(connected, outcome), "ok")
    ensures connected && !outcome.Written? ==>
              (Contains(SendResponse(connected, outcome), "ok") <==> Contains(outcome.error, "ok"))
  {
    assert "Not connected"[1] == 'o' && "Not connected"[5] == 'o';
    NoOk("Not connected");
    NoOk("Sent");
    NoOk("Serial error: ");
    NoOk("Communication error: ");
    if connected && !outcome.Written? {
      if outcome.WriteSerialError? {
        OkAfterPrefix("Serial error: ", outcome.error);
      } else {
        OkAfterPrefix("Communication error: ", outcome.error);
      }
    }
  }

  predicate PortOpen(ser: Option<Port>)
  {
    ser.Some? && ser.value.isOpen
  }

  /** The state of a `GRBLController` as a value: its port, its two flags, what
      it wrote to the port and the callbacks it made. */
  datatype Link = Link(ser: Option<Port>, isConnected: bool, stopThread: bool,
                       written: seq<string>, events: seq<Event>)

  /** A connected link always holds an open port. */
  predicate LinkValid(l: Link)
  {
    l.isConnected ==> PortOpen(l.ser)
  }

  /** `disconnect()` on a link: the reader is asked to stop, and an open port is
      closed with one "Disconnected" status. */
  function DisconnectStep(l: Link): Link
  {
    var stopped := l.(stopThread := true);
    if PortOpen(l.ser) then
      stopped.(ser := Some(l.ser.value.(isOpen := false)), isConnected := false,
               events := l.events + [StatusChange("Disconnected", "Disconnected from port")])
    else stopped
  }

  /** Disconnecting always sets `stop_thread` and leaves no open port behind. If
      the port was open, it is closed, the link is no longer connected and
      exactly one "Disconnected" status is reported; otherwise nothing else
      changes and no event is emitted. */
  lemma DisconnectStepShape(l: Link)
    ensures var a := DisconnectStep(l);
            a.stopThread && a.written == l.written && !PortOpen(a.ser)
    ensures var a := DisconnectStep(l);
            PortOpen(l.ser) ==>
              !a.isConnected && a.ser.Some? && a.ser.value == l.ser.value.(isOpen := false) &&
              a.events == l.events + [StatusChange("Disconnected", "Disconnected from port")]
    ensures !PortOpen(l.ser) ==> DisconnectStep(l) == l.(stopThread := true)
    ensures LinkValid(l) ==> LinkValid(DisconnectStep(l))
  {
    if PortOpen(l.ser) {
      assert DisconnectStep(l).ser == Some(l.ser.value.(isOpen := false));
    }
  }

  /** Disconnecting twice is disconnecting once. */
  lemma DisconnectIdempotent(l: Link)
    ensures DisconnectStep(DisconnectStep(l)) == DisconnectStep(l)
  {
    DisconnectStepShape(l);
  }

  /** `send_command` on a link: its answer, and the link afterwards. */
  datatype SendResult = SendResult(after: Link, response: string)

  /** `send_command(command)` as a value. */
  function SendStep(l: Link, command: string, outcome: WriteOutcome): SendResult
  {
    if !l.isConnected then
      SendResult(l.(events := l.events + [Log("[Not connected] Cannot send: " + command)]), "Not connected")
    else match outcome
      case Written =>
        SendResult(l.(written := l.written + [command + "\n"], events := l.events + [Log("Sent: " + command)]),
                   "Sent")
      case WriteSerialError(e) =>
        var logged := l.(events := l.events + [Log("Serial error while sending '" + command + "': " + e),
                                               StatusChange("Error", "Serial error: " + e)]);
        SendResult(DisconnectStep(logged), "Serial error: " + e)
      case WriteOtherError(e) =>
        SendResult(l.(events := l.events + [Log("Unexpected error while sending '" + command + "': " + e),
                                            StatusChange("Error", "Communication error: " + e)]),
                   "Communication error: " + e)
  }

  /** What sending does to a link. Not connected: nothing is written, only a
      "Cannot send" log line is added. Connected, the port receives
      `command + "\n"` exactly when the write completes. A `SerialException`
      disconnects (so the reader is asked to stop and the link is no longer
      connected); any other failure leaves the link connected. Events are only
      ever appended. */
  lemma SendStepShape(l: Link, command: string, outcome: WriteOutcome)
    ensures var s := SendStep(l, command, outcome);
            s.response == SendResponse(l.isConnected, outcome)
    ensures var s := SendStep(l, command, outcome);
            s.after.written ==
              if l.isConnected && outcome.Written? then l.written + [command + "\n"] else l.written
    ensures var s := SendStep(l, command, outcome);
            LinkValid(l) ==>
              LinkValid(s.after) && s.after.isConnected == (l.isConnected && !outcome.WriteSerialError?)
    ensures var s := SendStep(l, command, outcome);
            s.after.stopThread == (l.stopThread || (l.isConnected && outcome.WriteSerialError?))
    ensures var s := SendStep(l, command, outcome);
            |s.after.events| > |l.events| && s.after.events[..|l.events|] == l.events
    ensures !l.isConnected ==>
              SendStep(l, command, outcome).after ==
                l.(events := l.events + [Log("[Not connected] Cannot send: " + command)])
  {
    if l.isConnected && outcome.WriteSerialError? {
      var e := outcome.error;
      var logged := l.(events := l.events + [Log("Serial error while sending '" + command + "': " + e),
                                             StatusChange("Error", "Serial error: " + e)]);
      assert logged.events[..|l.events|] == l.events;
      DisconnectStepShape(logged);
      var a := DisconnectStep(logged);
      assert a.events[..|l.events|] == logged.events[..|l.events|];
    }
  }

  /** `GRBLController`. `written` is what was handed to `ser.write`, one entry per
      call; `events` is the sequence of callback invocations. */
  class GrblController {
    var ser: Option<Port>
    var isConnected: bool
    var stopThread: bool
    var written: seq<string>
    var events: seq<Event>

    /** The controller's fields as a value. */
    function State(): Link
      reads this
    {
      Link(ser, isConnected, stopThread, written, events)
    }

    /** A connected controller always holds an open port. */
    ghost predicate Valid()
      reads this
    {
      LinkValid(State())
    }

    constructor ()
      ensures Valid()
      ensures ser == None && !isConnected && !stopThread && written == [] && events == []
    {
      ser := None;
      isConnected := false;
      stopThread := false;
      written := [];
      events := [];
    }

    /** `connect(port, baudrate)`: on success the link is connected with a fresh
      reader to start, a "Connected" status is emitted and the answer is true;
      otherwise the link is not connected, an "Error" status is emitted and the
      answer is false. */
    method Connect(port: string, baudrate: int, opening: OpenOutcome) returns (ok: bool)
      modifies this
      ensures Valid()
      ensures ok == opening.Opened? && isConnected == ok
      ensures written == old(written)
      ensures opening.Opened? ==>
                ser == Some(Port(port, baudrate, true)) && !stopThread &&
                events == old(events) + [StatusChange("Connected", "Connected to " + port)]
      ensures opening.OpenFailed? ==>
                ser == old(ser) && stopThread == old(stopThread) &&
                events == old(events) + [StatusChange("Error", "Failed to connect: " + opening.error)]
      ensures opening.FlushFailed? ==>
                ser == Some(Port(port, baudrate, true)) && stopThread == old(stopThread) &&
                events == old(events) + [StatusChange("Error", "Failed to connect: " + opening.error)]
    {
      match opening
      case Opened =>
        ser := Some(Port(port, baudrate, true));
        isConnected := true;
        events := events + [StatusChange("Connected", "Connected to " + port)];
        stopThread := false;
        ok := true;
      case OpenFailed(e) =>
        events := events + [StatusChange("Error", "Failed to connect: " + e)];
        isConnected := false;
        ok := false;
      case FlushFailed(e) =>
        ser := Some(Port(port, baudrate, true));
        events := events + [StatusChange("Error", "Failed to connect: " + e)];
        isConnected := false;
        ok := false;
    }

    /** `disconnect()`, as `DisconnectStep` says. */
    method Disconnect()
      modifies this
      ensures State() == DisconnectStep(old(State()))
      ensures old(Valid()) ==> Valid()
    {
      DisconnectStepShape(State());
      stopThread := true;
      if PortOpen(ser) {
        ser := Some(ser.value.(isOpen := false));
        isConnected := false;
        events := events + [StatusChange("Disconnected", "Disconnected from port")];
      }
    }

    /** `send_command(command)`, as `SendStep` says. */
    method SendCommand(command: string, outcome: WriteOutcome) returns (r: string)
      modifies this
      ensures State() == SendStep(old(State()), command, outcome).after
      ensures r == SendStep(old(State()), command, outcome).response
      ensures old(Valid()) ==> Valid()
    {
      SendStepShape(State(), command, outcome);
      if !isConnected {
        events := events + [Log("[Not connected] Cannot send: " + command)];
        return "Not connected";
      }
      match outcome
      case Written =>
        written := written + [command + "\n"];
        events := events + [Log("Sent: " + command)];
        r := "Sent";
      case WriteSerialError(e) =>
        events := events + [Log("Serial error while sending '" + command + "': " + e),
                            StatusChange("Error", "Serial error: " + e)];
        Disconnect();
        r := "Serial error: " + e;
      case WriteOtherError(e) =>
        events := events + [Log("Unexpected error while sending '" + command + "': " + e),
                            StatusChange("Error", "Communication error: " + e)];
        r := "Communication error: " + e;
    }

    /** `_read_from_port`, run over the outcomes of successive reads. It runs only
      while the link is connected and no stop was asked; then it processes the
      reads as `ReaderConsumed` and `ReaderEvents` say. On a `SerialException` it
      calls `disconnect()` from the reader thread itself: `stop_thread` is set, and
      then `thread.join()` on the current thread raises `RuntimeError`, which ends
      the loop before the port is closed, so the link stays connected. */
    method ReadFromPort(rs: seq<ReadOutcome>) returns (consumed: nat)
      requires Valid()
      modifies this
      ensures Valid()
      ensures ser == old(ser) && isConnected == old(isConnected) && written == old(written)
      ensures old(stopThread) || !old(isConnected) ==>
                consumed == 0 && events == old(events) && stopThread == old(stopThread)
      ensures !old(stopThread) && old(isConnected) ==>
                consumed == ReaderConsumed(rs) &&
                events == old(events) + ReaderEvents(rs) &&
                stopThread == !NoSerialError(rs)
    {
      if stopThread || !isConnected {
        return 0;
      }
      var i := 0;
      var stop := false;
      var emitted: seq<Event> := [];
      while !stop && i < |rs|
        invariant 0 <= i <= |rs|
        invariant emitted == ReaderEvents(rs[..i])
        invariant ser == old(ser) && isConnected && written == old(written) && events == old(events)
        invariant !stop ==> NoSerialError(rs[..i])
        invariant stop ==> 0 < i && NoSerialError(rs[..i][..i - 1]) && rs[..i][i - 1].ReadSerialError?
      {
        ReaderStep(rs, i);
        // The branches of the loop body and its exception handlers are those of ReadEvents.
        emitted := emitted + ReadEvents(rs[i]);
        if rs[i].ReadSerialError? {
          // disconnect() from this thread: stop_thread is set, then joining the
          // current thread raises RuntimeError, which ends the reader.
          stop := true;
        }
        i := i + 1;
      }
      if stop {
        assert rs[..i][..i - 1] == rs[..i - 1];
        ReaderCut(rs, i);
        ConsumedAt(rs, i);
        assert !NoSerialError(rs) by {
          assert rs[i - 1] == rs[..i][i - 1];
        }
      } else {
        assert rs[..i] == rs;
        ReaderConsumedAll(rs);
      }
      events := events + emitted;
      stopThread := stop;
      consumed := i;
    }
  }

  /** One step of the reader: a prefix without `SerialException` extended by the next read. */
  lemma ReaderStep(rs: seq<ReadOutcome>, i: nat)
    requires i < |rs| && NoSerialError(rs[..i])
    ensures ReaderEvents(rs[..i + 1]) == ReaderEvents(rs[..i]) + ReadEvents(rs[i])
    ensures rs[i].ReadSerialError? ==> NoSerialError(rs[..i + 1][..i]) && rs[..i + 1][i].ReadSerialError?
    ensures !rs[i].ReadSerialError? ==> NoSerialError(rs[..i + 1])
  {
    assert rs[..i + 1][..i] == rs[..i];
    var p := rs[..i + 1];
    forall k | 0 <= k < i + 1 && !rs[i].ReadSerialError?
      ensures !p[k].ReadSerialError?
    {
      if k < i {
        assert p[k] == rs[..i][k];
      }
    }
    assert rs[..i + 1] == rs[..i] + [rs[i]];
    ReaderEventsAppend(rs[..i], [rs[i]]);
    assert ReaderEvents([rs[i]]) == ReadEvents(rs[i]) + (if rs[i].ReadSerialError? then [] else ReaderEvents([]));
  }

  /** A reader that stopped at the `SerialException` at `i - 1` emitted all it ever emits. */
  lemma {:induction false} ReaderCut(rs: seq<ReadOutcome>, i: nat)
    requires 0 < i <= |rs| && NoSerialError(rs[..i - 1]) && rs[i - 1].ReadSerialError?
    ensures ReaderEvents(rs) == ReaderEvents(rs[..i])
  {
    var p := rs[..i];
    assert p[0] == rs[0];
    if i > 1 {
      var t := rs[1..];
      assert !rs[0].ReadSerialError? by {
        assert rs[0] == rs[..i - 1][0];
      }
      var u := t[..i - 2];
      assert NoSerialError(u) by {
        forall k | 0 <= k < i - 2
          ensures !u[k].ReadSerialError?
        {
          assert u[k] == rs[..i - 1][k + 1];
        }
      }
      ReaderCut(t, i - 1);
      assert p[1..] == t[..i - 1];
    }
  }

  /** A reader that stops at the `SerialException` at `i - 1` consumed `i` reads. */
  lemma {:induction false} ConsumedAt(rs: seq<ReadOutcome>, i: nat)
    requires 0 < i <= |rs| && NoSerialError(rs[..i - 1]) && rs[i - 1].ReadSerialError?
    ensures ReaderConsumed(rs) == i
  {
    if i > 1 {
      assert rs[1..][..i - 2] == rs[1..i - 1];
      var t := rs[1..][..i - 2];
      assert NoSerialError(t) by {
        forall k | 0 <= k < i - 2
          ensures !t[k].ReadSerialError?
        {
          assert t[k] == rs[..i - 1][k + 1];
        }
      }
      assert rs[..i - 1][0] == rs[0];
      ConsumedAt(rs[1..], i - 1);
    }
  }
}
