/**
 * The controller session: connection flag, the device total the serial reader
 * maintains, the queue shared by the reader and the GUI consumer, the command
 * history, what has been written to the port, and the displayed state.
 *
 * Each operation is a method of `Session` that changes the fields step by step
 * as the program does, and is proved equal to a step function on a `Snapshot`
 * of those fields; the properties of the operations are lemmas about the step
 * functions.
 *
 * The port itself is reduced to two facts: the lines written to it (`written`,
 * each with its newline) and the error a write raises on it, if any
 * (`writeError`, fixed when the port is opened).
 */
module Controller {
  import opened Wrappers
  import opened Text
  import opened Classifier
  import opened Commands
  import opened DeviceLists
  import opened Consumer
  import opened Recovery

  datatype Snapshot = Snapshot(
    connected: bool,
    writeError: Option<string>,
    total: nat,
    queue: seq<Item>,
    history: seq<string>,
    written: seq<string>,
    panel: Panel)

  /** Both dropdowns show an offered value. */
  predicate Valid(s: Snapshot) {
    PanelConsistent(s.panel)
  }

  /** The result of a send: the new state, whether the command went out, and the
      error popup shown, if any. */
  datatype Sent = Sent(state: Snapshot, ok: bool, popup: Option<string>)

  /** The result of a button or field handler: the new state and the popup shown, if any. */
  datatype Outcome = Outcome(state: Snapshot, popup: Option<string>)

  const NotConnected: string := "Not connected to device"

  // ---------------------------------------------------------------------
  // Step functions
  // ---------------------------------------------------------------------

  function Logged(s: Snapshot, message: string): Snapshot {
    s.(panel := s.panel.(log := s.panel.log + [message]))
  }

  function Wrote(s: Snapshot, line: string): Snapshot {
    s.(written := s.written + [line + "\n"])
  }

  function Startup(): Snapshot {
    Snapshot(false, None, 0, [], [], [], Panel("Disconnected", "0", "Unknown", "0", DeviceLists.Initial, DeviceLists.Initial, []))
  }

  function RebuildLists(s: Snapshot): Snapshot {
    s.(panel := s.panel.(servo := Rebuilt(s.panel.servo, s.total), dac := Rebuilt(s.panel.dac, s.total)))
  }

  /** Writing one command line and recording it. */
  function Send(s: Snapshot, command: string): (r: Sent)
    ensures r.ok <==> s.connected && s.writeError.None?
    ensures r.popup.Some? <==> !s.connected
    ensures r.state.connected == s.connected && r.state.writeError == s.writeError
    ensures r.state.queue == s.queue && r.state.total == s.total
    ensures r.state.panel.servo == s.panel.servo && r.state.panel.dac == s.panel.dac
  {
    if !s.connected then Sent(s, false, Some(NotConnected))
    else match s.writeError
      case Some(e) => Sent(Logged(s, "Send error: " + e), false, None)
      case None =>
        Sent(Logged(Wrote(s, command), "TX: " + command).(history := s.history + [command]), true, None)
  }

  /** The serial reader handling one raw line. */
  function Received(s: Snapshot, raw: string): Snapshot {
    if !s.connected then s
    else
      var c := ReadLine(raw, s.total);
      s.(queue := s.queue + c.items, total := c.total)
  }

  /** The serial reader failing while the session is still connected. */
  function ReadFailed(s: Snapshot, error: string): Snapshot {
    if s.connected then s.(queue := s.queue + [Error("Read error: " + error)]) else s
  }

  /** The consumer draining the whole queue. */
  function Drained(s: Snapshot): Snapshot {
    s.(queue := [], panel := Drain(s.panel, s.total, s.queue))
  }

  /** Sending with timeout recovery: "status", then the command, then the detection
      window over the shared queue, then "reinit" and the command again if the
      timeout warning was popped. */
  function Recover(s: Snapshot, command: string, arrivals: seq<seq<string>>): (r: Sent)
    ensures r.ok <==> s.connected && s.writeError.None?
    ensures r.popup.Some? <==> !s.connected
    ensures r.state.connected == s.connected && r.state.writeError == s.writeError
    ensures r.state.panel.servo == s.panel.servo && r.state.panel.dac == s.panel.dac
  {
    if !s.connected then Sent(s, false, Some(NotConnected))
    else
      var afterStatus := Send(s, "status").state;
      match afterStatus.writeError
      case Some(e) => Sent(Logged(afterStatus, "Send error: " + e), false, None)
      case None =>
        var sent := Logged(Wrote(afterStatus, command), "TX: " + command).(history := afterStatus.history + [command]);
        var w := Poll(sent.queue, sent.total, arrivals);
        var polled := sent.(queue := w.queue, total := w.total);
        if w.detected then
          var reinit := Send(Logged(polled, "Timeout detected - reinitializing and retrying..."), "reinit").state;
          Sent(Logged(Wrote(reinit, command), "TX (retry): " + command), true, None)
        else Sent(polled, true, None)
  }

  /** A send button: range check, then the recovering send, then the note in the log
      once it went out. */
  function Request(s: Snapshot, req: Checked, arrivals: seq<seq<string>>): (o: Outcome)
    ensures req.Rejected? ==> o.state == s && o.popup.Some?
    ensures req.Accepted? ==> (o.popup.Some? <==> !s.connected)
    ensures o.state.connected == s.connected && o.state.writeError == s.writeError
    ensures o.state.panel.servo == s.panel.servo && o.state.panel.dac == s.panel.dac
  {
    match req
    case Rejected(popup) => Outcome(s, Some(popup))
    case Accepted(cmd, note) =>
      var r := Recover(s, cmd, arrivals);
      Outcome(if r.ok then Logged(r.state, note) else r.state, r.popup)
  }

  function Servo(s: Snapshot, angle: Option<int>, mode: Mode, arrivals: seq<seq<string>>): Outcome {
    Request(s, ServoRequest(angle, mode, s.panel.servo.selection), arrivals)
  }

  function Dac(s: Snapshot, percent: Option<int>, mode: Mode, arrivals: seq<seq<string>>): Outcome {
    Request(s, DacRequest(percent, mode, s.panel.dac.selection), arrivals)
  }

  function RawUpdated(s: Snapshot, percent: Option<int>): Snapshot {
    s.(panel := s.panel.(rawText := RawLabel(percent)))
  }

  /** The servo button as written: an unreadable angle field ends the handler with
      nothing shown and nothing changed; a readable one is handled as above. */
  function ServoAsWritten(s: Snapshot, angle: Option<int>, mode: Mode, arrivals: seq<seq<string>>): (o: Outcome)
    ensures angle.None? ==> o == Outcome(s, None)
    ensures angle.Some? ==> o == Servo(s, angle, mode, arrivals)
  {
    match ServoRequestAsWritten(angle, mode, s.panel.servo.selection)
    case None => Outcome(s, None)
    case Some(req) => Request(s, req, arrivals)
  }

  /** The DAC button as written, with the same unguarded read. */
  function DacAsWritten(s: Snapshot, percent: Option<int>, mode: Mode, arrivals: seq<seq<string>>): (o: Outcome)
    ensures percent.None? ==> o == Outcome(s, None)
    ensures percent.Some? ==> o == Dac(s, percent, mode, arrivals)
  {
    match DacRequestAsWritten(percent, mode, s.panel.dac.selection)
    case None => Outcome(s, None)
    case Some(req) => Request(s, req, arrivals)
  }

  /** The raw-value label as written: an unreadable field leaves the label as it was. */
  function RawUpdatedAsWritten(s: Snapshot, percent: Option<int>): (r: Snapshot)
    ensures percent.None? ==> r == s
    ensures percent.Some? ==> r == RawUpdated(s, percent)
  {
    s.(panel := s.panel.(rawText := RawLabelAsWritten(percent, s.panel.rawText)))
  }

  function ManualCountSet(s: Snapshot, text: string): Outcome {
    match ManualCount(text)
    case Fail(popup) => Outcome(s, Some(popup))
    case Ok(n) =>
      var counted := s.(total := n, panel := s.panel.(countText := NatToString(n)));
      Outcome(Logged(RebuildLists(counted), "Manual device count set to: " + NatToString(n)), None)
  }

  function Disconnected(s: Snapshot): (r: Snapshot)
    ensures Valid(r) && !r.connected
    ensures r.total == s.total && r.queue == s.queue && r.written == s.written
  {
    var reset := s.(connected := false, panel := s.panel.(connText := "Disconnected", countText := "0", stateText := "Unknown"));
    Logged(RebuildLists(reset), "Disconnected from serial port")
  }

  /** Opening the port: an empty port name or an open failure changes nothing but the
      log; otherwise the session is connected and "status" is sent at once. */
  function Connected(s: Snapshot, port: string, baud: string, openError: Option<string>, portWriteError: Option<string>): (o: Outcome)
    ensures o.state.connected <==> s.connected || (port != [] && openError.None?)
    ensures o.state.total == s.total && o.state.queue == s.queue
    ensures o.state.panel.servo == s.panel.servo && o.state.panel.dac == s.panel.dac
  {
    if port == [] then Outcome(s, Some("Please select a port"))
    else match openError
      case Some(e) => Outcome(Logged(s, "Connection failed: " + e), Some("Failed to connect: " + e))
      case None =>
        var live := s.(connected := true, writeError := portWriteError, panel := s.panel.(connText := "Connected"));
        var r := Send(Logged(live, "Connected to " + port + " at " + baud + " baud"), "status");
        Outcome(r.state, r.popup)
  }

  // ---------------------------------------------------------------------
  // The session object
  // ---------------------------------------------------------------------

  class Session {
    var connected: bool
    var writeError: Option<string>
    var totalDevices: nat
    var queue: seq<Item>
    var history: seq<string>
    var written: seq<string>
    var panel: Panel

    function Snap(): Snapshot
      reads this
    {
      Snapshot(connected, writeError, totalDevices, queue, history, written, panel)
    }

    constructor()
      ensures Snap() == Startup()
    {
      connected := false;
      writeError := None;
      totalDevices := 0;
      queue := [];
      history := [];
      written := [];
      panel := Panel("Disconnected", "0", "Unknown", "0", DeviceLists.Initial, DeviceLists.Initial, []);
    }

    method LogMessage(message: string)
      modifies this
      ensures Snap() == Logged(old(Snap()), message)
    {
      panel := panel.(log := panel.log + [message]);
    }

    method Connect(port: string, baud: string, openError: Option<string>, portWriteError: Option<string>)
      returns (popup: Option<string>)
      modifies this
      ensures Outcome(Snap(), popup) == Connected(old(Snap()), port, baud, openError, portWriteError)
    {
      if port == [] {
        return Some("Please select a port");
      }
      match openError {
        case Some(e) =>
          LogMessage("Connection failed: " + e);
          return Some("Failed to connect: " + e);
        case None =>
          connected := true;
          writeError := portWriteError;
          panel := panel.(connText := "Connected");
          LogMessage("Connected to " + port + " at " + baud + " baud");
          var _, p := SendCommand("status");
          return p;
      }
    }

    /** One line handled by the serial reader. */
    method ReceiveLine(raw: string)
      modifies this
      ensures Snap() == Received(old(Snap()), raw)
    {
      if connected {
        var c := ReadLine(raw, totalDevices);
        queue := queue + c.items;
        totalDevices := c.total;
      }
    }

    method ReadFailure(error: string)
      modifies this
      ensures Snap() == ReadFailed(old(Snap()), error)
    {
      if connected {
        queue := queue + [Error("Read error: " + error)];
      }
    }

    /** The reader handling a batch of lines, one after another. */
    method ReceiveLines(lines: seq<string>)
      requires connected
      modifies this
      ensures var d := Deliver(old(totalDevices), lines);
              Snap() == old(Snap()).(queue := old(queue) + d.items, total := d.total)
    {
      ghost var start := Snap();
      ghost var added: seq<Item> := [];
      var j := 0;
      while j < |lines|
        invariant 0 <= j <= |lines|
        invariant connected && writeError == start.writeError && history == start.history
        invariant written == start.written && panel == start.panel
        invariant queue == start.queue + added
        invariant Deliver(start.total, lines) ==
                  Classified(added + Deliver(totalDevices, lines[j..]).items, Deliver(totalDevices, lines[j..]).total)
      {
        var c := ReadLine(lines[j], totalDevices);
        DeliverStep(start.total, lines, j, added, totalDevices);
        ReceiveLine(lines[j]);
        Assoc(start.queue, added, c.items);
        added := added + c.items;
        j := j + 1;
      }
      assert lines[j..] == [] && added + [] == added;
    }

    /** `update_device_lists`: the ids for the current total, and each selection
        repaired to an offered id. */
    method UpdateDeviceLists()
      modifies this
      ensures Snap() == RebuildLists(old(Snap()))
    {
      var ids: seq<string> := [];
      if totalDevices > 0 {
        var i := 1;
        while i <= totalDevices
          invariant 1 <= i <= totalDevices + 1
          invariant ids == IdsUpTo(i - 1)
        {
          ids := ids + [Pad3(i)];
          i := i + 1;
        }
      }
      if ids != [] {
        var servoSel := if panel.servo.selection in ids then panel.servo.selection else ids[0];
        var dacSel := if panel.dac.selection in ids then panel.dac.selection else ids[0];
        panel := panel.(servo := Picker(ids, servoSel), dac := Picker(ids, dacSel));
      } else {
        panel := panel.(servo := Picker(["001"], "001"), dac := Picker(["001"], "001"));
      }
    }

    /** `update_gui`: pop and apply queued items until the queue is empty. */
    method UpdateGui()
      modifies this
      ensures Snap() == Drained(old(Snap()))
    {
      while queue != []
        invariant Drained(Snap()) == Drained(old(Snap()))
        decreases |queue|
      {
        ghost var before := Snap();
        var item := queue[0];
        queue := queue[1..];
        ApplyItem(item);
        assert Drained(before) == Drained(Snap());
      }
    }

    /** The branch of `update_gui` that handles one popped item. */
    method ApplyItem(item: Item)
      modifies this
      ensures Snap() == old(Snap()).(panel := Apply(old(panel), old(totalDevices), item))
    {
      match item {
        case Receive(line) =>
          LogMessage("RX: " + line);
        case DeviceCount(n) =>
          panel := panel.(countText := NatToString(n));
          UpdateDeviceLists();
          LogMessage("Device count updated: " + NatToString(n) + " devices detected");
        case SystemState(word) =>
          panel := panel.(stateText := word);
        case MasterStarted =>
          LogMessage("Master device started - beginning device detection");
        case DeviceInitialized(id) =>
          LogMessage("Device " + Pad3(id) + " initialized");
        case InitComplete =>
          LogMessage("Device initialization complete");
        case Error(text) =>
          LogMessage(text);
      }
    }

    method SendCommand(command: string) returns (ok: bool, popup: Option<string>)
      modifies this
      ensures Sent(Snap(), ok, popup) == Send(old(Snap()), command)
    {
      if !connected {
        return false, Some(NotConnected);
      }
      match writeError {
        case Some(e) =>
          LogMessage("Send error: " + e);
          return false, None;
        case None =>
          written := written + [command + "\n"];
          LogMessage("TX: " + command);
          history := history + [command];
          return true, None;
      }
    }

    /** One poll of the detection window: pop the head of the queue, if any; unless it
        is the timeout warning, the reader then delivers its lines for this poll. */
    method PollOnce(arrival: seq<string>) returns (hit: bool)
      requires connected
      modifies this
      ensures hit <==> old(queue) != [] && IsTimeoutWarning(old(queue)[0])
      ensures hit ==> Snap() == old(Snap()).(queue := old(queue)[1..])
      ensures !hit ==> var d := Deliver(old(totalDevices), arrival);
                       Snap() == old(Snap()).(queue := (if old(queue) == [] then [] else old(queue)[1..]) + d.items, total := d.total)
    {
      hit := false;
      if queue != [] {
        var item := queue[0];
        queue := queue[1..];
        hit := IsTimeoutWarning(item);
      }
      if !hit {
        ReceiveLines(arrival);
      }
    }

    /** The detection window: poll the shared queue once per entry of `arrivals`,
        discarding what is popped, until the timeout warning is popped. */
    method WatchForTimeout(arrivals: seq<seq<string>>) returns (detected: bool)
      requires connected
      modifies this
      ensures var w := Poll(old(queue), old(totalDevices), arrivals);
              detected == w.detected && Snap() == old(Snap()).(queue := w.queue, total := w.total)
    {
      ghost var sent := Snap();
      ghost var popped: seq<Item> := [];
      ghost var added: seq<Item> := [];
      ghost var goal := Poll(sent.queue, sent.total, arrivals);
      detected := false;
      var i := 0;
      while i < |arrivals| && !detected
        invariant 0 <= i <= |arrivals|
        invariant connected && writeError == sent.writeError && history == sent.history
        invariant written == sent.written && panel == sent.panel
        invariant detected ==> goal == Window(queue, totalDevices, popped, added, true)
        invariant !detected ==> goal == Resumed(popped, added, Poll(queue, totalDevices, arrivals[i..]))
      {
        ghost var before := queue;
        ghost var total := totalDevices;
        ghost var rest := arrivals[i..];
        assert rest[0] == arrivals[i] && rest[1..] == arrivals[i + 1..];
        detected := PollOnce(arrivals[i]);
        if detected {
          ResumeDetect(popped, added, before, total, rest);
          popped := popped + [before[0]];
        } else {
          ResumeContinue(popped, added, before, total, rest);
          popped := popped + (if before == [] then [] else [before[0]]);
          added := added + Deliver(total, arrivals[i]).items;
        }
        i := i + 1;
      }
    }

    /** `send_command_with_recovery`, with the detection window as one poll per entry
        of `arrivals` and the reader's lines for each poll delivered after it. */
    method SendCommandWithRecovery(command: string, arrivals: seq<seq<string>>) returns (ok: bool, popup: Option<string>)
      modifies this
      ensures Sent(Snap(), ok, popup) == Recover(old(Snap()), command, arrivals)
    {
      if !connected {
        return false, Some(NotConnected);
      }
      var _, _ := SendCommand("status");
      if writeError.Some? {
        LogMessage("Send error: " + writeError.value);
        return false, None;
      }
      written := written + [command + "\n"];
      LogMessage("TX: " + command);
      history := history + [command];

      var detected := WatchForTimeout(arrivals);
      if detected {
        LogMessage("Timeout detected - reinitializing and retrying...");
        var _, _ := SendCommand("reinit");
        written := written + [command + "\n"];
        LogMessage("TX (retry): " + command);
      }
      return true, None;
    }

    method SendServoCommand(angle: Option<int>, mode: Mode, arrivals: seq<seq<string>>) returns (popup: Option<string>)
      modifies this
      ensures Outcome(Snap(), popup) == Servo(old(Snap()), angle, mode, arrivals)
    {
      popup := SendRequest(ServoRequest(angle, mode, panel.servo.selection), arrivals);
    }

    method SendDacCommand(percent: Option<int>, mode: Mode, arrivals: seq<seq<string>>) returns (popup: Option<string>)
      modifies this
      ensures Outcome(Snap(), popup) == Dac(old(Snap()), percent, mode, arrivals)
    {
      popup := SendRequest(DacRequest(percent, mode, panel.dac.selection), arrivals);
    }

    method SendRequest(req: Checked, arrivals: seq<seq<string>>) returns (popup: Option<string>)
      modifies this
      ensures Outcome(Snap(), popup) == Request(old(Snap()), req, arrivals)
    {
      match req {
        case Rejected(p) =>
          return Some(p);
        case Accepted(cmd, note) =>
          var ok;
          ok, popup := SendCommandWithRecovery(cmd, arrivals);
          if ok {
            LogMessage(note);
          }
      }
    }

    method UpdateDacRawValue(percent: Option<int>)
      modifies this
      ensures Snap() == RawUpdated(old(Snap()), percent)
    {
      panel := panel.(rawText := RawLabel(percent));
    }

    method SetManualDeviceCount(text: string) returns (popup: Option<string>)
      modifies this
      ensures Outcome(Snap(), popup) == ManualCountSet(old(Snap()), text)
    {
      match ManualCount(text) {
        case Fail(p) =>
          return Some(p);
        case Ok(n) =>
          totalDevices := n;
          panel := panel.(countText := NatToString(n));
          UpdateDeviceLists();
          LogMessage("Manual device count set to: " + NatToString(n));
          return None;
      }
    }

    method Disconnect()
      modifies this
      ensures Snap() == Disconnected(old(Snap()))
    {
      connected := false;
      panel := panel.(connText := "Disconnected", countText := "0", stateText := "Unknown");
      UpdateDeviceLists();
      LogMessage("Disconnected from serial port");
    }
  }

  /** The rest of a detection window, after `popped` and `added` so far. */
  function Resumed(popped: seq<Item>, added: seq<Item>, w: Window): Window {
    Window(w.queue, w.total, popped + w.popped, added + w.delivered, w.detected)
  }

  /** A poll that pops the warning closes the window. */
  lemma ResumeDetect(popped: seq<Item>, added: seq<Item>, queue: seq<Item>, total: nat, arrivals: seq<seq<string>>)
    requires arrivals != [] && queue != [] && IsTimeoutWarning(queue[0])
    ensures Resumed(popped, added, Poll(queue, total, arrivals)) == Window(queue[1..], total, popped + [queue[0]], added, true)
  {
    assert added + [] == added;
  }

  /** Any other poll pops at most one item and lets the reader append its lines. */
  lemma ResumeContinue(popped: seq<Item>, added: seq<Item>, queue: seq<Item>, total: nat, arrivals: seq<seq<string>>)
    requires arrivals != [] && !(queue != [] && IsTimeoutWarning(queue[0]))
    ensures var d := Deliver(total, arrivals[0]);
            var now := if queue == [] then [] else [queue[0]];
            Resumed(popped, added, Poll(queue, total, arrivals)) ==
            Resumed(popped + now, added + d.items, Poll((if queue == [] then [] else queue[1..]) + d.items, d.total, arrivals[1..]))
  {
    var d := Deliver(total, arrivals[0]);
    var now := if queue == [] then [] else [queue[0]];
    var w := Poll((if queue == [] then [] else queue[1..]) + d.items, d.total, arrivals[1..]);
    Assoc(popped, now, w.popped);
    Assoc(added, d.items, w.delivered);
  }

  // ---------------------------------------------------------------------
  // Properties of the operations
  // ---------------------------------------------------------------------

  /** `send_command` writes exactly one line, the command and its newline, and records
      the command, or writes and records nothing; only the log changes besides. */
  lemma SendOnceOrNot(s: Snapshot, command: string)
    ensures var r := Send(s, command);
            (r.ok <==> s.connected && s.writeError.None?) &&
            r.state.written == (if r.ok then s.written + [command + "\n"] else s.written) &&
            r.state.history == (if r.ok then s.history + [command] else s.history) &&
            r.state.queue == s.queue && r.state.total == s.total && r.state.connected == s.connected &&
            r.state.panel == s.panel.(log := r.state.panel.log) &&
            (!s.connected ==> r.state == s && r.popup == Some(NotConnected))
  {
  }

  /** The lines a successful recovering send writes: "status", the command, and, only
      when the window popped the timeout warning, "reinit" and the command once more. */
  function RecoveryLines(command: string, detected: bool): seq<string> {
    ["status\n", command + "\n"] + (if detected then ["reinit\n", command + "\n"] else [])
  }

  /** A send on a working port: one line written, one command recorded. */
  lemma SendOk(s: Snapshot, command: string)
    requires s.connected && s.writeError.None?
    ensures var t := Send(s, command).state;
            t.written == s.written + [command + "\n"] && t.history == s.history + [command] &&
            t.connected && t.writeError.None? && t.queue == s.queue && t.total == s.total &&
            t.panel.servo == s.panel.servo && t.panel.dac == s.panel.dac
  {
  }

  /** The successful path of the recovering send, step by step. */
  lemma RecoverOk(s: Snapshot, command: string, arrivals: seq<seq<string>>)
    requires s.connected && s.writeError.None?
    ensures var r := Recover(s, command, arrivals);
            var w := Poll(s.queue, s.total, arrivals);
            r.ok && r.state.connected && r.state.writeError.None? &&
            r.state.written == s.written + RecoveryLines(command, w.detected) &&
            r.state.history == s.history + ["status", command] + (if w.detected then ["reinit"] else []) &&
            r.state.queue == w.queue && r.state.total == w.total &&
            r.state.panel.servo == s.panel.servo && r.state.panel.dac == s.panel.dac
  {
    assert "status" + "\n" == "status\n" && "reinit" + "\n" == "reinit\n";
    var afterStatus := Send(s, "status").state;
    SendOk(s, "status");
    var sent := Logged(Wrote(afterStatus, command), "TX: " + command).(history := afterStatus.history + [command]);
    assert sent.written == s.written + ["status\n", command + "\n"];
    assert sent.history == s.history + ["status", command];
    var w := Poll(sent.queue, sent.total, arrivals);
    var polled := sent.(queue := w.queue, total := w.total);
    if w.detected {
      var warned := Logged(polled, "Timeout detected - reinitializing and retrying...");
      var reinit := Send(warned, "reinit").state;
      SendOk(warned, "reinit");
      var last := Logged(Wrote(reinit, command), "TX (retry): " + command);
      assert last.written == s.written + ["status\n", command + "\n"] + ["reinit\n", command + "\n"];
      assert Recover(s, command, arrivals) == Sent(last, true, None);
    } else {
      assert RecoveryLines(command, false) == ["status\n", command + "\n"];
      assert Recover(s, command, arrivals) == Sent(polled, true, None);
    }
  }

  /** `send_command_with_recovery`: nothing happens unless connected; a failing port
      writes nothing; otherwise the writes are "status" and the command, retried once
      after "reinit" exactly when the warning was popped; the retry is not recorded in
      the history; the popped items are gone and nothing else left the queue. */
  lemma RecoverWrites(s: Snapshot, command: string, arrivals: seq<seq<string>>)
    ensures var r := Recover(s, command, arrivals);
            var w := Poll(s.queue, s.total, arrivals);
            (!s.connected ==> r.state == s && !r.ok) &&
            (s.connected ==> (r.ok <==> s.writeError.None?)) &&
            (!r.ok ==> r.state.written == s.written && r.state.history == s.history && r.state.queue == s.queue) &&
            (r.ok ==> r.state.written == s.written + RecoveryLines(command, w.detected)) &&
            (r.ok ==> r.state.history == s.history + ["status", command] + (if w.detected then ["reinit"] else [])) &&
            (r.ok ==> r.state.queue == w.queue && r.state.total == w.total && w.popped + r.state.queue == s.queue + w.delivered)
  {
    PollConserves(s.queue, s.total, arrivals);
    if s.connected && s.writeError.None? {
      RecoverOk(s, command, arrivals);
    }
  }

  /** A timeout warning already waiting at position k of the queue, with no warning
      before it, triggers the retry when the window has more than k polls, and leaves
      queued exactly what followed it plus what the reader appended. */
  lemma RecoverRetriesOnQueuedWarning(s: Snapshot, command: string, arrivals: seq<seq<string>>, k: nat)
    requires s.connected && s.writeError.None?
    requires k < |s.queue| && k < |arrivals| && IsTimeoutWarning(s.queue[k]) && NoWarning(s.queue[..k])
    ensures var r := Recover(s, command, arrivals);
            var w := Poll(s.queue, s.total, arrivals);
            r.ok && r.state.written == s.written + RecoveryLines(command, true) &&
            r.state.queue == s.queue[k + 1..] + w.delivered
  {
    PollFindsQueuedWarning(s.queue, s.total, arrivals, k);
    RecoverOk(s, command, arrivals);
  }

  /** With no warning anywhere in what the window could pop, the command is written once. */
  lemma RecoverNoRetryWithoutWarning(s: Snapshot, command: string, arrivals: seq<seq<string>>)
    requires s.connected && s.writeError.None? && NoWarning(s.queue)
    requires NoWarning(Poll(s.queue, s.total, arrivals).delivered)
    ensures Recover(s, command, arrivals).state.written == s.written + ["status\n", command + "\n"]
  {
    PollWithoutWarning(s.queue, s.total, arrivals);
    RecoverOk(s, command, arrivals);
    assert RecoveryLines(command, false) == ["status\n", command + "\n"];
  }

  /** The servo button writes only for an angle in 0..180; what it writes is the
      recovering send of `"{id},servo,{angle}"` with id "000" in all-mode and the
      selected id otherwise; out of range it changes nothing and shows a popup. */
  lemma ServoRangeChecked(s: Snapshot, angle: Option<int>, mode: Mode, arrivals: seq<seq<string>>)
    ensures var o := Servo(s, angle, mode, arrivals);
            (o.state.written != s.written ==> angle.Some? && 0 <= angle.value <= 180) &&
            (!(angle.Some? && 0 <= angle.value <= 180) ==> o.state == s && o.popup.Some?) &&
            (angle.Some? && 0 <= angle.value <= 180 && s.connected && s.writeError.None? ==>
               o.state.written == s.written +
                 RecoveryLines(ServoCommand(TargetId(mode, s.panel.servo.selection), angle.value),
                               Poll(s.queue, s.total, arrivals).detected))
  {
    var req := ServoRequest(angle, mode, s.panel.servo.selection);
    if req.Accepted? {
      RecoverWrites(s, req.cmd, arrivals);
    }
  }

  /** The DAC button writes only for a percentage in 0..100, and the line carries the
      10-bit raw value of that percentage, never the percentage itself. */
  lemma DacRangeChecked(s: Snapshot, percent: Option<int>, mode: Mode, arrivals: seq<seq<string>>)
    ensures var o := Dac(s, percent, mode, arrivals);
            (o.state.written != s.written ==> percent.Some? && 0 <= percent.value <= 100) &&
            (!(percent.Some? && 0 <= percent.value <= 100) ==> o.state == s && o.popup.Some?) &&
            (percent.Some? && 0 <= percent.value <= 100 && s.connected && s.writeError.None? ==>
               0 <= DacRaw(percent.value) <= 1023 &&
               o.state.written == s.written +
                 RecoveryLines(DacCommand(TargetId(mode, s.panel.dac.selection), DacRaw(percent.value)),
                               Poll(s.queue, s.total, arrivals).detected))
  {
    var req := DacRequest(percent, mode, s.panel.dac.selection);
    if req.Accepted? {
      DacRawRange(percent.value);
      RecoverWrites(s, req.cmd, arrivals);
    }
  }

  /** The manual count is taken only when the field reads as an integer in 1..10: it
      becomes the device total and the count label, and the dropdowns offer exactly
      its ids; otherwise nothing changes and a popup is shown. */
  lemma ManualCountApplied(s: Snapshot, text: string)
    ensures var o := ManualCountSet(s, text);
            var n := ParseInt(text);
            (o.popup.None? <==> n.Some? && 1 <= n.value <= 10) &&
            (o.popup.Some? ==> o.state == s) &&
            (o.popup.None? ==> o.state.total == n.value && o.state.panel.countText == NatToString(n.value) &&
                               o.state.panel.servo.values == IdsUpTo(n.value) &&
                               o.state.panel.dac.values == IdsUpTo(n.value) && Valid(o.state) &&
                               o.state.written == s.written && o.state.queue == s.queue)
  {
  }

  /** Disconnecting clears the connection and resets the labels, but keeps the device
      total: the dropdowns are rebuilt for the total the reader last saw. */
  lemma DisconnectResets(s: Snapshot)
    ensures var t := Disconnected(s);
            !t.connected && t.panel.connText == "Disconnected" && t.panel.countText == "0" &&
            t.panel.stateText == "Unknown" && t.total == s.total &&
            t.panel.servo.values == DeviceIds(s.total) && t.panel.dac.values == DeviceIds(s.total) && Valid(t) &&
            t.queue == s.queue && t.written == s.written && t.history == s.history
  {
  }

  /** Once disconnected, neither kind of send writes anything and the reader enqueues
      nothing. */
  lemma DisconnectedIsSilent(s: Snapshot, command: string, arrivals: seq<seq<string>>, raw: string)
    ensures var t := Disconnected(s);
            Send(t, command).state.written == s.written &&
            Recover(t, command, arrivals).state.written == s.written &&
            Received(t, raw).queue == s.queue
  {
  }

  /** A raw line that is empty or all whitespace enqueues nothing; any other line
      enqueues its stripped text first. */
  lemma ReceivedItems(s: Snapshot, raw: string)
    requires s.connected
    ensures AllSpace(raw) ==> Received(s, raw) == s
    ensures !AllSpace(raw) ==> |Received(s, raw).queue| > |s.queue| &&
                               Received(s, raw).queue[|s.queue|] == Receive(Strip(raw))
  {
    StripEmptyIff(raw);
    if AllSpace(raw) {
      assert s.queue + [] == s.queue;
    }
  }

  /** The reader followed by the consumer, with nothing queued before: a line that
      reports a device count leaves the count label showing the reader's new total
      and both dropdowns rebuilt for it; the queue ends empty. */
  lemma ReceiveThenDrain(s: Snapshot, raw: string)
    requires s.connected && s.queue == []
    ensures var t := Drained(Received(s, raw));
            var items := ReadLine(raw, s.total).items;
            t.queue == [] &&
            (NoCount(items) ==> t.total == s.total && t.panel.countText == s.panel.countText) &&
            (!NoCount(items) ==> t.panel.countText == NatToString(t.total) &&
                                 t.panel.servo == Rebuilt(s.panel.servo, t.total) &&
                                 t.panel.dac == Rebuilt(s.panel.dac, t.total))
  {
    var c := ReadLine(raw, s.total);
    assert Received(s, raw).queue == c.items;
    ClassifyTotal(Strip(raw), s.total);
    DrainCount(s.panel, c.total, c.items);
    DrainPickers(s.panel, c.total, c.items);
    if !NoCount(c.items) {
      var x :| x in c.items && x.DeviceCount?;
      var k := LastCountIndex(c.items);
      assert IsLastCount(c.items, k);
    }
  }

  /** The position of the last device count in a list that holds one. */
  function LastCountIndex(items: seq<Item>): (k: int)
    requires !NoCount(items)
    ensures IsLastCount(items, k)
    decreases |items|
  {
    if items[|items| - 1].DeviceCount? then |items| - 1
    else
      assert !NoCount(items[..|items| - 1]) by {
        var x :| x in items && x.DeviceCount?;
        var j :| 0 <= j < |items| && items[j] == x;
        assert items[..|items| - 1][j] == x;
      }
      LastCountIndex(items[..|items| - 1])
  }

  /** Every send keeps each dropdown showing one of its offered values. */
  lemma ValidSends(s: Snapshot, command: string, arrivals: seq<seq<string>>, angle: Option<int>, mode: Mode)
    requires Valid(s)
    ensures Valid(Send(s, command).state) && Valid(Recover(s, command, arrivals).state)
    ensures Valid(Servo(s, angle, mode, arrivals).state) && Valid(Dac(s, angle, mode, arrivals).state)
  {
    ValidRecover(s, command, arrivals);
    ValidRequest(s, ServoRequest(angle, mode, s.panel.servo.selection), arrivals);
    ValidRequest(s, DacRequest(angle, mode, s.panel.dac.selection), arrivals);
  }

  lemma ValidRequest(s: Snapshot, req: Checked, arrivals: seq<seq<string>>)
    requires Valid(s)
    ensures Valid(Request(s, req, arrivals).state)
  {
    if req.Accepted? {
      ValidRecover(s, req.cmd, arrivals);
    }
  }

  lemma ValidRecover(s: Snapshot, command: string, arrivals: seq<seq<string>>)
    requires Valid(s)
    ensures Valid(Recover(s, command, arrivals).state)
  {
    if s.connected && s.writeError.None? {
      RecoverOk(s, command, arrivals);
    }
  }

  /** Every other operation keeps each dropdown showing one of its offered values. */
  lemma ValidPreserved(s: Snapshot, raw: string, percent: Option<int>, text: string,
                       port: string, baud: string, openError: Option<string>, portWriteError: Option<string>)
    requires Valid(s)
    ensures Valid(Received(s, raw)) && Valid(ReadFailed(s, raw)) && Valid(Drained(s))
    ensures Valid(RawUpdated(s, percent)) && Valid(ManualCountSet(s, text).state) && Valid(Disconnected(s))
    ensures Valid(Connected(s, port, baud, openError, portWriteError).state)
  {
    DrainConsistent(s.panel, s.total, s.queue);
  }

  /** Connecting: without a port nothing changes; a port that fails to open leaves
      the session disconnected with only the failure logged; otherwise the session is
      connected and "status" is the one line written. */
  lemma ConnectOutcome(s: Snapshot, port: string, baud: string, openError: Option<string>, portWriteError: Option<string>)
    ensures var o := Connected(s, port, baud, openError, portWriteError);
            (port == [] ==> o.state == s && o.popup == Some("Please select a port")) &&
            (port != [] && openError.Some? ==>
               o.state == Logged(s, "Connection failed: " + openError.value) &&
               o.popup == Some("Failed to connect: " + openError.value)) &&
            (port != [] && openError.None? ==>
               o.state.connected && o.popup.None? && o.state.panel.connText == "Connected" &&
               o.state.written == s.written + (if portWriteError.None? then ["status\n"] else []))
  {
    assert "status" + "\n" == "status\n";
  }

  /** The freshly built session is valid and shows no devices. */
  lemma StartupState()
    ensures Valid(Startup()) && Startup().panel.servo.values == DeviceIds(0) && !Startup().connected
  {
  }
}
