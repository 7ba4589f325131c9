/**
 * The command lines the controller writes to the master device, the
 * percent-to-raw DAC conversion, and the range checks the servo and DAC
 * senders apply before anything is written.
 *
 * A command line is `"{id},{kind},{value}"`; the device id is `"000"` when a
 * command is addressed to every device of the chain.
 */
module Commands {
  import opened Wrappers
  import opened Text

  /** Whether a command goes to every device or to the selected one. */
  datatype Mode = All | Individual

  /** The id that addresses every device of the chain at once. */
  const Broadcast: string := "000"

  function TargetId(mode: Mode, selected: string): string {
    match mode
    case All => Broadcast
    case Individual => selected
  }

  // ---------------------------------------------------------------------
  // Command lines
  // ---------------------------------------------------------------------

  function CommandLine(id: string, kind: string, value: int): string {
    id + "," + kind + "," + IntToString(value)
  }

  function ServoCommand(id: string, angle: int): string {
    CommandLine(id, "servo", angle)
  }

  function DacCommand(id: string, raw: int): string {
    CommandLine(id, "dac", raw)
  }

  /** The three comma-separated fields of a command line. */
  datatype Fields = Fields(id: string, kind: string, value: string)

  /** Position of the first occurrence of c in s. */
  function IndexOf(s: string, c: char): (r: Option<nat>)
    ensures r.None? <==> c !in s
    ensures r.Some? ==> r.value < |s| && s[r.value] == c && c !in s[..r.value]
  {
    if s == [] then None
    else if s[0] == c then Some(0)
    else match IndexOf(s[1..], c)
      case None => None
      case Some(k) => assert s[..k + 1] == [s[0]] + s[1..][..k]; Some(k + 1)
  }

  /** Splits a line at its first two commas, as the receiving side reads it. */
  function SplitCommand(line: string): Option<Fields> {
    match IndexOf(line, ',')
    case None => None
    case Some(i) =>
      var rest := line[i + 1..];
      match IndexOf(rest, ',')
      case None => None
      case Some(j) => Some(Fields(line[..i], rest[..j], rest[j + 1..]))
  }

  lemma IndexOfPrefix(a: string, b: string, c: char)
    requires c !in a
    ensures IndexOf(a + [c] + b, c) == Some(|a|)
  {
    var s := a + [c] + b;
    assert s[|a|] == c && s[..|a|] == a;
  }

  /** The round trip for a line addressed by mode: the broadcast id holds no comma. */
  lemma TargetRoundTrip(mode: Mode, selected: string, kind: string, value: int)
    requires ',' !in kind
    ensures ',' !in selected ==>
              SplitCommand(CommandLine(TargetId(mode, selected), kind, value)) ==
              Some(Fields(TargetId(mode, selected), kind, IntToString(value)))
  {
    if ',' !in selected {
      CommandRoundTrip(TargetId(mode, selected), kind, value);
    }
  }

  /** Three comma-free fields joined by commas split back into themselves. */
  lemma JoinSplit(id: string, kind: string, v: string)
    requires ',' !in id && ',' !in kind
    ensures SplitCommand(id + "," + kind + "," + v) == Some(Fields(id, kind, v))
  {
    var rest := kind + [','] + v;
    var line := id + [','] + rest;
    assert id + "," + kind + "," + v == line;
    IndexOfPrefix(id, rest, ',');
    assert line[|id| + 1..] == rest;
    assert line[..|id|] == id;
    IndexOfPrefix(kind, v, ',');
    assert rest[..|kind|] == kind && rest[|kind| + 1..] == v;
  }

  /** A command line splits back into its id, its kind and the decimal text of its
      value whenever the id and the kind hold no comma. */
  lemma CommandRoundTrip(id: string, kind: string, value: int)
    requires ',' !in id && ',' !in kind
    ensures SplitCommand(CommandLine(id, kind, value)) == Some(Fields(id, kind, IntToString(value)))
  {
    JoinSplit(id, kind, IntToString(value));
  }

  /** Two comma-free targets and kinds never produce the same line for different
      values, kinds or targets. */
  lemma CommandInjective(id1: string, kind1: string, v1: int, id2: string, kind2: string, v2: int)
    requires ',' !in id1 && ',' !in kind1 && ',' !in id2 && ',' !in kind2
    requires CommandLine(id1, kind1, v1) == CommandLine(id2, kind2, v2)
    ensures id1 == id2 && kind1 == kind2 && v1 == v2
  {
    CommandRoundTrip(id1, kind1, v1);
    CommandRoundTrip(id2, kind2, v2);
    ParseIntRoundTrip(v1);
    ParseIntRoundTrip(v2);
  }

  // ---------------------------------------------------------------------
  // Percent to raw 10-bit DAC value
  // ---------------------------------------------------------------------

  /** Integer division that truncates toward zero, as Python's `int()` does to a
      float quotient. */
  function TruncDiv(a: int, b: nat): int
    requires b > 0
  {
    if a >= 0 then a / b else -((-a) / b)
  }

  /** `int((percent / 100.0) * 1023)`, computed on exact rationals. */
  function DacRaw(percent: int): (r: int)
    ensures 0 <= percent <= 100 ==> 0 <= r <= 1023
    ensures percent < 0 ==> r <= 0
  {
    TruncDiv(percent * 1023, 100)
  }

  /** For a non-negative percent the raw value is the floor of percent * 10.23:
      the largest integer whose hundredfold does not exceed percent * 1023. */
  lemma DacRawIsFloor(percent: int)
    requires percent >= 0
    ensures DacRaw(percent) * 100 <= percent * 1023 < (DacRaw(percent) + 1) * 100
  {
  }

  /** A percentage the sender accepts maps to a 10-bit value. */
  lemma DacRawRange(percent: int)
    requires 0 <= percent <= 100
    ensures 0 <= DacRaw(percent) <= 1023
  {
    DacRawIsFloor(percent);
  }

  /** Truncation is symmetric: a negative percent gives the negated raw value. */
  lemma DacRawOdd(percent: int)
    ensures DacRaw(-percent) == -DacRaw(percent)
  {
  }

  /** A larger percentage never gives a smaller raw value. */
  lemma DacRawMonotone(p: int, q: int)
    requires p <= q
    ensures DacRaw(p) <= DacRaw(q)
  {
    if 0 <= p {
      DacRawIsFloor(p);
      DacRawIsFloor(q);
    } else if q <= 0 {
      DacRawIsFloor(-p);
      DacRawIsFloor(-q);
      DacRawOdd(p);
      DacRawOdd(q);
    } else {
      DacRawIsFloor(-p);
      DacRawIsFloor(q);
      DacRawOdd(p);
    }
  }

  /** The values a reader can check by hand: 0% is 0, 100% is 1023, 25% is 255,
      50% is 511 and 75% is 767. */
  lemma DacRawSamples()
    ensures DacRaw(0) == 0 && DacRaw(100) == 1023
    ensures DacRaw(25) == 255 && DacRaw(50) == 511 && DacRaw(75) == 767
  {
  }

  /** Between 0 and 100 the exact quotient percent * 1023 / 100 is a whole number only
      at 0 and 100 (1023 and 100 share no factor); everywhere else it lies at least
      0.01 away from one, so the float computation truncates to the same integer. */
  lemma DacRawExact(percent: int)
    requires 0 <= percent <= 100
    ensures (percent * 1023) % 100 == 0 <==> percent == 0 || percent == 100
  {
    if (percent * 1023) % 100 == 0 {
      var k := (percent * 1023) / 100;
      assert percent * 1023 == 100 * k;
      assert 87 * (percent * 1023) == 100 * (87 * k);
      var j := 87 * k - 890 * percent;
      assert percent == 100 * j;
      if j < 0 || j > 1 {
        assert false;
      }
    }
  }

  // ---------------------------------------------------------------------
  // Range-checked requests
  // ---------------------------------------------------------------------

  /** What a send button produces: a command line with the log note written once it
      has gone out, or the text of an error popup (nothing is written). */
  datatype Checked = Accepted(cmd: string, note: string) | Rejected(popup: string)

  /** The servo send button: the angle field must read as an integer in 0..180. */
  function ServoRequest(angle: Option<int>, mode: Mode, selected: string): (r: Checked)
    ensures r.Accepted? <==> angle.Some? && 0 <= angle.value <= 180
    ensures angle.None? ==> r == Rejected("Invalid servo angle value")
    ensures angle.Some? && !(0 <= angle.value <= 180) ==>
              r == Rejected("Servo angle must be between 0 and 180 degrees")
    ensures r.Accepted? && ',' !in selected ==>
              SplitCommand(r.cmd) == Some(Fields(TargetId(mode, selected), "servo", NatToString(angle.value)))
  {
    match angle
    case None => Rejected("Invalid servo angle value")
    case Some(a) =>
      if 0 <= a <= 180 then
        var id := TargetId(mode, selected);
        TargetRoundTrip(mode, selected, "servo", a);
        var note := match mode
          case All => "Servo command sent to ALL devices: Angle " + NatToString(a) + "° (Disk Mode)"
          case Individual => "Servo command sent to Device " + id + ": Angle " + NatToString(a) + "°";
        Accepted(ServoCommand(id, a), note)
      else Rejected("Servo angle must be between 0 and 180 degrees")
  }

  /** The DAC send button: the percent field must read as an integer in 0..100; the
      line carries the 10-bit raw value, never the percentage. */
  function DacRequest(percent: Option<int>, mode: Mode, selected: string): (r: Checked)
    ensures r.Accepted? <==> percent.Some? && 0 <= percent.value <= 100
    ensures percent.None? ==> r == Rejected("Invalid DAC percentage value")
    ensures percent.Some? && !(0 <= percent.value <= 100) ==>
              r == Rejected("DAC percentage must be between 0 and 100")
    ensures r.Accepted? && ',' !in selected ==>
              exists raw: nat :: raw <= 1023 && raw * 100 <= percent.value * 1023 < raw * 100 + 100 &&
                SplitCommand(r.cmd) == Some(Fields(TargetId(mode, selected), "dac", NatToString(raw)))
  {
    match percent
    case None => Rejected("Invalid DAC percentage value")
    case Some(p) =>
      if 0 <= p <= 100 then
        var id := TargetId(mode, selected);
        DacRawRange(p);
        DacRawIsFloor(p);
        var raw: nat := DacRaw(p);
        TargetRoundTrip(mode, selected, "dac", raw);
        var note := match mode
          case All => "DAC command sent to ALL LEDs: " + NatToString(p) + "% (Raw: " + NatToString(raw) + ")"
          case Individual => "DAC command sent to Device " + id + ": " + NatToString(p) + "% (Raw: " + NatToString(raw) + ")";
        Accepted(DacCommand(id, raw), note)
      else Rejected("DAC percentage must be between 0 and 100")
  }

  /** The raw-value label beside the DAC slider: the converted value, without any
      range check, or "0" when the percent field cannot be read. */
  function RawLabel(percent: Option<int>): (r: string)
    ensures percent.None? ==> r == "0"
    ensures percent.Some? ==> ParseInt(r) == Some(DacRaw(percent.value))
  {
    match percent
    case None => "0"
    case Some(p) => ParseIntRoundTrip(DacRaw(p)); IntToString(DacRaw(p))
  }

  // ---------------------------------------------------------------------
  // The handlers as written, for a field that cannot be read
  // ---------------------------------------------------------------------

  /** The servo button as written. The angle and percent fields are Tk integer
      variables read before the `try`; a field that does not hold a number makes
      that read raise an error the `except ValueError` does not name, so the handler
      ends with no popup (None) and nothing sent. A readable field reaches the
      checked request. */
  function ServoRequestAsWritten(angle: Option<int>, mode: Mode, selected: string): (r: Option<Checked>)
    ensures r.None? <==> angle.None?
    ensures r.Some? ==> (r.value.Accepted? <==> 0 <= angle.value <= 180)
  {
    match angle
    case None => None
    case Some(_) => Some(ServoRequest(angle, mode, selected))
  }

  /** The DAC button as written, with the same unguarded read. */
  function DacRequestAsWritten(percent: Option<int>, mode: Mode, selected: string): (r: Option<Checked>)
    ensures r.None? <==> percent.None?
    ensures r.Some? ==> (r.value.Accepted? <==> 0 <= percent.value <= 100)
  {
    match percent
    case None => None
    case Some(_) => Some(DacRequest(percent, mode, selected))
  }

  /** The raw-value label as written: the read is inside the `try`, but its error is
      not among the two the handler names, so the label keeps its current text
      instead of showing "0". */
  function RawLabelAsWritten(percent: Option<int>, current: string): (r: string)
    ensures percent.None? ==> r == current
    ensures percent.Some? ==> ParseInt(r) == Some(DacRaw(percent.value))
  {
    match percent
    case None => current
    case Some(_) => RawLabel(percent)
  }

  /** An unreadable field: as written no popup is shown and the raw label is left
      stale; the handlers as evidently intended show the popups their `except`
      branches carry and reset the label to "0". */
  lemma UnreadableFieldAsWritten(mode: Mode, selected: string)
    ensures ServoRequestAsWritten(None, mode, selected).None?
    ensures ServoRequest(None, mode, selected) == Rejected("Invalid servo angle value")
    ensures DacRequestAsWritten(None, mode, selected).None?
    ensures DacRequest(None, mode, selected) == Rejected("Invalid DAC percentage value")
    ensures RawLabelAsWritten(None, "511") == "511" && RawLabel(None) == "0"
  {
  }

  /** The manual device-count field: a count is accepted only in 1..10. */
  function ManualCount(text: string): (r: Result)
    ensures r.Ok? <==> ParseInt(text).Some? && 1 <= ParseInt(text).value <= 10
    ensures r.Ok? ==> r.count == ParseInt(text).value
    ensures ParseInt(text).None? ==> r == Fail("Invalid device count value")
    ensures ParseInt(text).Some? && r.Fail? ==> r == Fail("Device count must be between 1 and 10")
  {
    match ParseInt(text)
    case None => Fail("Invalid device count value")
    case Some(n) => if 1 <= n <= 10 then Ok(n) else Fail("Device count must be between 1 and 10")
  }

  datatype Result = Ok(count: nat) | Fail(popup: string)

  /** Typing the decimal text of n into the field sets the count exactly when n is
      between 1 and 10. */
  lemma ManualCountOfNumeral(n: int)
    ensures ManualCount(IntToString(n)).Ok? <==> 1 <= n <= 10
    ensures ManualCount(IntToString(n)).Ok? ==> ManualCount(IntToString(n)).count == n
  {
    ParseIntRoundTrip(n);
  }
}
