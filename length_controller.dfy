/**
  The length-checking controller: a scan is valid when its stripped text
  has exactly the length typed in the "Barcode Length" entry.  Valid scans
  pulse the configured relay (once per new barcode); an invalid scan sends
  both relays off and stops listening.  Unlike the queue variant, the
  answer for a scan does not depend on the scans before it.
*/
module LengthController {
  import opened Wrappers
  import opened Text
  import opened Relay
  import opened Keyboard

  // ---------------------------------------------------------------------------
  // Validation by length
  // ---------------------------------------------------------------------------

  /**
    `validate_barcode`: the length entry must hold a number (an empty or
    otherwise unparsable entry rejects every scan), and the stripped scan
    must have exactly that many characters.
  */
  function ValidateLength(lengthText: string, data: string): (ok: bool)
    ensures ParseDecimal(lengthText).None? ==> !ok
    ensures ok ==> |Strip(data)| == ParseDecimal(lengthText).value
  {
    match ParseDecimal(lengthText)
    case None => false
    case Some(n) => |Strip(data)| == n
  }

  /** With any length entry that parses, exactly the scans of that many characters (after stripping) pass. */
  lemma LengthOfText(lengthText: string, data: string)
    requires ParseDecimal(lengthText).Some?
    ensures ValidateLength(lengthText, data) <==> |Strip(data)| == ParseDecimal(lengthText).value
  {
  }

  /** With the length entry showing the number `n`, exactly the scans of `n` characters (after stripping) pass. */
  lemma LengthOfDecimal(n: nat, data: string)
    ensures ValidateLength(Decimal(n), data) <==> |Strip(data)| == n
  {
    ParseDecimalRoundTrip(n);
    LengthOfText(Decimal(n), data);
  }

  /** An entry with a leading zero counts as its number: "014" asks for 14 characters. */
  lemma LengthWithLeadingZero(data: string)
    ensures ValidateLength("014", data) <==> |Strip(data)| == 14
  {
    assert Decimal(14) == "14";
    ParseDecimalRoundTrip(14);
    ParseDecimalLeadingZero("14");
    assert ['0'] + "14" == "014";
    LengthOfText("014", data);
  }

  /** An emptied length entry (which its validator allows) makes every scan invalid. */
  lemma EmptyLengthRejects(data: string)
    ensures !ValidateLength("", data)
  {
  }

  /** Surrounding white space never decides validity: the scan and its stripped text get the same answer. */
  lemma ValidateIgnoresOuterSpace(lengthText: string, data: string)
    ensures ValidateLength(lengthText, Strip(data)) == ValidateLength(lengthText, data)
  {
    StripIdempotent(data);
  }

  /**
    A length the entry accepts lies between 1 and 100, so a valid scan is
    never blank and never longer than 100 characters.
  */
  lemma AcceptedLengthBounds(lengthText: string, data: string)
    requires ValidateLengthInput(lengthText)
    requires ValidateLength(lengthText, data)
    ensures 1 <= |Strip(data)| <= 100
  {
    var n := ParseDecimal(lengthText).value;
    ParseDecimalRoundTrip(n);
  }

  // ---------------------------------------------------------------------------
  // The reading loop, one line at a time
  // ---------------------------------------------------------------------------

  /** The loop's view of the controller: `last_barcode`, the frames written, and whether it ended. */
  datatype Progress = Progress(last: string, written: seq<string>, halted: bool)

  /** One line read from the scanner: blank lines are skipped, others validated and dispatched. */
  function Scan(p: Progress, lengthText: string, switchText: string, line: string): (q: Progress) {
    var data := Strip(line);
    if data == "" then p
    else
      var o := Dispatch(ValidateLength(lengthText, data), Strip(data), p.last, switchText);
      Progress(o.last, p.written + o.frames, o.halt)
  }

  /** The loop over the lines read, up to the first invalid scan. */
  function Run(p: Progress, lengthText: string, switchText: string, lines: seq<string>): (r: Progress)
    decreases |lines|
  {
    if lines == [] || p.halted then p
    else Run(Scan(p, lengthText, switchText, lines[0]), lengthText, switchText, lines[1..])
  }

  /** A line that ends the loop: not blank, and of the wrong length. */
  predicate Rejected(lengthText: string, line: string) {
    Strip(line) != "" && !ValidateLength(lengthText, line)
  }

  /** One scan halts exactly when it is rejected; a rejected scan writes the fail-safe frames and keeps `last_barcode`. */
  lemma ScanHalts(p: Progress, lengthText: string, switchText: string, line: string)
    requires !p.halted
    ensures Scan(p, lengthText, switchText, line).halted <==> Rejected(lengthText, line)
    ensures Rejected(lengthText, line) ==>
      Scan(p, lengthText, switchText, line) == Progress(p.last, p.written + FailSafeFrames(), true)
  {
    ValidateIgnoresOuterSpace(lengthText, line);
  }

  /**
    A valid scan pulses the configured relay when it differs from
    `last_barcode` and becomes the new `last_barcode`; repeating
    `last_barcode` writes nothing.
  */
  lemma ScanAccepted(p: Progress, lengthText: string, switchText: string, line: string)
    requires !p.halted && Strip(line) != "" && ValidateLength(lengthText, line)
    requires ParseDecimal(switchText).Some?
    ensures Scan(p, lengthText, switchText, line) ==
      if Strip(line) == p.last then p
      else Progress(Strip(line), p.written + PulseFrames(ParseDecimal(switchText).value), false)
  {
    ValidateIgnoresOuterSpace(lengthText, line);
    StripIdempotent(line);
    assert p.written + [] == p.written;
  }

  /** The loop halts exactly when some line it reads is rejected. */
  lemma {:induction false} RunHalts(p: Progress, lengthText: string, switchText: string, lines: seq<string>)
    requires !p.halted
    ensures Run(p, lengthText, switchText, lines).halted <==>
      exists k :: 0 <= k < |lines| && Rejected(lengthText, lines[k])
    decreases |lines|
  {
    if lines != [] {
      var q := Scan(p, lengthText, switchText, lines[0]);
      ScanHalts(p, lengthText, switchText, lines[0]);
      if q.halted {
        assert Rejected(lengthText, lines[0]);
      } else {
        RunHalts(q, lengthText, switchText, lines[1..]);
        if exists k :: 0 <= k < |lines| && Rejected(lengthText, lines[k]) {
          var k :| 0 <= k < |lines| && Rejected(lengthText, lines[k]);
          assert lines[1..][k - 1] == lines[k];
        }
        forall k | 0 <= k < |lines[1..]| && Rejected(lengthText, lines[1..][k])
          ensures Rejected(lengthText, lines[k + 1])
        {
        }
      }
    }
  }

  /**
    Debounce: the same valid barcode read any number of times in a row
    pulses at most once (and not at all when it is already `last_barcode`).
  */
  lemma {:induction false} RunRepeatedScan(p: Progress, lengthText: string, switchText: string,
                                            line: string, times: nat)
    requires !p.halted && Strip(line) != "" && ValidateLength(lengthText, line)
    requires ParseDecimal(switchText).Some?
    ensures var r := Run(p, lengthText, switchText, seq(times, _ => line));
      r == if times == 0 || Strip(line) == p.last then p
           else Progress(Strip(line), p.written + PulseFrames(ParseDecimal(switchText).value), false)
    decreases times
  {
    var lines := seq(times, _ => line);
    if times > 0 {
      ScanAccepted(p, lengthText, switchText, line);
      var q := Scan(p, lengthText, switchText, line);
      assert lines[1..] == seq(times - 1, _ => line);
      RunRepeatedScan(q, lengthText, switchText, line, times - 1);
    }
  }

  /** Frames are only appended, never withdrawn. */
  lemma {:induction false} RunAppends(p: Progress, lengthText: string, switchText: string, lines: seq<string>)
    ensures p.written <= Run(p, lengthText, switchText, lines).written
    decreases |lines|
  {
    if lines != [] && !p.halted {
      RunAppends(Scan(p, lengthText, switchText, lines[0]), lengthText, switchText, lines[1..]);
    }
  }

  /** The relays are left open after every run, whatever the scans were. */
  lemma {:induction false} RunKeepsRelaysOpen(p: Progress, lengthText: string, switchText: string, lines: seq<string>)
    requires After(AllOff, p.written) == AllOff
    ensures After(AllOff, Run(p, lengthText, switchText, lines).written) == AllOff
    decreases |lines|
  {
    if lines != [] && !p.halted {
      var data := Strip(lines[0]);
      var q := Scan(p, lengthText, switchText, lines[0]);
      if data != "" {
        var valid := ValidateLength(lengthText, data);
        var o := Dispatch(valid, Strip(data), p.last, switchText);
        AfterConcat(AllOff, p.written, o.frames);
        DispatchKeepsRelaysOpen(valid, Strip(data), p.last, switchText);
      }
      RunKeepsRelaysOpen(q, lengthText, switchText, lines[1..]);
    }
  }

  // ---------------------------------------------------------------------------
  // The application object
  // ---------------------------------------------------------------------------

  const NoPorts: string := "No COM Ports Found"

  class Controller {
    /** The "Barcode Length" entry, as typed. */
    var barcodeLength: string
    /** The switch entry, as typed. */
    var switchNumber: string
    var lastBarcode: string
    var running: bool
    var inputOpen: bool
    var outputOpen: bool
    var inputPort: string
    var outputPort: string
    /** Everything written to the output port, in order. */
    var written: seq<string>
    var usbBuffer: string

    /** Both entries passed their validators. */
    predicate Consistent()
      reads this`barcodeLength, this`switchNumber
    {
      ValidateLengthInput(barcodeLength) && ValidateSwitchInput(switchNumber)
    }

    /** Both ports are open exactly while listening. */
    predicate Valid()
      reads this`barcodeLength, this`switchNumber, this`running, this`inputOpen, this`outputOpen
    {
      Consistent() && inputOpen == running && outputOpen == running
    }

    function State(): (p: Progress)
      reads this`lastBarcode, this`written
    {
      Progress(lastBarcode, written, false)
    }

    /** The entries start at length "14" and switch "1". */
    constructor ()
      ensures Valid() && !running
      ensures barcodeLength == "14" && switchNumber == "1" && lastBarcode == ""
      ensures written == [] && usbBuffer == ""
    {
      barcodeLength := "14";
      switchNumber := "1";
      lastBarcode := "";
      running := false;
      inputOpen := false;
      outputOpen := false;
      inputPort := "";
      outputPort := "";
      written := [];
      usbBuffer := "";
      assert "14" == Decimal(14);
      LengthInputOnNumbers(14);
    }

    /** A keystroke in the length entry: Tk keeps the proposed text only when the validator accepts it. */
    method EditLength(proposed: string)
      requires Valid()
      modifies this`barcodeLength
      ensures Valid()
      ensures barcodeLength == if ValidateLengthInput(proposed) then proposed else old(barcodeLength)
    {
      if ValidateLengthInput(proposed) {
        barcodeLength := proposed;
      }
    }

    /** A keystroke in the switch entry, likewise. */
    method EditSwitch(proposed: string)
      requires Valid()
      modifies this`switchNumber
      ensures Valid()
      ensures switchNumber == if ValidateSwitchInput(proposed) then proposed else old(switchNumber)
    {
      if ValidateSwitchInput(proposed) {
        switchNumber := proposed;
      }
    }

    /**
      One non-blank scan while listening (the body of the reading loop):
      validate by length, then pulse, skip, or send the fail-safe frames and
      report that the loop must end.
    */
    method ProcessLine(line: string) returns (halt: bool)
      requires Valid() && running
      modifies this`lastBarcode, this`written
      ensures Valid() && running
      ensures Progress(lastBarcode, written, halt) == Scan(old(State()), barcodeLength, switchNumber, line)
    {
      ghost var before := State();
      var data := Strip(line);
      halt := false;
      if data == "" {
        return;
      }
      if ValidateLength(barcodeLength, data) {
        if Strip(data) != lastBarcode {
          var parsed := ParseDecimal(switchNumber);
          if parsed.Some? {
            var command := OnCommand(parsed.value);
            written := written + [Frame(command)];
            lastBarcode := Strip(data);
            written := written + [Frame(OffOf(command))];
            PulseWritten(before.written, parsed.value);
            return;
          }
        }
        assert written == before.written + [];
      } else {
        written := written + [Frame(Off1)];
        written := written + [Frame(Off2)];
        halt := true;
        FailSafeWritten(before.written);
      }
    }

    /**
      The reading loop over the lines the scanner delivers while listening.
      On an invalid scan the loop returns and `toggle_listen` runs, which
      stops listening.
    */
    method Listen(lines: seq<string>)
      requires Valid() && running
      modifies this`lastBarcode, this`written, this`running, this`inputOpen, this`outputOpen,
               this`inputPort, this`outputPort
      ensures Valid()
      ensures var r := Run(old(State()), barcodeLength, switchNumber, lines);
        && lastBarcode == r.last
        && written == r.written + (if r.halted then FailSafeFrames() else [])
        && running == !r.halted
      ensures inputPort == old(inputPort) && outputPort == old(outputPort)
    {
      var i := 0;
      var halted := false;
      while i < |lines| && !halted
        invariant 0 <= i <= |lines|
        invariant Valid() && running
        invariant inputPort == old(inputPort) && outputPort == old(outputPort)
        invariant Run(Progress(lastBarcode, written, halted), barcodeLength, switchNumber, lines[i..])
               == Run(old(State()), barcodeLength, switchNumber, lines)
        decreases |lines| - i, !halted
      {
        assert lines[i..][1..] == lines[i + 1..];
        halted := ProcessLine(lines[i]);
        i := i + 1;
      }
      if halted {
        ToggleListen("", "", "", "", false, false);
      } else {
        assert lines[i..] == [];
      }
    }

    /** `stop_listening`: both OFF frames while the output is open, then everything closed. */
    method Stop()
      requires Consistent()
      modifies this`written, this`running, this`inputOpen, this`outputOpen
      ensures Consistent() && !running && !inputOpen && !outputOpen
      ensures written == old(written) + if old(outputOpen) then FailSafeFrames() else []
    {
      if outputOpen {
        written := written + [Frame(Off1)];
        written := written + [Frame(Off2)];
      }
      running := false;
      inputOpen := false;
      outputOpen := false;
    }

    /**
      `start_listening`. The port selections, the baud-rate texts, and
      whether the operating system lets each port open are its inputs.
    */
    method Start(inputSel: string, outputSel: string, inputBaud: string, outputBaud: string,
                 inputOpens: bool, outputOpens: bool) returns (ok: bool)
      requires Valid() && !running
      modifies this`written, this`running, this`inputOpen, this`outputOpen, this`inputPort, this`outputPort
      ensures Consistent() && !running && written == old(written)
      ensures ok <==> inputSel != NoPorts && outputSel != NoPorts
                      && ParseDecimal(inputBaud).Some? && ParseDecimal(outputBaud).Some?
                      && inputOpens && outputOpens
      ensures inputOpen == ok && outputOpen == ok
      ensures ok ==> inputPort == ExtractPortName(inputSel) && outputPort == ExtractPortName(outputSel)
    {
      if inputSel == NoPorts || outputSel == NoPorts {
        return false;
      }
      var inputName := ExtractPortName(inputSel);
      var outputName := ExtractPortName(outputSel);
      if ParseDecimal(inputBaud).None? || ParseDecimal(outputBaud).None? {
        return false;
      }
      if !inputOpens {
        Stop();
        return false;
      }
      inputOpen := true;
      inputPort := inputName;
      if !outputOpens {
        Stop();
        return false;
      }
      outputOpen := true;
      outputPort := outputName;
      return true;
    }

    /** `toggle_listen`: start when idle (listening only if the start succeeds), stop when listening. */
    method ToggleListen(inputSel: string, outputSel: string, inputBaud: string, outputBaud: string,
                        inputOpens: bool, outputOpens: bool)
      requires Valid()
      modifies this`written, this`running, this`inputOpen, this`outputOpen, this`inputPort, this`outputPort
      ensures Valid()
      ensures old(running) ==> !running && written == old(written) + FailSafeFrames()
      ensures !old(running) ==> written == old(written)
      ensures !old(running) ==>
        (running <==> inputSel != NoPorts && outputSel != NoPorts
                      && ParseDecimal(inputBaud).Some? && ParseDecimal(outputBaud).Some?
                      && inputOpens && outputOpens)
      ensures !old(running) && running ==>
        inputPort == ExtractPortName(inputSel) && outputPort == ExtractPortName(outputSel)
      ensures old(running) ==> inputPort == old(inputPort) && outputPort == old(outputPort)
    {
      if !running {
        var ok := Start(inputSel, outputSel, inputBaud, outputBaud, inputOpens, outputOpens);
        if ok {
          running := true;
        }
      } else {
        Stop();
        running := false;
      }
    }

    /** `process_data`: the scan goes to the output port as it is, without a line terminator. */
    method ProcessData(data: string)
      modifies this`written
      ensures written == old(written) + if outputOpen then [data] else []
    {
      if outputOpen {
        written := written + [data];
      }
    }

    /** `handle_usb_input`: one key from a USB scanner. */
    method HandleKey(name: string)
      modifies this`usbBuffer, this`written
      ensures var r := OnKey(running, old(usbBuffer), name);
        && usbBuffer == r.buffer
        && written == old(written) + if r.forward.Some? && outputOpen then [r.forward.value] else []
    {
      if !running {
        return;
      }
      if name == "enter" {
        if usbBuffer != "" {
          ProcessData(usbBuffer);
          usbBuffer := "";
        }
      } else if |name| == 1 {
        usbBuffer := usbBuffer + name;
      }
    }
  }
}
