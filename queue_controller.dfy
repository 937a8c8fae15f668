/**
  The queue-checking controller: scans must arrive in the order of a master
  list, whose head is consumed by each matching scan.  A scan that does not
  match the head (or arrives when the list is empty) sends both relays off
  and stops listening.

  The pure part states what one scan and a run of scans do; the class
  `Controller` holds the application's fields and updates them as the
  source does, each method proved against the pure part.
*/
module QueueController {
  import opened Wrappers
  import opened Text
  import opened Relay
  import opened Keyboard

  // ---------------------------------------------------------------------------
  // Validation against the head of the queue
  // ---------------------------------------------------------------------------

  /** The validator's answer and the queue it leaves. */
  datatype Validation = Validation(ok: bool, queue: seq<string>)

  /**
    `validate_barcode`: the stripped scan must equal the head of the queue;
    a match pops exactly that head, anything else leaves the queue alone.
  */
  function Validate(queue: seq<string>, data: string): (v: Validation)
    ensures v.ok <==> queue != [] && Strip(data) == queue[0]
    ensures v.ok ==> queue == [Strip(data)] + v.queue
    ensures !v.ok ==> v.queue == queue
  {
    if queue == [] then Validation(false, queue)
    else if Strip(data) == queue[0] then Validation(true, queue[1..])
    else Validation(false, queue)
  }

  // ---------------------------------------------------------------------------
  // The reading loop, one line at a time
  // ---------------------------------------------------------------------------

  /** The loop's view of the controller: the queue, `last_barcode`, the frames written, and whether it ended. */
  datatype Progress = Progress(queue: seq<string>, last: string, written: seq<string>, halted: bool)

  /** One line read from the scanner: blank lines are skipped, others validated and dispatched. */
  function Scan(p: Progress, line: string, switchText: string): (q: Progress) {
    var data := Strip(line);
    if data == "" then p
    else
      var v := Validate(p.queue, data);
      var o := Dispatch(v.ok, Strip(data), p.last, switchText);
      Progress(v.queue, o.last, p.written + o.frames, o.halt)
  }

  /** The loop over the lines read, up to the first failed validation. */
  function Run(p: Progress, switchText: string, lines: seq<string>): (r: Progress)
    decreases |lines|
  {
    if lines == [] || p.halted then p
    else Run(Scan(p, lines[0], switchText), switchText, lines[1..])
  }

  /** A non-blank line is validated and dispatched as its stripped text (stripping again changes nothing). */
  lemma ScanNonBlank(p: Progress, line: string, switchText: string)
    requires Strip(line) != ""
    ensures var data := Strip(line);
      var v := Validate(p.queue, data);
      var o := Dispatch(v.ok, data, p.last, switchText);
      && v == Validate(p.queue, Strip(data))
      && Scan(p, line, switchText) == Progress(v.queue, o.last, p.written + o.frames, o.halt)
  {
    StripIdempotent(line);
  }

  /** A scan that is not the head of the queue (or meets an empty queue) writes the fail-safe frames and halts. */
  lemma ScanMismatch(p: Progress, line: string, switchText: string)
    requires Strip(line) != ""
    requires p.queue == [] || Strip(line) != p.queue[0]
    ensures Scan(p, line, switchText) == p.(written := p.written + FailSafeFrames(), halted := true)
  {
    StripIdempotent(line);
  }

  /** A scan equal to the head pops it; a repeat of `last_barcode` writes nothing yet still consumes the head. */
  lemma ScanMatch(p: Progress, line: string, switchText: string)
    requires Strip(line) != "" && p.queue != [] && Strip(line) == p.queue[0]
    ensures var q := Scan(p, line, switchText);
      && q.queue == p.queue[1..] && !q.halted
      && (Strip(line) == p.last ==> q.written == p.written && q.last == p.last)
      && (Strip(line) != p.last && ParseDecimal(switchText).Some? ==>
            q.written == p.written + PulseFrames(ParseDecimal(switchText).value) && q.last == Strip(line))
  {
    StripIdempotent(line);
  }

  /**
    With an empty switch entry (which the entry's validator allows) a
    matching new scan still pops the head, but `int("")` fails before any
    frame is written, so no pulse is sent and `last_barcode` stays.
  */
  lemma ScanEmptySwitch(p: Progress, line: string)
    requires !p.halted
    requires Strip(line) != "" && p.queue != [] && Strip(line) == p.queue[0] && Strip(line) != p.last
    ensures Scan(p, line, "") == p.(queue := p.queue[1..])
  {
    StripIdempotent(line);
    assert p.written + [] == p.written;
  }

  /** The frames the in-order scanning of `entries` produces, starting from `last`. */
  function Pulses(last: string, entries: seq<string>, switch: int): (frames: seq<string>)
    decreases |entries|
  {
    if entries == [] then []
    else (if entries[0] != last then PulseFrames(switch) else []) + Pulses(entries[0], entries[1..], switch)
  }

  /** Scanning the head entry of a clean queue pops it and pulses unless it repeats `last_barcode`. */
  lemma ScanHead(p: Progress, switchText: string)
    requires !p.halted && ParseDecimal(switchText).Some? && p.queue != [] && CleanLines(p.queue) == p.queue
    ensures var e, n := p.queue[0], ParseDecimal(switchText).value;
      Scan(p, e, switchText) ==
        Progress(p.queue[1..], e, p.written + (if e != p.last then PulseFrames(n) else []), false)
    ensures CleanLines(p.queue[1..]) == p.queue[1..]
  {
    CleanLinesCons(p.queue);
    ScanMatch(p, p.queue[0], switchText);
    assert p.written + [] == p.written;
  }

  /** The in-order run after its first step. */
  lemma RunInOrderStep(p: Progress, switchText: string)
    requires !p.halted && ParseDecimal(switchText).Some? && p.queue != [] && CleanLines(p.queue) == p.queue
    ensures var e, n := p.queue[0], ParseDecimal(switchText).value;
      var head := if e != p.last then PulseFrames(n) else [];
      && Run(p, switchText, p.queue) == Run(Progress(p.queue[1..], e, p.written + head, false), switchText, p.queue[1..])
      && Pulses(p.last, p.queue, n) == head + Pulses(e, p.queue[1..], n)
    ensures CleanLines(p.queue[1..]) == p.queue[1..]
  {
    ScanHead(p, switchText);
  }

  /**
    Scanning exactly the queued entries, in order, empties the queue without
    halting, pulses once for every entry that differs from its predecessor,
    and leaves the last entry as `last_barcode`.
  */
  lemma {:induction false} RunInOrder(p: Progress, switchText: string)
    requires !p.halted && ParseDecimal(switchText).Some?
    requires CleanLines(p.queue) == p.queue
    ensures var r := Run(p, switchText, p.queue);
      && r.queue == [] && !r.halted
      && r.written == p.written + Pulses(p.last, p.queue, ParseDecimal(switchText).value)
      && r.last == (if p.queue == [] then p.last else p.queue[|p.queue| - 1])
    decreases |p.queue|
  {
    if p.queue != [] {
      var e := p.queue[0];
      var n := ParseDecimal(switchText).value;
      var head := if e != p.last then PulseFrames(n) else [];
      RunInOrderStep(p, switchText);
      RunInOrder(Progress(p.queue[1..], e, p.written + head, false), switchText);
      SeqAssoc(p.written, head, Pulses(e, p.queue[1..], n));
    } else {
      assert p.written + [] == p.written;
    }
  }

  /** Regrouping a concatenation; stated as a lemma so the in-order run proof stays small. */
  lemma SeqAssoc<T>(a: seq<T>, b: seq<T>, c: seq<T>)
    ensures a + b + c == a + (b + c)
  {
  }

  /** When neighbouring entries differ (and the first differs from `last_barcode`) every entry gets its own pulse. */
  lemma {:induction false} PulsesDistinct(last: string, entries: seq<string>, switch: int)
    requires entries != [] ==> entries[0] != last
    requires forall i :: 0 < i < |entries| ==> entries[i] != entries[i - 1]
    ensures |Pulses(last, entries, switch)| == 2 * |entries|
    decreases |entries|
  {
    if entries != [] {
      var tail := entries[1..];
      assert forall i :: 0 < i < |tail| ==> tail[i] == entries[i + 1] && tail[i - 1] == entries[i];
      PulsesDistinct(entries[0], tail, switch);
    }
  }

  /** The loop only ever consumes from the front: the queue it leaves is a suffix of the one it got. */
  lemma {:induction false} RunQueueSuffix(p: Progress, switchText: string, lines: seq<string>)
    ensures var r := Run(p, switchText, lines);
      |r.queue| <= |p.queue| && r.queue == p.queue[|p.queue| - |r.queue|..]
    decreases |lines|
  {
    if lines != [] && !p.halted {
      var q := Scan(p, lines[0], switchText);
      RunQueueSuffix(q, switchText, lines[1..]);
      var r := Run(q, switchText, lines[1..]);
      assert q.queue == p.queue[|p.queue| - |q.queue|..];
      assert r.queue == q.queue[|q.queue| - |r.queue|..];
    }
  }

  /** Frames are only appended, never withdrawn. */
  lemma {:induction false} RunAppends(p: Progress, switchText: string, lines: seq<string>)
    ensures p.written <= Run(p, switchText, lines).written
    decreases |lines|
  {
    if lines != [] && !p.halted {
      RunAppends(Scan(p, lines[0], switchText), switchText, lines[1..]);
    }
  }

  /**
    The relays are left open after every run: each pulse closes a relay and
    opens it again, and a failed validation opens both.
  */
  lemma {:induction false} RunKeepsRelaysOpen(p: Progress, switchText: string, lines: seq<string>)
    requires After(AllOff, p.written) == AllOff
    ensures After(AllOff, Run(p, switchText, lines).written) == AllOff
    decreases |lines|
  {
    if lines != [] && !p.halted {
      var data := Strip(lines[0]);
      var q := Scan(p, lines[0], switchText);
      if data != "" {
        var v := Validate(p.queue, data);
        var o := Dispatch(v.ok, Strip(data), p.last, switchText);
        AfterConcat(AllOff, p.written, o.frames);
        DispatchKeepsRelaysOpen(v.ok, Strip(data), p.last, switchText);
      }
      RunKeepsRelaysOpen(q, switchText, lines[1..]);
    }
  }

  /** Each pulse costs a queue entry: at most two frames per consumed entry, plus the two fail-safe frames. */
  lemma {:induction false} RunFramesBounded(p: Progress, switchText: string, lines: seq<string>)
    ensures var r := Run(p, switchText, lines);
      |r.written| - |p.written| <= 2 * (|p.queue| - |r.queue|) + (if r.halted && !p.halted then 2 else 0)
    decreases |lines|
  {
    if lines != [] && !p.halted {
      var q := Scan(p, lines[0], switchText);
      RunFramesBounded(q, switchText, lines[1..]);
      if q.halted {
        assert Run(q, switchText, lines[1..]) == q;
      }
    }
  }

  // ---------------------------------------------------------------------------
  // The application object
  // ---------------------------------------------------------------------------

  const NoPorts: string := "No COM Ports Found"

  /** A line number of the Tk text widget (Tk counts lines from 1). */
  type LineNumber = n: int | 1 <= n witness 1

  class Controller {
    /** The queue of expected scans. */
    var barcodeList: seq<string>
    /** The text of the master-list widget, without the newline Tk adds at its end. */
    var inputText: string
    var lastBarcode: string
    /** The switch entry, as typed. */
    var switchNumber: string
    var running: bool
    var inputOpen: bool
    var outputOpen: bool
    var inputPort: string
    var outputPort: string
    /** Everything written to the output port, in order. */
    var written: seq<string>
    var usbBuffer: string

    /** The master list is the cleaned text of its widget, and the switch entry passed its validator. */
    predicate Consistent()
      reads this`barcodeList, this`inputText, this`switchNumber
    {
      barcodeList == CleanLines(Split(inputText)) && ValidateSwitchInput(switchNumber)
    }

    /** Both ports are open exactly while listening. */
    predicate Valid()
      reads this`barcodeList, this`inputText, this`switchNumber, this`running, this`inputOpen, this`outputOpen
    {
      Consistent() && inputOpen == running && outputOpen == running
    }

    function State(): (p: Progress)
      reads this`barcodeList, this`lastBarcode, this`written
    {
      Progress(barcodeList, lastBarcode, written, false)
    }

    constructor ()
      ensures Valid() && !running
      ensures barcodeList == [] && inputText == "" && lastBarcode == "" && switchNumber == "1"
      ensures written == [] && usbBuffer == ""
    {
      barcodeList := [];
      inputText := "";
      lastBarcode := "";
      switchNumber := "1";
      running := false;
      inputOpen := false;
      outputOpen := false;
      inputPort := "";
      outputPort := "";
      written := [];
      usbBuffer := "";
      assert Split("") == [""];
      StripSpec("");
    }

    /** A keystroke in the switch entry: Tk keeps the proposed text only when the validator accepts it. */
    method EditSwitch(proposed: string)
      requires Valid()
      modifies this`switchNumber
      ensures Valid()
      ensures switchNumber == if ValidateSwitchInput(proposed) then proposed else old(switchNumber)
    {
      if ValidateSwitchInput(proposed) {
        switchNumber := proposed;
      }
    }

    /**
      `validate_input_text` after the widget text became `text`: the list is
      rebuilt from the stripped, non-empty lines, and the widget is rewritten
      with them one per line when that differs from its stripped content.
    */
    method LoadList(text: string)
      requires Valid()
      modifies this`barcodeList, this`inputText
      ensures Valid()
      ensures barcodeList == CleanLines(Split(text))
      ensures var content := Strip(text + "\n");
        inputText == if content != Join(barcodeList) then Join(barcodeList) else text
    {
      var content := Strip(text + "\n");
      var cleaned := CleanLines(Split(content));
      CleanLinesIgnoreOuterStrip(text);
      barcodeList := cleaned;
      var newContent := Join(cleaned);
      inputText := text;
      if content != newContent {
        inputText := newContent;
        SplitNoNewlines(text);
        ListIsDisplayable(Split(text));
        DisplayRoundTrip(cleaned);
      }
    }

    /** `validate_barcode` followed by the widget refresh it schedules after a match. */
    method ValidateBarcode(data: string) returns (ok: bool)
      requires Valid()
      modifies this`barcodeList, this`inputText
      ensures Valid()
      ensures var v := Validate(old(barcodeList), data);
        ok == v.ok && barcodeList == v.queue
      ensures inputText == if ok then Join(barcodeList) else old(inputText)
    {
      if barcodeList == [] {
        return false;
      }
      var scan := Strip(data);
      if scan == barcodeList[0] {
        DisplayAfterPop(inputText);
        barcodeList := barcodeList[1..];
        inputText := Join(barcodeList);
        return true;
      }
      return false;
    }

    /**
      One non-blank scan while listening (the body of the reading loop):
      validate, then pulse, skip, or send the fail-safe frames and report
      that the loop must end.
    */
    method ProcessLine(line: string) returns (halt: bool)
      requires Valid() && running
      modifies this`barcodeList, this`inputText, this`lastBarcode, this`written
      ensures Valid() && running
      ensures Progress(barcodeList, lastBarcode, written, halt) == Scan(old(State()), line, switchNumber)
      ensures |barcodeList| <= |old(barcodeList)|
      ensures inputText == if |barcodeList| < |old(barcodeList)| then Join(barcodeList) else old(inputText)
    {
      ghost var before := State();
      var data := Strip(line);
      halt := false;
      if data == "" {
        return;
      }
      ScanNonBlank(before, line, switchNumber);
      var ok := ValidateBarcode(data);
      if ok {
        if Strip(data) != lastBarcode {
          var parsed := ParseDecimal(switchNumber);
          if parsed.Some? {
            var command := OnCommand(parsed.value);
            written := written + [Frame(command)];
            lastBarcode := Strip(data);
            written := written + [Frame(OffOf(command))];
            PulseWritten(before.written, parsed.value);
            return;
          }
        }
        assert written == before.written + [];
      } else {
        written := written + [Frame(Off1)];
        written := written + [Frame(Off2)];
        halt := true;
        FailSafeWritten(before.written);
      }
    }

    /**
      The reading loop over the lines the scanner delivers while listening.
      On a failed validation the loop returns and `toggle_listen` runs, which
      stops listening.
    */
    method Listen(lines: seq<string>)
      requires Valid() && running
      modifies this`barcodeList, this`inputText, this`lastBarcode, this`written, this`running,
               this`inputOpen, this`outputOpen, this`inputPort, this`outputPort
      ensures Valid()
      ensures var r := Run(old(State()), switchNumber, lines);
        && barcodeList == r.queue && lastBarcode == r.last
        && written == r.written + (if r.halted then FailSafeFrames() else [])
        && running == !r.halted
      ensures inputText == if |barcodeList| < |old(barcodeList)| then Join(barcodeList) else old(inputText)
      ensures inputPort == old(inputPort) && outputPort == old(outputPort)
    {
      var halted := ReadLines(lines);
      if halted {
        ToggleListen("", "", "", "", false, false);
      }
    }

    /** The `while` loop of `read_serial_data`: one `ProcessLine` per line until a scan fails. */
    method ReadLines(lines: seq<string>) returns (halted: bool)
      requires Valid() && running
      modifies this`barcodeList, this`inputText, this`lastBarcode, this`written
      ensures Valid() && running
      ensures Progress(barcodeList, lastBarcode, written, halted) == Run(old(State()), switchNumber, lines)
      ensures |barcodeList| <= |old(barcodeList)|
      ensures inputText == if |barcodeList| < |old(barcodeList)| then Join(barcodeList) else old(inputText)
    {
      var i := 0;
      halted := false;
      while i < |lines| && !halted
        invariant 0 <= i <= |lines|
        invariant Valid() && running
        invariant |barcodeList| <= |old(barcodeList)|
        invariant inputText == if |barcodeList| < |old(barcodeList)| then Join(barcodeList) else old(inputText)
        invariant Run(Progress(barcodeList, lastBarcode, written, halted), switchNumber, lines[i..])
               == Run(old(State()), switchNumber, lines)
        decreases |lines| - i, !halted
      {
        assert lines[i..][1..] == lines[i + 1..];
        halted := ProcessLine(lines[i]);
        i := i + 1;
      }
      if !halted {
        assert lines[i..] == [];
      }
    }

    /** `stop_listening`: both OFF frames while the output is open, then everything closed. */
    method Stop()
      requires Consistent()
      modifies this`written, this`running, this`inputOpen, this`outputOpen
      ensures Consistent() && !running && !inputOpen && !outputOpen
      ensures written == old(written) + if old(outputOpen) then FailSafeFrames() else []
    {
      if outputOpen {
        written := written + [Frame(Off1)];
        written := written + [Frame(Off2)];
      }
      running := false;
      inputOpen := false;
      outputOpen := false;
    }

    /**
      `start_listening`. The port selections, the baud-rate texts, and
      whether the operating system lets each port open are its inputs.
    */
    method Start(inputSel: string, outputSel: string, inputBaud: string, outputBaud: string,
                 inputOpens: bool, outputOpens: bool) returns (ok: bool)
      requires Valid() && !running
      modifies this`written, this`running, this`inputOpen, this`outputOpen, this`inputPort, this`outputPort
      ensures Consistent() && !running && written == old(written)
      ensures ok <==> inputSel != NoPorts && outputSel != NoPorts
                      && ParseDecimal(inputBaud).Some? && ParseDecimal(outputBaud).Some?
                      && inputOpens && outputOpens
      ensures inputOpen == ok && outputOpen == ok
      ensures ok ==> inputPort == ExtractPortName(inputSel) && outputPort == ExtractPortName(outputSel)
    {
      if inputSel == NoPorts || outputSel == NoPorts {
        return false;
      }
      var inputName := ExtractPortName(inputSel);
      var outputName := ExtractPortName(outputSel);
      if ParseDecimal(inputBaud).None? || ParseDecimal(outputBaud).None? {
        return false;
      }
      if !inputOpens {
        Stop();
        return false;
      }
      inputOpen := true;
      inputPort := inputName;
      if !outputOpens {
        Stop();
        return false;
      }
      outputOpen := true;
      outputPort := outputName;
      return true;
    }

    /** `toggle_listen`: start when idle (listening only if the start succeeds), stop when listening. */
    method ToggleListen(inputSel: string, outputSel: string, inputBaud: string, outputBaud: string,
                        inputOpens: bool, outputOpens: bool)
      requires Valid()
      modifies this`written, this`running, this`inputOpen, this`outputOpen, this`inputPort, this`outputPort
      ensures Valid()
      ensures old(running) ==> !running && written == old(written) + FailSafeFrames()
      ensures !old(running) ==> written == old(written)
      ensures !old(running) ==>
        (running <==> inputSel != NoPorts && outputSel != NoPorts
                      && ParseDecimal(inputBaud).Some? && ParseDecimal(outputBaud).Some?
                      && inputOpens && outputOpens)
      ensures !old(running) && running ==>
        inputPort == ExtractPortName(inputSel) && outputPort == ExtractPortName(outputSel)
      ensures old(running) ==> inputPort == old(inputPort) && outputPort == old(outputPort)
    {
      if !running {
        var ok := Start(inputSel, outputSel, inputBaud, outputBaud, inputOpens, outputOpens);
        if ok {
          running := true;
        }
      } else {
        Stop();
        running := false;
      }
    }

    /** `process_data`: the scan goes to the output port as it is, without a line terminator. */
    method ProcessData(data: string)
      modifies this`written
      ensures written == old(written) + if outputOpen then [data] else []
    {
      if outputOpen {
        written := written + [data];
      }
    }

    /** `handle_usb_input`: one key from a USB scanner. */
    method HandleKey(name: string)
      modifies this`usbBuffer, this`written
      ensures var r := OnKey(running, old(usbBuffer), name);
        && usbBuffer == r.buffer
        && written == old(written) + if r.forward.Some? && outputOpen then [r.forward.value] else []
    {
      if !running {
        return;
      }
      if name == "enter" {
        if usbBuffer != "" {
          ProcessData(usbBuffer);
          usbBuffer := "";
        }
      } else if |name| == 1 {
        usbBuffer := usbBuffer + name;
      }
    }

    /**
      `move_barcode_up` with the selection starting on line `selection`
      (`None` when nothing is selected): the line swaps with the one above.
    */
    method MoveUp(selection: Option<LineNumber>)
      requires Valid()
      modifies this`barcodeList, this`inputText
      ensures Valid()
      ensures multiset(barcodeList) == multiset(old(barcodeList))
      ensures var lines := Split(old(inputText));
        if !running && selection.Some? && 1 < selection.value <= |lines| then
          var swapped := SwapAdjacent(lines, selection.value - 2);
          inputText == Join(swapped) && barcodeList == CleanLines(swapped)
        else
          inputText == old(inputText) && barcodeList == old(barcodeList)
    {
      if running || selection.None? {
        return;
      }
      var line := selection.value;
      var lines := Split(inputText);
      if 1 < line <= |lines| {
        SwapLines(lines, line - 2);
      }
    }

    /**
      `move_barcode_down` with the selection starting on line `selection`:
      the line swaps with the one below, unless it is the last line.
    */
    method MoveDown(selection: Option<LineNumber>)
      requires Valid()
      modifies this`barcodeList, this`inputText
      ensures Valid()
      ensures multiset(barcodeList) == multiset(old(barcodeList))
      ensures var lines := Split(old(inputText));
        if !running && selection.Some? && selection.value < |lines| then
          var swapped := SwapAdjacent(lines, selection.value - 1);
          inputText == Join(swapped) && barcodeList == CleanLines(swapped)
        else
          inputText == old(inputText) && barcodeList == old(barcodeList)
    {
      if running || selection.None? {
        return;
      }
      var line := selection.value;
      var lines := Split(inputText);
      if line < |lines| {
        SwapLines(lines, line - 1);
      }
    }

    /** The common step of both moves: rewrite the widget with two lines swapped and rebuild the list. */
    method SwapLines(lines: seq<string>, i: nat)
      requires Valid() && lines == Split(inputText) && i + 1 < |lines|
      modifies this`barcodeList, this`inputText
      ensures Valid()
      ensures inputText == Join(SwapAdjacent(lines, i))
      ensures barcodeList == CleanLines(SwapAdjacent(lines, i))
      ensures multiset(barcodeList) == multiset(old(barcodeList))
    {
      var swapped := SwapAdjacent(lines, i);
      SwapLinesRoundTrip(inputText, i);
      CleanLinesSwapMultiset(lines, i);
      inputText := Join(swapped);
      barcodeList := CleanLines(swapped);
    }

    /** `clear_barcodes`: when idle and confirmed, the widget and the list are emptied. */
    method Clear(confirmed: bool)
      requires Valid()
      modifies this`barcodeList, this`inputText
      ensures Valid()
      ensures if !running && confirmed then inputText == "" && barcodeList == []
              else inputText == old(inputText) && barcodeList == old(barcodeList)
    {
      if running || !confirmed {
        return;
      }
      inputText := "";
      barcodeList := [];
      assert Split("") == [""];
      StripSpec("");
    }
  }

  /** After the head is popped, the remaining list shown one per line reads back as itself. */
  lemma DisplayAfterPop(text: string)
    requires CleanLines(Split(text)) != []
    ensures var rest := CleanLines(Split(text))[1..];
      CleanLines(Split(Join(rest))) == rest
  {
    var list := CleanLines(Split(text));
    SplitNoNewlines(text);
    ListIsDisplayable(Split(text));
    var rest := list[1..];
    assert forall i :: 0 <= i < |rest| ==> rest[i] == list[i + 1];
    DisplayRoundTrip(rest);
  }

  /** Every entry cleaned from widget lines is a stripped, non-empty string without a line break. */
  lemma ListIsDisplayable(lines: seq<string>)
    requires forall i :: 0 <= i < |lines| ==> NoNewline(lines[i])
    ensures var list := CleanLines(lines);
      forall i :: 0 <= i < |list| ==> IsEntry(list[i]) && NoNewline(list[i])
  {
    CleanLinesEntries(lines);
    CleanLinesNoNewline(lines);
  }
}
