/**
  The relay protocol both controller variants speak on the output port, and
  the decision each of them takes for one received scan: a pulse on the
  configured switch, nothing (debounce), or the fail-safe "both off".

  A frame is an ASCII command followed by "\r\n".  `@ON0s$` closes relay
  `s`, `@OFF0s$` opens it.
*/
module Relay {
  import opened Wrappers
  import opened Text

  const Terminator: string := "\r\n"
  const Off1: string := "@OFF01$"
  const Off2: string := "@OFF02$"

  /** A command as written to the port. */
  function Frame(cmd: string): (frame: string) {
    cmd + Terminator
  }

  /** The ON command chosen from the parsed switch number: switch 1, or switch 2 for any other number. */
  function OnCommand(switch: int): (cmd: string) {
    if switch == 1 then "@ON01$" else "@ON02$"
  }

  /** `pat` occurs in `s` starting at position `k`. */
  predicate OccursAt(s: string, pat: string, k: nat) {
    k + |pat| <= |s| && s[k..k + |pat|] == pat
  }

  /** Python's `s.replace(pat, rep)`: every non-overlapping occurrence, scanning left to right. */
  function Replace(s: string, pat: string, rep: string): (r: string)
    requires pat != []
    decreases |s|
  {
    if |s| < |pat| then s
    else if OccursAt(s, pat, 0) then rep + Replace(s[|pat|..], pat, rep)
    else [s[0]] + Replace(s[1..], pat, rep)
  }

  /** Replacing a pattern that occurs nowhere changes nothing. */
  lemma {:induction false} ReplaceAbsent(s: string, pat: string, rep: string)
    requires pat != []
    requires forall k: nat :: !OccursAt(s, pat, k)
    ensures Replace(s, pat, rep) == s
    decreases |s|
  {
    if |s| >= |pat| {
      assert !OccursAt(s, pat, 0);
      forall k: nat ensures !OccursAt(s[1..], pat, k) {
        if k + |pat| <= |s[1..]| {
          assert s[1..][k..k + |pat|] == s[k + 1..k + 1 + |pat|];
          assert !OccursAt(s, pat, k + 1);
        }
      }
      ReplaceAbsent(s[1..], pat, rep);
      assert [s[0]] + s[1..] == s;
    }
  }

  /** The OFF command matching an ON command: `command.replace('ON', 'OFF')`. */
  function OffOf(cmd: string): (off: string) {
    Replace(cmd, "ON", "OFF")
  }

  /** The two frames of a pulse: ON, then the same command with "ON" turned into "OFF". */
  function PulseFrames(switch: int): (frames: seq<string>) {
    var cmd := OnCommand(switch);
    [Frame(cmd), Frame(OffOf(cmd))]
  }

  /** The fail-safe frames: relay 1 off, then relay 2 off. */
  function FailSafeFrames(): (frames: seq<string>) {
    [Frame(Off1), Frame(Off2)]
  }

  /** The rewrite of one ON command `@ON0d$`: only its "ON" is replaced. */
  lemma OffOfDigit(d: char)
    requires d == '1' || d == '2'
    ensures OffOf(['@', 'O', 'N', '0', d, '$']) == ['@', 'O', 'F', 'F', '0', d, '$']
  {
    var cmd := ['@', 'O', 'N', '0', d, '$'];
    assert !OccursAt(cmd, "ON", 0) by { assert cmd[0..2][0] == '@'; }
    var u := cmd[1..];
    assert u == ['O', 'N', '0', d, '$'];
    assert OccursAt(u, "ON", 0) by { assert u[0..2] == "ON"; }
    var t := ['0', d, '$'];
    assert u[2..] == t;
    assert !OccursAt(t, "ON", 0) by { assert t[0..2][0] == '0'; }
    var v := t[1..];
    assert v == [d, '$'];
    assert !OccursAt(v, "ON", 0) by { assert v[0..2][0] == d; }
    assert v[1..] == ['$'];
    assert Replace(['$'], "ON", "OFF") == ['$'];
    assert Replace(v, "ON", "OFF") == v;
    assert Replace(t, "ON", "OFF") == t;
    assert Replace(u, "ON", "OFF") == "OFF" + t;
  }

  /** The ON/OFF rewrite turns each ON command into the OFF command of the same relay. */
  lemma OffOfOnCommand(switch: int)
    ensures OffOf(OnCommand(switch)) == if switch == 1 then Off1 else Off2
  {
    if switch == 1 {
      OffOfDigit('1');
      assert OnCommand(switch) == ['@', 'O', 'N', '0', '1', '$'];
      assert Off1 == ['@', 'O', 'F', 'F', '0', '1', '$'];
    } else {
      OffOfDigit('2');
      assert OnCommand(switch) == ['@', 'O', 'N', '0', '2', '$'];
      assert Off2 == ['@', 'O', 'F', 'F', '0', '2', '$'];
    }
  }

  /** Every pulse is exactly `@ON0s$\r\n` then `@OFF0s$\r\n` for switch s in {1, 2}. */
  lemma PulseFramesLiteral(switch: int)
    ensures switch == 1 ==> PulseFrames(switch) == ["@ON01$\r\n", "@OFF01$\r\n"]
    ensures switch != 1 ==> PulseFrames(switch) == ["@ON02$\r\n", "@OFF02$\r\n"]
  {
    OffOfOnCommand(switch);
    assert Frame("@ON01$") == "@ON01$\r\n" && Frame(Off1) == "@OFF01$\r\n";
    assert Frame("@ON02$") == "@ON02$\r\n" && Frame(Off2) == "@OFF02$\r\n";
  }

  /** Writing the ON frame and then its OFF frame appends one pulse. */
  lemma PulseWritten(w: seq<string>, switch: int)
    ensures w + [Frame(OnCommand(switch))] + [Frame(OffOf(OnCommand(switch)))] == w + PulseFrames(switch)
  {
  }

  /** Writing the OFF frame of relay 1 and then that of relay 2 appends the fail-safe frames. */
  lemma FailSafeWritten(w: seq<string>)
    ensures w + [Frame(Off1)] + [Frame(Off2)] == w + FailSafeFrames()
  {
  }

  // ---------------------------------------------------------------------------
  // The decision for one scan
  // ---------------------------------------------------------------------------

  /** What one scan produces: the frames written, the new `last_barcode`, and whether the loop ends. */
  datatype Outcome = Outcome(frames: seq<string>, last: string, halt: bool)

  /**
    The success/failure branch of the reading loop for a non-empty scan.
    `valid` is the validator's answer, `scan` the stripped scan, `last` the
    previous `last_barcode`, and `switchText` the switch entry as typed.
    `int()` of the switch text fails on "" (which the entry allows); the
    loop's `except` then only logs, so nothing is written and nothing changes.
  */
  function Dispatch(valid: bool, scan: string, last: string, switchText: string): (r: Outcome)
    ensures r.halt <==> !valid
    ensures !valid ==> r.frames == FailSafeFrames() && r.last == last
    ensures valid && scan == last ==> r.frames == [] && r.last == last
    ensures valid && scan != last ==>
      match ParseDecimal(switchText)
      case None => r.frames == [] && r.last == last
      case Some(n) => r.frames == PulseFrames(n) && r.last == scan
  {
    if !valid then Outcome(FailSafeFrames(), last, true)
    else if scan == last then Outcome([], last, false)
    else match ParseDecimal(switchText)
      case None => Outcome([], last, false)
      case Some(n) => Outcome(PulseFrames(n), scan, false)
  }

  // ---------------------------------------------------------------------------
  // What the frames do to the two relays
  // ---------------------------------------------------------------------------

  /** The two relays of the I/O controller: closed (`true`) or open. */
  datatype Relays = Relays(on1: bool, on2: bool)

  const AllOff: Relays := Relays(false, false)

  /** The four relay frames are pairwise different texts. */
  lemma FramesDistinct()
    ensures Frame("@ON01$") != Frame("@ON02$")
    ensures Frame(Off1) != Frame(Off2)
    ensures |Frame("@ON01$")| == |Frame("@ON02$")| == 8
    ensures |Frame(Off1)| == |Frame(Off2)| == 9
  {
    assert Frame("@ON01$")[4] == '1' && Frame("@ON02$")[4] == '2';
    assert Frame(Off1)[5] == '1' && Frame(Off2)[5] == '2';
  }

  /** The effect of one frame on the relays; any other text leaves them alone. */
  function Apply(rel: Relays, frame: string): (r: Relays) {
    if frame == Frame("@ON01$") then rel.(on1 := true)
    else if frame == Frame("@ON02$") then rel.(on2 := true)
    else if frame == Frame(Off1) then rel.(on1 := false)
    else if frame == Frame(Off2) then rel.(on2 := false)
    else rel
  }

  /** The relays after a sequence of frames, in order. */
  function After(rel: Relays, frames: seq<string>): (r: Relays)
    decreases |frames|
  {
    if frames == [] then rel else After(Apply(rel, frames[0]), frames[1..])
  }

  /** Writing two batches of frames is writing their concatenation. */
  lemma {:induction false} AfterConcat(rel: Relays, a: seq<string>, b: seq<string>)
    ensures After(rel, a + b) == After(After(rel, a), b)
    decreases |a|
  {
    if a != [] {
      assert (a + b)[1..] == a[1..] + b;
      AfterConcat(Apply(rel, a[0]), a[1..], b);
    } else {
      assert a + b == b;
    }
  }

  /** The fail-safe frames open both relays whatever their state. */
  lemma FailSafeOpensAll(rel: Relays)
    ensures After(rel, FailSafeFrames()) == AllOff
  {
    FramesDistinct();
    assert FailSafeFrames()[1..] == [Frame(Off2)];
  }

  /**
    A pulse closes exactly the selected relay, then opens it again: the
    other relay is untouched and the selected one ends open.
  */
  lemma PulseClosesThenOpens(rel: Relays, switch: int)
    ensures var p := PulseFrames(switch);
      && (switch == 1 ==> Apply(rel, p[0]) == rel.(on1 := true))
      && (switch != 1 ==> Apply(rel, p[0]) == rel.(on2 := true))
      && (switch == 1 ==> After(rel, p) == rel.(on1 := false))
      && (switch != 1 ==> After(rel, p) == rel.(on2 := false))
  {
    PulseFramesLiteral(switch);
    FramesDistinct();
    var p := PulseFrames(switch);
    var closed := Apply(rel, p[0]);
    assert p[1..] == [p[1]] && [p[1]][1..] == [];
    assert After(rel, p) == After(closed, [p[1]]) == Apply(closed, p[1]);
  }

  /** Whatever one scan decides, a controller whose relays were open leaves them open afterwards. */
  lemma DispatchKeepsRelaysOpen(valid: bool, scan: string, last: string, switchText: string)
    ensures After(AllOff, Dispatch(valid, scan, last, switchText).frames) == AllOff
  {
    var r := Dispatch(valid, scan, last, switchText);
    if !valid {
      FailSafeOpensAll(AllOff);
    } else if scan != last && ParseDecimal(switchText).Some? {
      PulseClosesThenOpens(AllOff, ParseDecimal(switchText).value);
    }
  }
}
