/**
  The USB-keyboard scanner path: key names arrive one at a time, single
  characters accumulate in a buffer, and "enter" hands a non-empty buffer
  on as one complete scan.
*/
module Keyboard {
  import opened Wrappers

  /** The buffer after one key, and the scan it completes, if any. */
  datatype KeyResult = KeyResult(buffer: string, forward: Option<string>)

  /** One key press: ignored while not listening; "enter" flushes, a one-character name is appended. */
  function OnKey(running: bool, buffer: string, name: string): (r: KeyResult)
    ensures !running ==> r == KeyResult(buffer, None)
    ensures r.forward.Some? <==> running && name == "enter" && buffer != ""
    ensures r.forward.Some? ==> r.forward.value == buffer && r.buffer == ""
    ensures running && name != "enter" && |name| == 1 ==> r.buffer == buffer + name
    ensures name == "enter" && buffer == "" ==> r.buffer == ""
    ensures name != "enter" && |name| != 1 ==> r.buffer == buffer
  {
    if !running then KeyResult(buffer, None)
    else if name == "enter" then
      if buffer != "" then KeyResult("", Some(buffer)) else KeyResult(buffer, None)
    else if |name| == 1 then KeyResult(buffer + name, None)
    else KeyResult(buffer, None)
  }

  /** The buffer left after a run of keys while listening, and the scans forwarded on the way. */
  datatype KeyLog = KeyLog(buffer: string, sent: seq<string>)

  function Feed(buffer: string, names: seq<string>): (log: KeyLog)
    decreases |names|
  {
    if names == [] then KeyLog(buffer, [])
    else
      var r := OnKey(true, buffer, names[0]);
      var rest := Feed(r.buffer, names[1..]);
      KeyLog(rest.buffer, (if r.forward.Some? then [r.forward.value] else []) + rest.sent)
  }

  /** The characters the keys type: every one-character key name, in order. */
  function Typed(names: seq<string>): (typed: string)
    decreases |names|
  {
    if names == [] then ""
    else (if names[0] != "enter" && |names[0]| == 1 then names[0] else "") + Typed(names[1..])
  }

  /** All forwarded scans, one after the other. */
  function Concat(scans: seq<string>): (text: string)
    decreases |scans|
  {
    if scans == [] then "" else scans[0] + Concat(scans[1..])
  }

  lemma ConcatPrepend(head: seq<string>, rest: seq<string>)
    requires |head| <= 1
    ensures Concat(head + rest) == Concat(head) + Concat(rest)
  {
    if head != [] {
      assert (head + rest)[1..] == rest;
      assert Concat(head) == head[0] + Concat([]);
    } else {
      assert head + rest == rest;
    }
  }

  /** Regrouping a concatenation; stated as a lemma so the conservation proof stays small. */
  lemma Assoc(x: string, y: string, z: string)
    ensures x + (y + z) == (x + y) + z
  {
  }

  /**
    No character is lost or invented: the forwarded scans followed by what is
    still buffered are exactly the old buffer followed by the typed characters.
  */
  lemma {:induction false} FeedConserves(buffer: string, names: seq<string>)
    ensures Concat(Feed(buffer, names).sent) + Feed(buffer, names).buffer == buffer + Typed(names)
    decreases |names|
  {
    if names != [] {
      var r := OnKey(true, buffer, names[0]);
      FeedConserves(r.buffer, names[1..]);
      var rest := Feed(r.buffer, names[1..]);
      var head: seq<string> := if r.forward.Some? then [r.forward.value] else [];
      var typed0: string := if names[0] != "enter" && |names[0]| == 1 then names[0] else "";
      var log := Feed(buffer, names);
      assert log.sent == head + rest.sent && log.buffer == rest.buffer;
      ConcatPrepend(head, rest.sent);
      assert Concat(head) + r.buffer == buffer + typed0 by {
        if r.forward.Some? {
          assert Concat(head) == buffer + Concat([]);
        } else {
          assert Concat(head) == "";
        }
      }
      assert Typed(names) == typed0 + Typed(names[1..]);
      var a, b, c, t := Concat(head), Concat(rest.sent), rest.buffer, Typed(names[1..]);
      Assoc(a, b, c);
      Assoc(a, r.buffer, t);
      Assoc(buffer, typed0, t);
    }
  }

  /** Every forwarded scan holds at least one character. */
  lemma {:induction false} FeedSendsNonEmpty(buffer: string, names: seq<string>)
    ensures forall i :: 0 <= i < |Feed(buffer, names).sent| ==> Feed(buffer, names).sent[i] != ""
    decreases |names|
  {
    if names != [] {
      var r := OnKey(true, buffer, names[0]);
      FeedSendsNonEmpty(r.buffer, names[1..]);
      var rest := Feed(r.buffer, names[1..]);
      var head: seq<string> := if r.forward.Some? then [r.forward.value] else [];
      var log := Feed(buffer, names);
      assert log.sent == head + rest.sent;
      forall i | 0 <= i < |log.sent| ensures log.sent[i] != "" {
        if i >= |head| {
          assert log.sent[i] == rest.sent[i - |head|];
        }
      }
    }
  }

  /** The keys a scanner sends for one barcode: one key per character. */
  function Keys(w: string): (names: seq<string>)
    ensures |names| == |w|
    ensures forall i :: 0 <= i < |w| ==> names[i] == [w[i]]
  {
    if w == [] then [] else [[w[0]]] + Keys(w[1..])
  }

  /** A one-character key only extends the buffer before the remaining keys are fed. */
  lemma FeedCharacter(buffer: string, names: seq<string>)
    requires names != [] && |names[0]| == 1
    ensures Feed(buffer, names) == Feed(buffer + names[0], names[1..])
  {
    assert names[0] != "enter";
  }

  /** "enter" alone forwards a non-empty buffer and leaves it empty. */
  lemma EnterFlushes(buffer: string)
    requires buffer != ""
    ensures Feed(buffer, ["enter"]) == KeyLog("", [buffer])
  {
    assert ["enter"][1..] == [];
  }

  /** Typing a word and pressing "enter" forwards exactly that word and empties the buffer. */
  lemma {:induction false} TypeThenEnter(buffer: string, w: string)
    requires buffer + w != ""
    ensures Feed(buffer, Keys(w) + ["enter"]) == KeyLog("", [buffer + w])
    decreases |w|
  {
    if w == [] {
      assert Keys(w) + ["enter"] == ["enter"];
      assert buffer + w == buffer;
      EnterFlushes(buffer);
    } else {
      var names := Keys(w) + ["enter"];
      assert names[0] == [w[0]];
      assert names[1..] == Keys(w[1..]) + ["enter"];
      FeedCharacter(buffer, names);
      TypeThenEnter(buffer + [w[0]], w[1..]);
      assert buffer + [w[0]] + w[1..] == buffer + w;
    }
  }
}
