/**
 * The keystroke-to-scan decoder of the continuous capture screen
 * (`dispatchKeyEvent`): a USB barcode scanner types the code followed by
 * ENTER; accepted characters accumulate in a buffer and ENTER turns the
 * trimmed buffer into one scan.
 */
module ScanDecoder {

  import opened Wrappers
  import opened Text

  datatype KeyAction = Down | Up | Multiple
  datatype KeyCode = Enter | OtherKey

  /** A key event: its action, whether its key code is ENTER, and its Unicode character. */
  datatype KeyEvent = KeyEvent(action: KeyAction, code: KeyCode, ch: char)

  /**
   * The platform's Unicode character classes `Char.isLetterOrDigit` and
   * `Char.isWhitespace`, kept abstract.
   */
  datatype CharClasses = CharClasses(letterOrDigit: CharTest, whitespace: CharTest)

  /** Characters the buffer takes: letters, digits, `-`, `_` and `.`. */
  predicate Accepted(cc: CharClasses, c: char) {
    cc.letterOrDigit(c) || c == '-' || c == '_' || c == '.'
  }

  /** An ENTER press. */
  predicate IsEnterDown(ev: KeyEvent) {
    ev.action == Down && ev.code == Enter
  }

  /**
   * The decoder's answer to one key event: the new buffer, the scan code it
   * emits (if any) and whether the event was consumed (`return true`) rather
   * than passed on to the default dispatch.
   */
  datatype Decoded = Decoded(buffer: string, scan: Option<string>, consumed: bool)

  /** `dispatchKeyEvent` on the buffer. */
  function DecodeKey(cc: CharClasses, buffer: string, ev: KeyEvent): (d: Decoded)
    ensures ev.action != Down ==> d == Decoded(buffer, None, false)
    ensures ev.action == Down && ev.code != Enter ==>
      d.scan.None? && !d.consumed && buffer <= d.buffer && |d.buffer| <= |buffer| + 1 &&
      (d.buffer == buffer + [ev.ch] <==> Accepted(cc, ev.ch))
    ensures IsEnterDown(ev) ==>
      d.consumed && d.buffer == [] &&
      (d.scan.Some? <==> |Trim(cc.whitespace, buffer)| > 0) &&
      (d.scan.Some? ==> d.scan.value == Trim(cc.whitespace, buffer))
  {
    if ev.action == Down then
      if ev.code == Enter then
        var code := Trim(cc.whitespace, buffer);
        Decoded([], if |code| > 0 then Some(code) else None, true)
      else if Accepted(cc, ev.ch) then Decoded(buffer + [ev.ch], None, false)
      else Decoded(buffer, None, false)
    else Decoded(buffer, None, false)
  }

  /** A run of key events decoded from `buffer`: the final buffer and the scans in order. */
  datatype Run = Run(buffer: string, scans: seq<string>)

  function DecodeAll(cc: CharClasses, buffer: string, keys: seq<KeyEvent>): Run
    decreases |keys|
  {
    if |keys| == 0 then Run(buffer, [])
    else
      var d := DecodeKey(cc, buffer, keys[0]);
      var rest := DecodeAll(cc, d.buffer, keys[1..]);
      Run(rest.buffer, (if d.scan.Some? then [d.scan.value] else []) + rest.scans)
  }

  /** The characters of `keys` that reach the buffer: accepted characters of non-ENTER presses. */
  function Kept(cc: CharClasses, keys: seq<KeyEvent>): string
    decreases |keys|
  {
    if |keys| == 0 then []
    else
      var k := keys[0];
      (if k.action == Down && k.code != Enter && Accepted(cc, k.ch) then [k.ch] else []) + Kept(cc, keys[1..])
  }

  predicate NoEnter(keys: seq<KeyEvent>) {
    forall i :: 0 <= i < |keys| ==> !IsEnterDown(keys[i])
  }

  /** Without an ENTER press nothing is emitted and the kept characters are appended in order. */
  lemma {:induction false} NoEnterAccumulates(cc: CharClasses, buffer: string, keys: seq<KeyEvent>)
    requires NoEnter(keys)
    ensures DecodeAll(cc, buffer, keys) == Run(buffer + Kept(cc, keys), [])
    decreases |keys|
  {
    if |keys| > 0 {
      var d := DecodeKey(cc, buffer, keys[0]);
      NoEnterAccumulates(cc, d.buffer, keys[1..]);
      var k := keys[0];
      if k.action == Down && k.code != Enter && Accepted(cc, k.ch) {
        assert d.buffer + Kept(cc, keys[1..]) == buffer + Kept(cc, keys);
      } else {
        assert Kept(cc, keys) == Kept(cc, keys[1..]);
      }
    }
  }

  /** Keys without an ENTER press in front of a run act as if their kept characters were already buffered. */
  lemma {:induction false} NoEnterPrefix(cc: CharClasses, buffer: string, before: seq<KeyEvent>, rest: seq<KeyEvent>)
    requires NoEnter(before)
    ensures DecodeAll(cc, buffer, before + rest) == DecodeAll(cc, buffer + Kept(cc, before), rest)
    decreases |before|
  {
    if |before| == 0 {
      assert before + rest == rest;
      assert buffer + Kept(cc, before) == buffer;
    } else {
      var d := DecodeKey(cc, buffer, before[0]);
      assert (before + rest)[0] == before[0];
      assert (before + rest)[1..] == before[1..] + rest;
      NoEnterPrefix(cc, d.buffer, before[1..], rest);
      var k := before[0];
      if k.action == Down && k.code != Enter && Accepted(cc, k.ch) {
        assert d.buffer + Kept(cc, before[1..]) == buffer + Kept(cc, before);
      } else {
        assert Kept(cc, before) == Kept(cc, before[1..]);
      }
    }
  }

  /**
   * Decoding splits at the first ENTER press: the keys before it contribute
   * one scan, the trimmed buffer, when that is non-empty, and decoding
   * continues after it from an empty buffer.
   */
  lemma EnterSplits(cc: CharClasses, buffer: string, before: seq<KeyEvent>, enter: KeyEvent, after: seq<KeyEvent>)
    requires NoEnter(before) && IsEnterDown(enter)
    ensures var code := Trim(cc.whitespace, buffer + Kept(cc, before));
      var rest := DecodeAll(cc, [], after);
      DecodeAll(cc, buffer, before + [enter] + after) ==
        Run(rest.buffer, (if |code| > 0 then [code] else []) + rest.scans)
  {
    assert before + [enter] + after == before + ([enter] + after);
    NoEnterPrefix(cc, buffer, before, [enter] + after);
    assert ([enter] + after)[1..] == after;
  }

  /** The buffer never holds a character the decoder does not accept. */
  predicate Clean(cc: CharClasses, buffer: string) {
    forall i :: 0 <= i < |buffer| ==> Accepted(cc, buffer[i])
  }

  /** A scan as the decoder emits it: non-empty, accepted characters, no whitespace at either end. */
  predicate WellFormedScan(cc: CharClasses, code: string) {
    |code| > 0 && Clean(cc, code) && !cc.whitespace(code[0]) && !cc.whitespace(code[|code| - 1])
  }

  /** One key event keeps the buffer clean and emits only a well-formed scan. */
  lemma DecodeKeyWellFormed(cc: CharClasses, buffer: string, ev: KeyEvent)
    requires Clean(cc, buffer)
    ensures var d := DecodeKey(cc, buffer, ev);
      Clean(cc, d.buffer) && (d.scan.Some? ==> WellFormedScan(cc, d.scan.value))
  {
    var d := DecodeKey(cc, buffer, ev);
    if d.scan.Some? {
      TrimSpec(cc.whitespace, buffer);
    }
  }

  /**
   * Every scan the decoder emits is non-empty, made of accepted characters,
   * and neither starts nor ends with whitespace.
   */
  lemma {:induction false} ScansAreWellFormed(cc: CharClasses, buffer: string, keys: seq<KeyEvent>)
    requires Clean(cc, buffer)
    ensures Clean(cc, DecodeAll(cc, buffer, keys).buffer)
    ensures forall j :: 0 <= j < |DecodeAll(cc, buffer, keys).scans| ==>
      WellFormedScan(cc, DecodeAll(cc, buffer, keys).scans[j])
    decreases |keys|
  {
    if |keys| > 0 {
      var d := DecodeKey(cc, buffer, keys[0]);
      DecodeKeyWellFormed(cc, buffer, keys[0]);
      ScansAreWellFormed(cc, d.buffer, keys[1..]);
      var rest := DecodeAll(cc, d.buffer, keys[1..]);
      var head := if d.scan.Some? then [d.scan.value] else [];
      var scans := head + rest.scans;
      assert DecodeAll(cc, buffer, keys) == Run(rest.buffer, scans);
      forall j | 0 <= j < |scans| ensures WellFormedScan(cc, scans[j]) {
        if j >= |head| { assert scans[j] == rest.scans[j - |head|]; }
      }
    }
  }
}
