/**
 * The continuous capture screen (`ContinuousCaptureActivity`) as written: a
 * recording runs until a scan cuts it; the cut segment is renamed to the scan
 * code and a new segment starts at once. A segment that ends without a scan
 * is deleted. The activity's mutable fields become the `Capture` record and
 * each callback becomes one case of `Step`.
 */
module ContinuousCapture {

  import opened Wrappers
  import opened Text
  import opened ScanDecoder
  import opened Recording

  /**
   * The activity's fields: the live `recording` reference, the pending file
   * name set by a scan, the queued restart, the pause flag, the keystroke
   * buffer, the mute preference, whether the camera's video use case is bound
   * (`videoCapture != null`), and the next session id the backend hands out.
   */
  datatype Capture = Capture(
    recording: Option<SessionId>,
    pendingFilename: Option<string>,
    shouldRestart: bool,
    isPaused: bool,
    buffer: string,
    muted: bool,
    cameraBound: bool,
    nextSession: SessionId)

  /** The screen as created: nothing recording, nothing pending. */
  function Initial(muted: bool, cameraBound: bool): Capture {
    Capture(None, None, false, false, [], muted, cameraBound, 0)
  }

  /**
   * Events, serialised on the main thread: key presses, the capture and pause
   * buttons, the confirm buttons of the "Discard Recording?" dialogs, the
   * back button, leaving the app, destruction, and backend callbacks.
   */
  datatype Event =
    | Key(key: KeyEvent)
    | CaptureTapped       // with a recording this only opens the discard dialog
    | DiscardConfirmed    // "Stop & Discard"
    | PauseTapped
    | BackPressed         // with a recording this only opens the exit dialog
    | ExitConfirmed       // "Discard & Exit"
    | UserLeaving
    | Destroyed
    | Backend(event: BackendEvent)

  datatype Transition = Transition(next: Capture, effects: seq<Effect>)

  /**
   * `startRecording`: nothing without a bound camera; otherwise a fresh
   * session becomes the recording and is muted per preference.
   */
  function StartRecording(s: Capture): (t: Transition)
    ensures !s.cameraBound ==> t == Transition(s, [])
    ensures s.cameraBound ==>
      t.next == s.(recording := Some(s.nextSession), nextSession := s.nextSession + 1) &&
      Begun(t.effects) == {s.nextSession} && CountBegins(t.effects) == 1 &&
      !HasRename(t.effects) && !HasDelete(t.effects)
  {
    if !s.cameraBound then Transition(s, [])
    else
      var id := s.nextSession;
      var effects := [Begin(id), Mute(id, s.muted)];
      assert Begun(effects) == {id} by {
        assert effects[0].Begin? && !effects[1].Begin?;
      }
      Transition(s.(recording := Some(id), nextSession := id + 1), effects)
  }

  /** `recording?.stop(); recording = null`. */
  function StopAndForget(s: Capture): (t: Transition)
    ensures t.next.recording.None?
    ensures s.recording.Some? ==> t.effects == [Stop(s.recording.value)]
    ensures s.recording.None? ==> t == Transition(s, [])
    ensures t.next == s.(recording := None)
  {
    match s.recording
    case None => Transition(s, [])
    case Some(id) => Transition(s.(recording := None), [Stop(id)])
  }

  /**
   * `processScan`: without a recording nothing happens; with one, the code
   * plus `.mp4` becomes the pending name, a restart is queued, the recording
   * is stopped and the reference dropped.
   */
  function ProcessScan(s: Capture, code: string): (t: Transition)
    ensures s.recording.None? ==> t == Transition(s, [])
    ensures s.recording.Some? ==>
      t.next == s.(recording := None, pendingFilename := Some(code + ".mp4"), shouldRestart := true) &&
      t.effects == [Stop(s.recording.value)]
  {
    if s.recording.Some? then
      StopAndForget(s.(pendingFilename := Some(code + ".mp4"), shouldRestart := true))
    else Transition(s, [])
  }

  /** A scan right after a scan does nothing: the first one already dropped the reference. */
  lemma SecondScanIsNoOp(s: Capture, first: string, second: string)
    ensures var t := ProcessScan(s, first);
      ProcessScan(t.next, second) == Transition(t.next, [])
  {
  }

  /** `dispatchKeyEvent`: the decoder, then `processScan` for an emitted scan. */
  function OnKey(cc: CharClasses, s: Capture, key: KeyEvent): (t: Transition)
  {
    var d := DecodeKey(cc, s.buffer, key);
    var s1 := s.(buffer := d.buffer);
    match d.scan
    case None => Transition(s1, [])
    case Some(code) => ProcessScan(s1, code)
  }

  /**
   * The file policy of the `Finalize` branch for session `id`. A clean finish
   * renames the output to the pending name (clearing it) or, with no pending
   * name, deletes the output. An error closes whatever recording is
   * referenced at that moment, drops the reference and leaves the pending
   * name alone.
   */
  function FinishSegment(s: Capture, id: SessionId, error: bool, storeOk: bool): (t: Transition)
    // a clean finish with a pending name renames the output and never deletes it
    ensures !error && s.pendingFilename.Some? ==>
      Rename(id, s.pendingFilename.value) in t.effects && !HasDelete(t.effects) &&
      t.next.pendingFilename.None? &&
      (storeOk <==> Notify(SavedAs(s.pendingFilename.value)) in t.effects) &&
      (!storeOk <==> Notify(SavedRenameFailed) in t.effects)
    // a clean finish without a pending name deletes the output and never renames it
    ensures !error && s.pendingFilename.None? ==>
      Delete(id) in t.effects && !HasRename(t.effects) && t.next.pendingFilename.None?
    // an error neither renames nor deletes, and keeps the pending name
    ensures error ==>
      !HasRename(t.effects) && !HasDelete(t.effects) && t.next.pendingFilename == s.pendingFilename &&
      (s.recording.Some? ==> Close(s.recording.value) in t.effects) &&
      (s.recording.None? ==> t.effects == [])
    ensures CountBegins(t.effects) == 0
    ensures t.next.(recording := None, pendingFilename := None) == s.(recording := None, pendingFilename := None)
  {
    if !error then
      match s.pendingFilename
      case Some(name) => Transition(s.(pendingFilename := None), RenameClip(id, name, storeOk))
      case None => Transition(s, DeleteClip(id, storeOk))
    else
      Transition(s.(recording := None), if s.recording.Some? then [Close(s.recording.value)] else [])
  }

  /** Rename the output to `name`, then say whether that worked. */
  function RenameClip(id: SessionId, name: string, storeOk: bool): (effects: seq<Effect>)
    ensures Rename(id, name) in effects && !HasDelete(effects) && CountBegins(effects) == 0
    ensures storeOk <==> Notify(SavedAs(name)) in effects
    ensures !storeOk <==> Notify(SavedRenameFailed) in effects
  {
    var effects := [Rename(id, name), Notify(if storeOk then SavedAs(name) else SavedRenameFailed)];
    assert !effects[0].Delete? && !effects[1].Delete?;
    assert Begun(effects) == {} by {
      assert !effects[0].Begin? && !effects[1].Begin?;
    }
    effects
  }

  /** Delete the output; the notice only when the delete did not throw. */
  function DeleteClip(id: SessionId, storeOk: bool): (effects: seq<Effect>)
    ensures Delete(id) in effects && !HasRename(effects) && CountBegins(effects) == 0
    ensures storeOk <==> Notify(DiscardedNotScanned) in effects
  {
    var effects := [Delete(id)] + (if storeOk then [Notify(DiscardedNotScanned)] else []);
    assert forall i :: 0 <= i < |effects| ==> !effects[i].Rename? && !effects[i].Begin?;
    assert Begun(effects) == {};
    effects
  }

  /**
   * The `Finalize` branch: the file policy, then the reference is dropped
   * and a queued restart is consumed by starting a new recording.
   */
  function OnFinalize(s: Capture, id: SessionId, error: bool, storeOk: bool): (t: Transition)
    ensures !t.next.shouldRestart && !t.next.isPaused
    ensures !error ==> t.next.pendingFilename.None?
    ensures error ==> t.next.pendingFilename == s.pendingFilename
    ensures CountBegins(t.effects) == (if s.shouldRestart && s.cameraBound then 1 else 0)
    ensures s.shouldRestart && s.cameraBound ==>
      t.next.recording == Some(s.nextSession) && Begun(t.effects) == {s.nextSession}
    ensures !(s.shouldRestart && s.cameraBound) ==> t.next.recording.None?
    ensures t.next.nextSession >= s.nextSession && t.next.buffer == s.buffer
  {
    var handled := FinishSegment(s.(isPaused := false), id, error, storeOk);
    var s2 := handled.next.(recording := None);
    if s2.shouldRestart then
      var started := StartRecording(s2.(shouldRestart := false));
      CountBeginsAppend(handled.effects, started.effects);
      Transition(started.next, handled.effects + started.effects)
    else
      Transition(s2, handled.effects)
  }

  /**
   * The calls of the `Finalize` branch begin with the file policy's, and the
   * restart adds no rename and no delete.
   */
  lemma FinalizeFollowsPolicy(s: Capture, id: SessionId, error: bool, storeOk: bool)
    ensures var policy := FinishSegment(s.(isPaused := false), id, error, storeOk).effects;
      var t := OnFinalize(s, id, error, storeOk);
      policy <= t.effects &&
      (HasRename(t.effects) <==> HasRename(policy)) &&
      (HasDelete(t.effects) <==> HasDelete(policy))
  {
    var handled := FinishSegment(s.(isPaused := false), id, error, storeOk);
    var s2 := handled.next.(recording := None);
    if s2.shouldRestart {
      var started := StartRecording(s2.(shouldRestart := false));
      CountBeginsAppend(handled.effects, started.effects);
    }
  }

  /** Leaving the app or destruction: drop the pending name and the restart, then stop. */
  function AbandonRecording(s: Capture): (t: Transition)
    ensures s.recording.None? ==> t == Transition(s, [])
    ensures s.recording.Some? ==>
      t.next == s.(recording := None, pendingFilename := None, shouldRestart := false) &&
      Stop(s.recording.value) in t.effects
  {
    if s.recording.Some? then
      StopAndForget(s.(pendingFilename := None, shouldRestart := false))
    else Transition(s, [])
  }

  /** One event handled by the activity. */
  function Step(cc: CharClasses, s: Capture, ev: Event): Transition
  {
    match ev
    case Key(key) => OnKey(cc, s, key)
    case CaptureTapped =>
      if s.recording.Some? then Transition(s, []) else StartRecording(s)
    case DiscardConfirmed => StopAndForget(s)
    case PauseTapped =>
      (match s.recording
       case None => Transition(s, [])
       case Some(id) => Transition(s, [if s.isPaused then Resume(id) else Pause(id)]))
    case BackPressed =>
      if s.recording.Some? then Transition(s, []) else Transition(s, [Finish])
    case ExitConfirmed =>
      var t := StopAndForget(s);
      Transition(t.next, t.effects + [Finish])
    case UserLeaving =>
      var t := AbandonRecording(s);
      Transition(t.next, t.effects + (if s.recording.Some? then [Notify(DiscardedLeftApp)] else []))
    case Destroyed => AbandonRecording(s)
    case Backend(Started(_)) =>
      Transition(s.(isPaused := false), if s.recording.Some? then [Mute(s.recording.value, s.muted)] else [])
    case Backend(Paused(_)) => Transition(s.(isPaused := true), [])
    case Backend(Resumed(_)) => Transition(s.(isPaused := false), [])
    case Backend(Finalized(id, error, storeOk)) => OnFinalize(s, id, error, storeOk)
  }

  /** The pause button toggles between pause and resume, and only with a recording. */
  lemma PauseToggles(cc: CharClasses, s: Capture)
    ensures var t := Step(cc, s, PauseTapped);
      t.next == s &&
      (s.recording.None? <==> t.effects == []) &&
      (s.recording.Some? && s.isPaused ==> t.effects == [Resume(s.recording.value)]) &&
      (s.recording.Some? && !s.isPaused ==> t.effects == [Pause(s.recording.value)])
  {
  }

  /**
   * Leaving the app (or destruction) while recording, followed by that
   * recording's clean finish: the output is deleted, nothing is renamed and
   * no new recording starts.
   */
  lemma LeaveThenFinalizeDiscards(cc: CharClasses, s: Capture, destroy: bool, storeOk: bool)
    requires s.recording.Some?
    ensures var t1 := Step(cc, s, if destroy then Destroyed else UserLeaving);
      var t2 := Step(cc, t1.next, Backend(Finalized(s.recording.value, false, storeOk)));
      Stop(s.recording.value) in t1.effects &&
      Delete(s.recording.value) in t2.effects && !HasRename(t2.effects) &&
      CountBegins(t2.effects) == 0 && t2.next.recording.None?
  {
  }

  /**
   * A scan during a recording followed by that recording's clean finish: the
   * segment is renamed to the code plus `.mp4` and, with the camera bound,
   * exactly one new recording starts and becomes the reference.
   */
  lemma ScanCutsAndRestarts(s: Capture, code: string, storeOk: bool)
    requires s.recording.Some? && s.cameraBound
    ensures var t1 := ProcessScan(s, code);
      var t2 := OnFinalize(t1.next, s.recording.value, false, storeOk);
      t1.effects == [Stop(s.recording.value)] &&
      Rename(s.recording.value, code + ".mp4") in t2.effects && !HasDelete(t2.effects) &&
      CountBegins(t2.effects) == 1 && t2.next.recording == Some(s.nextSession) &&
      t2.next.pendingFilename.None? && !t2.next.shouldRestart
  {
  }

  /**
   * A manual "Stop & Discard" with nothing pending, followed by the clean
   * finish: the output is deleted and the screen is idle again.
   */
  lemma ManualStopDiscards(cc: CharClasses, s: Capture, storeOk: bool)
    requires s.recording.Some? && s.pendingFilename.None? && !s.shouldRestart
    ensures var t1 := Step(cc, s, DiscardConfirmed);
      var t2 := Step(cc, t1.next, Backend(Finalized(s.recording.value, false, storeOk)));
      t1.effects == [Stop(s.recording.value)] &&
      Delete(s.recording.value) in t2.effects && !HasRename(t2.effects) &&
      CountBegins(t2.effects) == 0 && t2.next.recording.None?
  {
  }

  /** Key events handled in order. */
  function OnKeys(cc: CharClasses, s: Capture, keys: seq<KeyEvent>): (t: Transition)
    decreases |keys|
  {
    if |keys| == 0 then Transition(s, [])
    else
      var t1 := OnKey(cc, s, keys[0]);
      var rest := OnKeys(cc, t1.next, keys[1..]);
      Transition(rest.next, t1.effects + rest.effects)
  }

  /** ENTER after a non-blank buffer is the scan of the trimmed buffer, with the buffer emptied. */
  lemma OnKeyEnterScans(cc: CharClasses, s: Capture, key: KeyEvent)
    requires IsEnterDown(key) && |Trim(cc.whitespace, s.buffer)| > 0
    ensures OnKey(cc, s, key) == ProcessScan(s.(buffer := []), Trim(cc.whitespace, s.buffer))
  {
  }

  /**
   * With no recording, typing and scanning do nothing but move the buffer:
   * no platform call is issued and no other field changes.
   */
  lemma {:induction false} KeysWhileIdleDoNothing(cc: CharClasses, s: Capture, keys: seq<KeyEvent>)
    requires s.recording.None?
    ensures OnKeys(cc, s, keys).effects == []
    ensures OnKeys(cc, s, keys).next == s.(buffer := DecodeAll(cc, s.buffer, keys).buffer)
    decreases |keys|
  {
    if |keys| > 0 {
      var t1 := OnKey(cc, s, keys[0]);
      assert t1 == Transition(s.(buffer := DecodeKey(cc, s.buffer, keys[0]).buffer), []);
      KeysWhileIdleDoNothing(cc, t1.next, keys[1..]);
      assert t1.next.(buffer := DecodeAll(cc, t1.next.buffer, keys[1..]).buffer)
          == s.(buffer := DecodeAll(cc, s.buffer, keys).buffer);
    }
  }

  // ---------------------------------------------------------------------
  // The screen together with the backend's live sessions.

  /** The controller and the set of sessions begun and not yet finalized. */
  datatype World = World(ctrl: Capture, live: set<SessionId>)

  /** The backend only reports on sessions that are live. */
  predicate Enabled(w: World, ev: Event) {
    ev.Backend? ==> ev.event.session in w.live
  }

  function Run(cc: CharClasses, w: World, ev: Event): World {
    var t := Step(cc, w.ctrl, ev);
    World(t.next, (w.live - (if ev.Backend? then Ended(ev.event) else {})) + Begun(t.effects))
  }

  /** The world after each of `evs` and all effects issued, in order. */
  datatype Trace = Trace(world: World, effects: seq<Effect>)

  function RunAll(cc: CharClasses, w: World, evs: seq<Event>): Trace
    decreases |evs|
  {
    if |evs| == 0 then Trace(w, [])
    else
      var t := Step(cc, w.ctrl, evs[0]);
      var rest := RunAll(cc, Run(cc, w, evs[0]), evs[1..]);
      Trace(rest.world, t.effects + rest.effects)
  }

  /** The intended invariant: the backend never has two recordings at once. */
  predicate AtMostOneLive(w: World) {
    AtMostOne(w.live)
  }

  /** Classifiers for the concrete traces below: ASCII letters and digits, and the space. */
  function AsciiLetterOrDigit(c: char): bool {
    ('a' <= c <= 'z') || ('A' <= c <= 'Z') || ('0' <= c <= '9')
  }

  function AsciiSpace(c: char): bool { c == ' ' }

  const Ascii := CharClasses(AsciiLetterOrDigit, AsciiSpace)

  /** A scanner typing `A` then ENTER. */
  const ScanA: seq<Event> := [Key(KeyEvent(Down, OtherKey, 'A')), Key(KeyEvent(Down, Enter, '\n'))]

  /** Pressing the capture button with no recording, in the world. */
  lemma RunCaptureTapped(cc: CharClasses, w: World)
    requires w.ctrl.recording.None? && w.ctrl.cameraBound
    ensures Run(cc, w, CaptureTapped) ==
      World(w.ctrl.(recording := Some(w.ctrl.nextSession), nextSession := w.ctrl.nextSession + 1),
            w.live + {w.ctrl.nextSession})
  {
  }

  /** The scanner typing `A` on an empty buffer. */
  lemma TypeA(s: Capture)
    requires s.buffer == []
    ensures Step(Ascii, s, ScanA[0]) == Transition(s.(buffer := "A"), [])
  {
    assert Accepted(Ascii, 'A');
  }

  lemma TrimA()
    ensures Trim(Ascii.whitespace, "A") == "A"
  {
    TrimUnpadded(Ascii.whitespace, "A");
  }

  /** ENTER after `A` is the scan `A`. */
  lemma EnterAfterA(s: Capture)
    requires s.buffer == "A"
    ensures Step(Ascii, s, ScanA[1]) == ProcessScan(s.(buffer := []), "A")
  {
    TrimA();
    OnKeyEnterScans(Ascii, s, KeyEvent(Down, Enter, '\n'));
    assert ScanA[1] == Key(KeyEvent(Down, Enter, '\n'));
  }

  /** The scanner typing `A` then ENTER on an empty buffer is the scan `A`. */
  lemma RunScanA(w: World)
    requires w.ctrl.buffer == []
    ensures Run(Ascii, Run(Ascii, w, ScanA[0]), ScanA[1]) ==
      World(ProcessScan(w.ctrl, "A").next, w.live)
  {
    TypeA(w.ctrl);
    RunKey(Ascii, w, ScanA[0].key);
    var w1 := Run(Ascii, w, ScanA[0]);
    EnterAfterA(w1.ctrl);
    RunKey(Ascii, w1, ScanA[1].key);
    assert w1.ctrl.(buffer := []) == w.ctrl;
  }

  /** A key event in the world: keys never begin a session. */
  lemma RunKey(cc: CharClasses, w: World, key: KeyEvent)
    ensures Run(cc, w, Key(key)) == World(OnKey(cc, w.ctrl, key).next, w.live)
  {
    var t := OnKey(cc, w.ctrl, key);
    assert forall i :: 0 <= i < |t.effects| ==> t.effects[i].Stop?;
    assert Begun(t.effects) == {};
  }

  /**
   * An idle screen with the camera bound and no backend session: the state
   * right after creation, or after any segment has been fully handled.
   */
  predicate Idle(w: World) {
    w.ctrl.recording.None? && w.ctrl.pendingFilename.None? && !w.ctrl.shouldRestart &&
    w.ctrl.buffer == [] && w.ctrl.cameraBound && w.live == {}
  }

  lemma InitialIsIdle(muted: bool)
    ensures Idle(World(Initial(muted, true), {}))
  {
  }

  /** The world after the capture button and a scan of `A` on an idle screen. */
  function StartThenScanA(w: World): World {
    Run(Ascii, Run(Ascii, Run(Ascii, w, CaptureTapped), ScanA[0]), ScanA[1])
  }

  /** After the start and the scan, the new session is stopping and `A.mp4` is pending. */
  lemma StartThenScanAState(w: World)
    requires Idle(w)
    ensures StartThenScanA(w) ==
      World(w.ctrl.(pendingFilename := Some("A.mp4"), shouldRestart := true, nextSession := w.ctrl.nextSession + 1),
            {w.ctrl.nextSession})
  {
    RunCaptureTapped(Ascii, w);
    ScanAWhileRecording(Run(Ascii, w, CaptureTapped));
  }

  /** The scan of `A` during a recording, in the world: the recording is cut with `A.mp4` pending. */
  lemma ScanAWhileRecording(w: World)
    requires w.ctrl.buffer == [] && w.ctrl.recording.Some?
    ensures Run(Ascii, Run(Ascii, w, ScanA[0]), ScanA[1]) ==
      World(w.ctrl.(recording := None, pendingFilename := Some("A.mp4"), shouldRestart := true), w.live)
  {
    RunScanA(w);
    NameOfScanA();
  }

  lemma NameOfScanA()
    ensures "A" + ".mp4" == "A.mp4"
  {
  }

  /**
   * Witness that a manual start between a scan's stop and its finalize leaves
   * two recordings live. The finalize then drops the manual one's reference
   * and the queued restart starts a third: the manual session keeps
   * recording with no reference left to stop it.
   */
  lemma ManualStartOrphansRecording(w: World)
    requires Idle(w)
    ensures var n := w.ctrl.nextSession;
      var w4 := Run(Ascii, StartThenScanA(w), CaptureTapped);
      var w5 := Run(Ascii, w4, Backend(Finalized(n, false, true)));
      w4.live == {n, n + 1} && !AtMostOneLive(w4) &&
      w5.live == {n + 1, n + 2} && w5.ctrl.recording == Some(n + 2)
  {
    var n := w.ctrl.nextSession;
    StartThenScanAState(w);
    ManualStartDuringCut(Ascii, StartThenScanA(w), n);
    RestartAfterCut(Ascii, Run(Ascii, StartThenScanA(w), CaptureTapped), n);
  }

  /**
   * In any window between a scan's stop of session `id` and its finalize,
   * the capture button begins a second session while `id` is still live.
   */
  lemma ManualStartDuringCut(cc: CharClasses, w: World, id: SessionId)
    requires w.ctrl.recording.None? && w.ctrl.shouldRestart && w.ctrl.cameraBound
    requires w.live == {id} && id < w.ctrl.nextSession
    ensures var m := w.ctrl.nextSession;
      var w4 := Run(cc, w, CaptureTapped);
      w4.live == {id, m} && !AtMostOneLive(w4) &&
      w4.ctrl.recording == Some(m) && w4.ctrl.nextSession == m + 1 &&
      w4.ctrl.shouldRestart && w4.ctrl.cameraBound
  {
    var m := w.ctrl.nextSession;
    RunCaptureTapped(cc, w);
    var w4 := Run(cc, w, CaptureTapped);
    assert !AtMostOneLive(w4) by {
      assert id in w4.live && m in w4.live && id != m;
    }
  }

  /**
   * The finalize of a cut session `id` while another session is referenced:
   * the reference is dropped and the restart begins one more session.
   */
  lemma RestartAfterCut(cc: CharClasses, w: World, id: SessionId)
    requires w.ctrl.recording.Some? && w.ctrl.shouldRestart && w.ctrl.cameraBound
    requires w.live == {id, w.ctrl.recording.value} && w.ctrl.nextSession == w.ctrl.recording.value + 1
    requires id != w.ctrl.recording.value
    ensures var m := w.ctrl.recording.value;
      var w5 := Run(cc, w, Backend(Finalized(id, false, true)));
      w5.live == {m, m + 1} && w5.ctrl.recording == Some(m + 1)
  {
    RunFinalized(cc, w, id, false, true);
  }

  /** A backend finalize in the world: the controller's `Finalize` branch, and the session ends. */
  lemma RunFinalized(cc: CharClasses, w: World, id: SessionId, error: bool, storeOk: bool)
    ensures var t := OnFinalize(w.ctrl, id, error, storeOk);
      Run(cc, w, Backend(Finalized(id, error, storeOk))) == World(t.next, (w.live - {id}) + Begun(t.effects))
  {
  }

  /**
   * Witness that a pending name outlives a failed segment: the scan of `A`
   * cuts the first session, that session fails, the restart begins a second
   * one with `A.mp4` still pending, and a "Stop & Discard" of the second ends
   * with its clip kept and renamed to `A.mp4` instead of deleted.
   */
  lemma ErrorKeepsStalePendingName(w: World)
    requires Idle(w)
    ensures var n := w.ctrl.nextSession;
      var w4 := Run(Ascii, StartThenScanA(w), Backend(Finalized(n, true, true)));
      var w5 := Run(Ascii, w4, DiscardConfirmed);
      var last := Step(Ascii, w5.ctrl, Backend(Finalized(n + 1, false, true)));
      w4.ctrl.pendingFilename == Some("A.mp4") && w4.ctrl.recording == Some(n + 1) &&
      Rename(n + 1, "A.mp4") in last.effects && !HasDelete(last.effects)
  {
    StartThenScanAState(w);
    ErrorDuringCutKeepsName(Ascii, StartThenScanA(w), w.ctrl.nextSession, "A.mp4");
  }

  /**
   * In any window between a scan's stop of session `id` and its finalize:
   * when `id` ends with an error, the restarted session inherits the pending
   * name, and a "Stop & Discard" of it keeps and renames its clip.
   */
  lemma ErrorDuringCutKeepsName(cc: CharClasses, w: World, id: SessionId, name: string)
    requires w.ctrl.recording.None? && w.ctrl.shouldRestart && w.ctrl.cameraBound
    requires w.ctrl.pendingFilename == Some(name)
    ensures var m := w.ctrl.nextSession;
      var w4 := Run(cc, w, Backend(Finalized(id, true, true)));
      var w5 := Run(cc, w4, DiscardConfirmed);
      var last := Step(cc, w5.ctrl, Backend(Finalized(m, false, true)));
      w4.ctrl.pendingFilename == Some(name) && w4.ctrl.recording == Some(m) &&
      Rename(m, name) in last.effects && !HasDelete(last.effects)
  {
    RunFinalized(cc, w, id, true, true);
  }

  /**
   * Witness that leaving the app between a scan's stop and its finalize does
   * not cancel the queued restart: the finalize begins a new recording after
   * the user has left.
   */
  lemma LeaveDuringCutStillRestarts(w: World)
    requires Idle(w)
    ensures var w4 := Run(Ascii, StartThenScanA(w), UserLeaving);
      var last := Step(Ascii, w4.ctrl, Backend(Finalized(w.ctrl.nextSession, false, true)));
      w4.ctrl.shouldRestart && CountBegins(last.effects) == 1 && last.next.recording.Some?
  {
    StartThenScanAState(w);
    LeaveDuringCut(Ascii, StartThenScanA(w).ctrl, w.ctrl.nextSession);
  }

  /**
   * In any window between a scan's stop and its finalize, leaving the app
   * changes nothing, so the finalize still begins a new recording.
   */
  lemma LeaveDuringCut(cc: CharClasses, s: Capture, id: SessionId)
    requires s.recording.None? && s.shouldRestart && s.cameraBound
    ensures var t1 := Step(cc, s, UserLeaving);
      var last := Step(cc, t1.next, Backend(Finalized(id, false, true)));
      t1 == Transition(s, []) && CountBegins(last.effects) == 1 && last.next.recording.Some?
  {
  }
}
