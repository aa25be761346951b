/**
 * The single-shot capture screen (`SingleCaptureActivity`): one recording per
 * visit, kept by default. The screen is started with an optional file name;
 * a clean finish keeps the clip (renamed when the name is not blank) and
 * ends the screen with "OK", while a stop caused by leaving marks the clip
 * to be deleted and ends the screen with "canceled".
 */
module SingleCapture {

  import opened Wrappers
  import opened Text
  import opened Recording

  /**
   * The screen's fields: the live `recording` reference, the name handed in
   * by the caller, the discard mark, the pause flag, the mute preference,
   * whether the video use case is bound, and the next session id.
   */
  datatype Single = Single(
    recording: Option<SessionId>,
    pendingFilename: Option<string>,
    discardOnFinalize: bool,
    isPaused: bool,
    muted: bool,
    cameraBound: bool,
    nextSession: SessionId)

  function SingleInitial(pendingFilename: Option<string>, muted: bool, cameraBound: bool): Single {
    Single(None, pendingFilename, false, false, muted, cameraBound, 0)
  }

  datatype SingleEvent =
    | Tapped              // the capture button: stop when recording, start otherwise
    | PauseTapped
    | BackPressed         // with a recording this only opens the exit dialog
    | ExitConfirmed       // "Discard & Exit"
    | UserLeaving
    | Destroyed
    | Backend(event: BackendEvent)

  datatype SingleStep = SingleStep(next: Single, effects: seq<Effect>)

  /** `startRecording`: nothing without a bound camera, else a fresh muted-per-preference session. */
  function Start(s: Single): (t: SingleStep)
    ensures !s.cameraBound ==> t == SingleStep(s, [])
    ensures s.cameraBound ==>
      t.next == s.(recording := Some(s.nextSession), nextSession := s.nextSession + 1) &&
      Begun(t.effects) == {s.nextSession} && !HasDelete(t.effects) && !HasRename(t.effects)
  {
    if !s.cameraBound then SingleStep(s, [])
    else
      var id := s.nextSession;
      var effects := [Begin(id), Mute(id, s.muted)];
      assert Begun(effects) == {id} by {
        assert effects[0].Begin? && !effects[1].Begin?;
      }
      SingleStep(s.(recording := Some(id), nextSession := id + 1), effects)
  }

  /** `stopRecordingAndFinish`: stop and drop the reference (despite its name it does not finish). */
  function StopKeeping(s: Single): (t: SingleStep)
    ensures t.next == s.(recording := None)
    ensures s.recording.Some? ==> t.effects == [Stop(s.recording.value)]
    ensures s.recording.None? ==> t.effects == []
  {
    match s.recording
    case None => SingleStep(s, [])
    case Some(id) => SingleStep(s.(recording := None), [Stop(id)])
  }

  /**
   * "Discard & Exit": the clip is marked for deletion whether or not a
   * recording is still referenced (the dialog may outlive it), then
   * `recording?.stop()`.
   */
  function ExitDiscarding(s: Single): (t: SingleStep)
    ensures t.next == s.(recording := None, discardOnFinalize := true)
    ensures s.recording.Some? ==> t.effects == [Stop(s.recording.value)]
    ensures s.recording.None? ==> t.effects == []
  {
    StopKeeping(s.(discardOnFinalize := true))
  }

  /** Leaving and destruction: with a recording, mark it for deletion, then stop. */
  function StopDiscarding(s: Single): (t: SingleStep)
    ensures s.recording.None? ==> t == SingleStep(s, [])
    ensures s.recording.Some? ==>
      t.next == s.(recording := None, discardOnFinalize := true) &&
      t.effects == [Stop(s.recording.value)]
  {
    if s.recording.Some? then StopKeeping(s.(discardOnFinalize := true)) else SingleStep(s, [])
  }

  /** The media-store and result calls of a clean finish that keeps the clip. */
  function KeepClip(ws: CharTest, s: Single, id: SessionId, storeOk: bool): (effects: seq<Effect>)
    ensures !IsNullOrBlank(ws, s.pendingFilename) ==>
      Rename(id, s.pendingFilename.value) in effects &&
      (storeOk <==> Notify(SavedAs(s.pendingFilename.value)) in effects) &&
      (!storeOk <==> Notify(SavedRenameFailed) in effects)
    ensures IsNullOrBlank(ws, s.pendingFilename) ==> !HasRename(effects) && Notify(VideoSaved) in effects
    ensures !HasDelete(effects) && CountBegins(effects) == 0
    ensures |effects| >= 2 && effects[|effects| - 2..] == [SetResult(ResultOk), Finish]
    ensures SetResult(ResultCanceled) !in effects
  {
    var saved := if !IsNullOrBlank(ws, s.pendingFilename) then
        var name := s.pendingFilename.value;
        [Rename(id, name), Notify(if storeOk then SavedAs(name) else SavedRenameFailed)]
      else [Notify(VideoSaved)];
    var effects := saved + [SetResult(ResultOk), Finish];
    assert forall i :: 0 <= i < |effects| ==> !effects[i].Delete? && !effects[i].Begin?;
    assert CountBegins(effects) == 0 by {
      assert Begun(effects) == {};
    }
    assert !IsNullOrBlank(ws, s.pendingFilename) ==> effects[0] == Rename(id, s.pendingFilename.value);
    effects
  }

  /**
   * The `Finalize` branch for session `id`. A clean finish marked for
   * discard deletes the output, reports "canceled" and ends the screen,
   * leaving the other fields alone. Any other clean finish keeps the clip,
   * reports "OK", ends the screen, and then closes and drops the current
   * reference. An error reports nothing and only closes and drops the
   * reference.
   */
  function Finalize(ws: CharTest, s: Single, id: SessionId, error: bool, storeOk: bool): (t: SingleStep)
    ensures !error && s.discardOnFinalize ==>
      t.effects == [Delete(id), SetResult(ResultCanceled), Finish] && t.next == s.(isPaused := false)
    ensures !error && !s.discardOnFinalize ==>
      KeepClip(ws, s, id, storeOk) <= t.effects && !HasDelete(t.effects) &&
      SetResult(ResultOk) in t.effects && Finish in t.effects && t.next.recording.None?
    ensures error ==>
      (forall e :: e in t.effects ==> e.Close?) && t.next.recording.None? &&
      (s.recording.Some? ==> t.effects == [Close(s.recording.value)]) &&
      (s.recording.None? ==> t.effects == [])
    ensures CountBegins(t.effects) == 0 && !t.next.isPaused
    ensures t.next.pendingFilename == s.pendingFilename && t.next.discardOnFinalize == s.discardOnFinalize
  {
    var s1 := s.(isPaused := false);
    if !error && s.discardOnFinalize then
      SingleStep(s1, DiscardClip(id))
    else if !error then
      var kept := KeepClip(ws, s, id, storeOk);
      var close := CloseCurrent(s);
      CountBeginsAppend(kept, close);
      assert kept[|kept| - 2] == SetResult(ResultOk) && kept[|kept| - 1] == Finish;
      SingleStep(s1.(recording := None), kept + close)
    else
      SingleStep(s1.(recording := None), CloseCurrent(s))
  }

  /** Delete the output, report "canceled" and end the screen. */
  function DiscardClip(id: SessionId): (effects: seq<Effect>)
    ensures Delete(id) in effects && SetResult(ResultCanceled) in effects && Finish in effects
    ensures !HasRename(effects) && CountBegins(effects) == 0
  {
    var effects := [Delete(id), SetResult(ResultCanceled), Finish];
    assert Begun(effects) == {} by {
      assert forall i :: 0 <= i < |effects| ==> !effects[i].Begin?;
    }
    effects
  }

  /** `recording?.close()`: close the referenced session, if any. */
  function CloseCurrent(s: Single): (effects: seq<Effect>)
    ensures s.recording.Some? ==> effects == [Close(s.recording.value)]
    ensures s.recording.None? ==> effects == []
    ensures !HasDelete(effects) && CountBegins(effects) == 0
  {
    if s.recording.Some? then
      assert CountBegins([Close(s.recording.value)]) == 0;
      [Close(s.recording.value)]
    else []
  }

  /** One event handled by the screen. */
  function SingleStepOf(ws: CharTest, s: Single, ev: SingleEvent): SingleStep
  {
    match ev
    case Tapped => if s.recording.Some? then StopKeeping(s) else Start(s)
    case PauseTapped =>
      (match s.recording
       case None => SingleStep(s, [])
       case Some(id) => SingleStep(s, [if s.isPaused then Resume(id) else Pause(id)]))
    case BackPressed => if s.recording.Some? then SingleStep(s, []) else SingleStep(s, [Finish])
    case ExitConfirmed => ExitDiscarding(s)
    case UserLeaving =>
      var t := StopDiscarding(s);
      SingleStep(t.next, t.effects + (if s.recording.Some? then [Notify(DiscardedLeftApp)] else []))
    case Destroyed => StopDiscarding(s)
    case Backend(Started(_)) =>
      SingleStep(s.(isPaused := false), if s.recording.Some? then [Mute(s.recording.value, s.muted)] else [])
    case Backend(Paused(_)) => SingleStep(s.(isPaused := true), [])
    case Backend(Resumed(_)) => SingleStep(s.(isPaused := false), [])
    case Backend(Finalized(id, error, storeOk)) => Finalize(ws, s, id, error, storeOk)
  }

  /**
   * The capture button stops a live recording without marking it for
   * deletion and starts one when none is live; pause and resume only act on
   * a live recording.
   */
  lemma ButtonsAct(ws: CharTest, s: Single)
    ensures var t := SingleStepOf(ws, s, Tapped);
      (s.recording.Some? ==>
        t.effects == [Stop(s.recording.value)] && t.next.recording.None? &&
        t.next.discardOnFinalize == s.discardOnFinalize) &&
      (s.recording.None? && s.cameraBound ==> Begun(t.effects) == {s.nextSession})
    ensures var t := SingleStepOf(ws, s, PauseTapped);
      t.next == s && (s.recording.None? <==> t.effects == []) &&
      (s.recording.Some? ==> t.effects == [if s.isPaused then Resume(s.recording.value) else Pause(s.recording.value)])
  {
  }

  /**
   * A stop by "Discard & Exit", leaving or destruction, followed by the
   * clean finish: the clip is deleted and the caller is told "canceled";
   * nothing is renamed and "OK" is never reported.
   */
  lemma DiscardingStopCancels(ws: CharTest, s: Single, ev: SingleEvent, storeOk: bool)
    requires s.recording.Some? && (ev.ExitConfirmed? || ev.UserLeaving? || ev.Destroyed?)
    ensures var t1 := SingleStepOf(ws, s, ev);
      var t2 := SingleStepOf(ws, t1.next, Backend(Finalized(s.recording.value, false, storeOk)));
      Stop(s.recording.value) in t1.effects && t1.next.discardOnFinalize &&
      t2.effects == [Delete(s.recording.value), SetResult(ResultCanceled), Finish]
  {
    var t1 := SingleStepOf(ws, s, ev);
    assert t1.effects[0] == Stop(s.recording.value);
  }

  /**
   * A "Discard & Exit" confirmed after the recording already ended with an
   * error still marks the screen: the next recording the capture button
   * starts is deleted by its clean finish and the caller is told "canceled".
   */
  lemma ExitConfirmMarksNextClip(ws: CharTest, s: Single, storeOk: bool)
    requires s.recording.None? && s.cameraBound
    ensures var t1 := SingleStepOf(ws, s, ExitConfirmed);
      var t2 := SingleStepOf(ws, t1.next, Tapped);
      var t3 := SingleStepOf(ws, t2.next, Backend(Finalized(s.nextSession, false, storeOk)));
      t1.effects == [] && Begun(t2.effects) == {s.nextSession} &&
      t3.effects == [Delete(s.nextSession), SetResult(ResultCanceled), Finish]
  {
    var t1 := SingleStepOf(ws, s, ExitConfirmed);
    assert t1.next.discardOnFinalize;
  }

  /**
   * A stop by the capture button on a fresh screen, followed by the clean
   * finish: the clip is kept, renamed exactly when the given name is not
   * blank, and the caller is told "OK".
   */
  lemma ButtonStopKeeps(ws: CharTest, s: Single, storeOk: bool)
    requires s.recording.Some? && !s.discardOnFinalize
    ensures var t1 := SingleStepOf(ws, s, Tapped);
      var t2 := SingleStepOf(ws, t1.next, Backend(Finalized(s.recording.value, false, storeOk)));
      !HasDelete(t2.effects) && SetResult(ResultOk) in t2.effects && SetResult(ResultCanceled) !in t2.effects &&
      (!IsNullOrBlank(ws, s.pendingFilename) ==> Rename(s.recording.value, s.pendingFilename.value) in t2.effects) &&
      (IsNullOrBlank(ws, s.pendingFilename) ==> Notify(VideoSaved) in t2.effects)
  {
    var t1 := SingleStepOf(ws, s, Tapped);
    var id := s.recording.value;
    var kept := KeepClip(ws, t1.next.(isPaused := false), id, storeOk);
    assert kept == KeepClip(ws, s, id, storeOk);
  }

  /** A finish with an error reports no result to the caller and never ends the screen. */
  lemma ErrorReportsNothing(ws: CharTest, s: Single, id: SessionId, storeOk: bool)
    ensures var t := SingleStepOf(ws, s, Backend(Finalized(id, true, storeOk)));
      SetResult(ResultOk) !in t.effects && SetResult(ResultCanceled) !in t.effects && Finish !in t.effects &&
      t.next.recording.None?
  {
  }
}
