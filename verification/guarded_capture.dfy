/**
 * The continuous capture screen with the three race windows of
 * `ContinuousCapture` closed. The screen remembers the session it has
 * stopped and is waiting on (`stopping`), and:
 *   - the capture button does nothing while a stop is outstanding;
 *   - a `Finalize` consumes the pending name whatever its outcome, closes
 *     and forgets only the session it is about;
 *   - leaving the app or destruction cancels a pending name and a queued
 *     restart even when the reference is already null.
 * Everything else is the controller as written.
 */
module GuardedCapture {

  import opened Wrappers
  import opened ScanDecoder
  import opened Recording
  import opened ContinuousCapture

  /** The screen's fields plus the session stopped and not yet finalized. */
  datatype Guarded = Guarded(c: Capture, stopping: Option<SessionId>)

  datatype Outcome = Outcome(next: Guarded, effects: seq<Effect>)

  function GuardedInitial(muted: bool, cameraBound: bool): Guarded {
    Guarded(Initial(muted, cameraBound), None)
  }

  /** Stop the referenced recording and remember it as the one being stopped. */
  function StopReferenced(g: Guarded): (o: Outcome)
    ensures g.c.recording.None? ==> o == Outcome(g, [])
    ensures g.c.recording.Some? ==>
      o.next == Guarded(g.c.(recording := None), g.c.recording) &&
      o.effects == [Stop(g.c.recording.value)]
  {
    var t := StopAndForget(g.c);
    Outcome(Guarded(t.next, if g.c.recording.Some? then g.c.recording else g.stopping), t.effects)
  }

  /**
   * The file policy of a `Finalize` of session `id`: a clean finish is
   * handled as on the screen as written; an error closes `id` itself, and
   * only when it is the referenced recording.
   */
  function FilePolicy(s: Capture, id: SessionId, error: bool, storeOk: bool): (effects: seq<Effect>)
    ensures !error && s.pendingFilename.Some? ==>
      Rename(id, s.pendingFilename.value) in effects && !HasDelete(effects)
    ensures !error && s.pendingFilename.None? ==> Delete(id) in effects && !HasRename(effects)
    ensures error ==> !HasRename(effects) && !HasDelete(effects)
    ensures forall e :: e in effects && (e.Rename? || e.Delete? || e.Close?) ==> e.session == id
    ensures CountBegins(effects) == 0
  {
    if !error then FinishSegment(s, id, false, storeOk).effects
    else if s.recording == Some(id) then
      assert CountBegins([Close(id)]) == 0;
      [Close(id)]
    else []
  }

  /**
   * `Finalize` of session `id`: the file policy; the pending name is
   * consumed whatever the outcome, `id` is forgotten wherever it is
   * referenced, and a queued restart starts once no session is referenced.
   */
  function GuardedFinalize(g: Guarded, id: SessionId, error: bool, storeOk: bool): (o: Outcome)
    ensures FilePolicy(g.c.(isPaused := false), id, error, storeOk) <= o.effects
    ensures o.next.c.pendingFilename.None? && !o.next.c.isPaused
    ensures o.next.stopping == (if g.stopping == Some(id) then None else g.stopping)
    ensures g.c.recording != Some(id) && g.c.recording.Some? ==> o.next.c.recording == g.c.recording
    ensures g.c.shouldRestart && g.c.cameraBound && o.next.stopping.None? && (g.c.recording.None? || g.c.recording == Some(id)) ==>
      o.next.c.recording == Some(g.c.nextSession) && Begun(o.effects) == {g.c.nextSession} && !o.next.c.shouldRestart
    ensures !(g.c.shouldRestart && g.c.cameraBound && o.next.stopping.None? && (g.c.recording.None? || g.c.recording == Some(id))) ==>
      Begun(o.effects) == {}
    ensures o.next.c.nextSession >= g.c.nextSession
  {
    var s := g.c.(isPaused := false);
    var policy := FilePolicy(s, id, error, storeOk);
    var s2 := s.(pendingFilename := None, recording := if s.recording == Some(id) then None else s.recording);
    var stopping := if g.stopping == Some(id) then None else g.stopping;
    if s2.shouldRestart && s2.recording.None? && stopping.None? then
      var started := StartRecording(s2.(shouldRestart := false));
      CountBeginsAppend(policy, started.effects);
      Outcome(Guarded(started.next, stopping), policy + started.effects)
    else
      Outcome(Guarded(s2, stopping), policy)
  }

  /** One event handled by the corrected screen. */
  function GuardedStep(cc: CharClasses, g: Guarded, ev: Event): Outcome
  {
    match ev
    case Key(key) =>
      var d := DecodeKey(cc, g.c.buffer, key);
      var g1 := g.(c := g.c.(buffer := d.buffer));
      (match d.scan
       case None => Outcome(g1, [])
       case Some(code) =>
         if g1.c.recording.Some? then
           StopReferenced(g1.(c := g1.c.(pendingFilename := Some(code + ".mp4"), shouldRestart := true)))
         else Outcome(g1, []))
    case CaptureTapped =>
      if g.c.recording.Some? || g.stopping.Some? then Outcome(g, [])
      else
        var t := StartRecording(g.c);
        Outcome(g.(c := t.next), t.effects)
    case DiscardConfirmed => StopReferenced(g)
    case PauseTapped =>
      var t := Step(cc, g.c, PauseTapped);
      Outcome(g, t.effects)
    case BackPressed =>
      if g.c.recording.Some? then Outcome(g, []) else Outcome(g, [Finish])
    case ExitConfirmed =>
      var o := StopReferenced(g);
      Outcome(o.next, o.effects + [Finish])
    case UserLeaving =>
      var o := StopReferenced(g.(c := g.c.(pendingFilename := None, shouldRestart := false)));
      Outcome(o.next, o.effects + (if g.c.recording.Some? then [Notify(DiscardedLeftApp)] else []))
    case Destroyed =>
      StopReferenced(g.(c := g.c.(pendingFilename := None, shouldRestart := false)))
    case Backend(Finalized(id, error, storeOk)) => GuardedFinalize(g, id, error, storeOk)
    case Backend(other) =>
      var t := Step(cc, g.c, ev);
      Outcome(g.(c := t.next), t.effects)
  }

  /** The corrected screen together with the backend's live sessions. */
  datatype GuardedWorld = GuardedWorld(screen: Guarded, live: set<SessionId>)

  predicate GuardedEnabled(w: GuardedWorld, ev: Event) {
    ev.Backend? ==> ev.event.session in w.live
  }

  function GuardedRun(cc: CharClasses, w: GuardedWorld, ev: Event): GuardedWorld {
    var o := GuardedStep(cc, w.screen, ev);
    GuardedWorld(o.next, (w.live - (if ev.Backend? then Ended(ev.event) else {})) + Begun(o.effects))
  }

  /**
   * The invariant the corrected screen keeps: the live sessions are exactly
   * the referenced one and the one being stopped, never both; a pending
   * name or a queued restart only exists while a stop is outstanding; and
   * every live session id was handed out already.
   */
  predicate Inv(w: GuardedWorld) {
    var g := w.screen;
    w.live == ToSet(g.c.recording) + ToSet(g.stopping) &&
    !(g.c.recording.Some? && g.stopping.Some?) &&
    (g.c.pendingFilename.Some? || g.c.shouldRestart ==> g.stopping.Some?) &&
    (forall x :: x in w.live ==> x < g.c.nextSession)
  }

  lemma InitialInv(muted: bool, cameraBound: bool)
    ensures Inv(GuardedWorld(GuardedInitial(muted, cameraBound), {}))
  {
  }

  /** The invariant bounds the backend to one recording at a time. */
  lemma InvAtMostOne(w: GuardedWorld)
    requires Inv(w)
    ensures AtMostOne(w.live)
  {
  }

  lemma FinalizeKeepsInv(cc: CharClasses, w: GuardedWorld, id: SessionId, error: bool, storeOk: bool)
    requires Inv(w) && id in w.live
    ensures Inv(GuardedRun(cc, w, Backend(Finalized(id, error, storeOk))))
  {
  }

  lemma KeyKeepsInv(cc: CharClasses, w: GuardedWorld, key: KeyEvent)
    requires Inv(w)
    ensures Inv(GuardedRun(cc, w, Key(key)))
  {
    assert Begun([]) == {};
    if w.screen.c.recording.Some? {
      var id := w.screen.c.recording.value;
      assert Begun([Stop(id)]) == {} by { assert CountBegins([Stop(id)]) == 0; }
    }
  }

  lemma StopKeepsInv(cc: CharClasses, w: GuardedWorld, ev: Event)
    requires Inv(w) && (ev.DiscardConfirmed? || ev.ExitConfirmed? || ev.UserLeaving? || ev.Destroyed?)
    ensures Inv(GuardedRun(cc, w, ev))
  {
    var o := GuardedStep(cc, w.screen, ev);
    assert CountBegins(o.effects) == 0;
  }

  lemma OtherKeepsInv(cc: CharClasses, w: GuardedWorld, ev: Event)
    requires Inv(w) && GuardedEnabled(w, ev)
    requires ev.CaptureTapped? || ev.PauseTapped? || ev.BackPressed? || (ev.Backend? && !ev.event.Finalized?)
    ensures Inv(GuardedRun(cc, w, ev))
  {
    var o := GuardedStep(cc, w.screen, ev);
    if !ev.CaptureTapped? {
      assert CountBegins(o.effects) == 0;
    }
  }

  /**
   * Every enabled event keeps the invariant, so the corrected screen never
   * has two recordings live at once.
   */
  lemma StepKeepsInv(cc: CharClasses, w: GuardedWorld, ev: Event)
    requires Inv(w) && GuardedEnabled(w, ev)
    ensures Inv(GuardedRun(cc, w, ev))
    ensures AtMostOne(GuardedRun(cc, w, ev).live)
  {
    match ev
    case Key(key) => KeyKeepsInv(cc, w, key);
    case Backend(Finalized(id, error, storeOk)) => FinalizeKeepsInv(cc, w, id, error, storeOk);
    case DiscardConfirmed => StopKeepsInv(cc, w, ev);
    case ExitConfirmed => StopKeepsInv(cc, w, ev);
    case UserLeaving => StopKeepsInv(cc, w, ev);
    case Destroyed => StopKeepsInv(cc, w, ev);
    case _ => OtherKeepsInv(cc, w, ev);
  }

  /** While a stop is outstanding the capture button starts nothing. */
  lemma NoStartWhileStopping(cc: CharClasses, w: GuardedWorld)
    requires Inv(w) && w.screen.stopping.Some?
    ensures GuardedStep(cc, w.screen, CaptureTapped) == Outcome(w.screen, [])
    ensures GuardedRun(cc, w, CaptureTapped).live == w.live
  {
  }

  /**
   * A rename only ever happens to the session the screen stopped, never to
   * one that ended on its own, and the pending name is gone afterwards.
   */
  lemma RenameOnlyForStoppedSession(cc: CharClasses, w: GuardedWorld, id: SessionId, error: bool, storeOk: bool)
    requires Inv(w) && id in w.live
    ensures var o := GuardedStep(cc, w.screen, Backend(Finalized(id, error, storeOk)));
      (HasRename(o.effects) ==> w.screen.stopping == Some(id) && w.screen.c.pendingFilename.Some?) &&
      o.next.c.pendingFilename.None?
  {
    var g := w.screen;
    var o := GuardedStep(cc, g, Backend(Finalized(id, error, storeOk)));
    var policy := FilePolicy(g.c.(isPaused := false), id, error, storeOk);
    if HasRename(o.effects) {
      var i :| 0 <= i < |o.effects| && o.effects[i].Rename?;
      if i < |policy| {
        assert policy[i] == o.effects[i];
      }
    }
  }

  /**
   * Leaving the app while a scan's stop is outstanding cancels the queued
   * restart and the name: the finalize deletes the clip and starts nothing.
   */
  lemma LeaveDuringCutCancels(cc: CharClasses, w: GuardedWorld, destroy: bool, storeOk: bool)
    requires Inv(w) && w.screen.stopping.Some?
    ensures var id := w.screen.stopping.value;
      var o1 := GuardedStep(cc, w.screen, if destroy then Destroyed else UserLeaving);
      var o2 := GuardedStep(cc, o1.next, Backend(Finalized(id, false, storeOk)));
      Delete(id) in o2.effects && !HasRename(o2.effects) && Begun(o2.effects) == {} &&
      o2.next.c.recording.None? && o2.next.stopping.None?
  {
  }

  /**
   * When nothing races, the correction is invisible: a clean finish of the
   * stopped session issues exactly the calls of the screen as written.
   */
  lemma CleanFinishAgrees(cc: CharClasses, w: GuardedWorld, storeOk: bool)
    requires Inv(w) && w.screen.stopping.Some?
    ensures var id := w.screen.stopping.value;
      var o := GuardedStep(cc, w.screen, Backend(Finalized(id, false, storeOk)));
      var t := Step(cc, w.screen.c, Backend(Finalized(id, false, storeOk)));
      o.effects == t.effects && o.next.c == t.next && o.next.stopping.None?
  {
  }
}
