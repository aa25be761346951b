/**
 * Vocabulary shared by the screens: recording sessions, the lifecycle events
 * the recorder backend delivers, activity results and media-store URIs, and
 * the platform calls a video screen issues in response, as effect values.
 */
module Recording {

  /** One `Recording` handed out by the backend; ids are never reused. */
  type SessionId = nat

  /**
   * Lifecycle events of a session (`VideoRecordEvent`). `Finalized` carries
   * whether the backend reported an error, and whether the media-store call
   * made while handling it (`update` to rename, `delete` to discard)
   * completed without throwing.
   */
  datatype BackendEvent =
    | Started(session: SessionId)
    | Paused(session: SessionId)
    | Resumed(session: SessionId)
    | Finalized(session: SessionId, error: bool, storeOk: bool)

  /** The result a screen hands back to the one that started it. */
  datatype ActivityResult = ResultOk | ResultCanceled

  /** Android's activity result codes, as the receiving screen sees them. */
  const RESULT_OK: int := -1
  const RESULT_CANCELED: int := 0
  const RESULT_FIRST_USER: int := 1

  /** A content URI handed out by the media store, kept opaque. */
  type Uri = nat

  /** The status toasts the policy decides between. */
  datatype Notice =
    | SavedAs(name: string)      // "Saved as <name>"
    | SavedRenameFailed          // "Saved (rename failed)"
    | DiscardedNotScanned        // "Recording discarded (not scanned)"
    | VideoSaved                 // "Video saved"
    | DiscardedLeftApp           // "Recording discarded (left app)"

  /** Platform calls, in the order a handler issues them. */
  datatype Effect =
    | Begin(session: SessionId)                // prepareRecording(...).start(...) under a timestamp name
    | Stop(session: SessionId)
    | Pause(session: SessionId)
    | Resume(session: SessionId)
    | Mute(session: SessionId, muted: bool)
    | Close(session: SessionId)
    | Rename(session: SessionId, name: string) // set DISPLAY_NAME of the session's output
    | Delete(session: SessionId)               // delete the session's output
    | Notify(notice: Notice)
    | SetResult(result: ActivityResult)
    | Finish

  /** The sessions begun by a list of effects. */
  function Begun(effects: seq<Effect>): set<SessionId> {
    set i | 0 <= i < |effects| && effects[i].Begin? :: effects[i].session
  }

  /** How many sessions a list of effects begins. */
  function CountBegins(effects: seq<Effect>): (n: nat)
    ensures n == 0 <==> Begun(effects) == {}
    ensures n <= |effects|
  {
    if |effects| == 0 then 0
    else
      var rest := effects[1..];
      assert Begun(effects) == (if effects[0].Begin? then {effects[0].session} else {}) + Begun(rest) by {
        forall x | x in Begun(effects)
          ensures x in (if effects[0].Begin? then {effects[0].session} else {}) + Begun(rest)
        {
          var i :| 0 <= i < |effects| && effects[i].Begin? && effects[i].session == x;
          if i > 0 { assert rest[i - 1] == effects[i]; }
        }
        forall x | x in Begun(rest) ensures x in Begun(effects) {
          var i :| 0 <= i < |rest| && rest[i].Begin? && rest[i].session == x;
          assert effects[i + 1] == rest[i];
        }
      }
      (if effects[0].Begin? then 1 else 0) + CountBegins(rest)
  }

  predicate HasRename(effects: seq<Effect>) {
    exists i :: 0 <= i < |effects| && effects[i].Rename?
  }

  predicate HasDelete(effects: seq<Effect>) {
    exists i :: 0 <= i < |effects| && effects[i].Delete?
  }

  /** What a list of effects begins, renames and deletes, across a concatenation. */
  lemma CountBeginsAppend(a: seq<Effect>, b: seq<Effect>)
    ensures CountBegins(a + b) == CountBegins(a) + CountBegins(b)
    ensures Begun(a + b) == Begun(a) + Begun(b)
    ensures HasRename(a + b) <==> HasRename(a) || HasRename(b)
    ensures HasDelete(a + b) <==> HasDelete(a) || HasDelete(b)
    ensures forall e :: e in a ==> e in a + b
  {
    CountAppend(a, b);
    BegunAppend(a, b);
    RenameDeleteAppend(a, b);
  }

  lemma {:induction false} CountAppend(a: seq<Effect>, b: seq<Effect>)
    ensures CountBegins(a + b) == CountBegins(a) + CountBegins(b)
  {
    if |a| > 0 {
      assert (a + b)[1..] == a[1..] + b;
      CountAppend(a[1..], b);
    } else {
      assert a + b == b;
    }
  }

  lemma BegunAppend(a: seq<Effect>, b: seq<Effect>)
    ensures Begun(a + b) == Begun(a) + Begun(b)
  {
    forall x | x in Begun(a + b) ensures x in Begun(a) + Begun(b) {
      var i :| 0 <= i < |a + b| && (a + b)[i].Begin? && (a + b)[i].session == x;
      if i < |a| { assert a[i] == (a + b)[i]; } else { assert b[i - |a|] == (a + b)[i]; }
    }
    forall x | x in Begun(a) ensures x in Begun(a + b) {
      var i :| 0 <= i < |a| && a[i].Begin? && a[i].session == x;
      assert (a + b)[i] == a[i];
    }
    forall x | x in Begun(b) ensures x in Begun(a + b) {
      var i :| 0 <= i < |b| && b[i].Begin? && b[i].session == x;
      assert (a + b)[|a| + i] == b[i];
    }
  }

  lemma RenameDeleteAppend(a: seq<Effect>, b: seq<Effect>)
    ensures HasRename(a + b) <==> HasRename(a) || HasRename(b)
    ensures HasDelete(a + b) <==> HasDelete(a) || HasDelete(b)
    ensures forall e :: e in a ==> e in a + b
  {
    if HasRename(a + b) {
      var i :| 0 <= i < |a + b| && (a + b)[i].Rename?;
      if i < |a| { assert a[i] == (a + b)[i]; } else { assert b[i - |a|] == (a + b)[i]; }
    }
    if HasDelete(a + b) {
      var i :| 0 <= i < |a + b| && (a + b)[i].Delete?;
      if i < |a| { assert a[i] == (a + b)[i]; } else { assert b[i - |a|] == (a + b)[i]; }
    }
    if HasRename(a) {
      var i :| 0 <= i < |a| && a[i].Rename?;
      assert (a + b)[i] == a[i];
    }
    if HasDelete(a) {
      var i :| 0 <= i < |a| && a[i].Delete?;
      assert (a + b)[i] == a[i];
    }
    if HasRename(b) {
      var i :| 0 <= i < |b| && b[i].Rename?;
      assert (a + b)[|a| + i] == b[i];
    }
    if HasDelete(b) {
      var i :| 0 <= i < |b| && b[i].Delete?;
      assert (a + b)[|a| + i] == b[i];
    }
  }

  /** The session a backend event is about, if it ends that session. */
  function Ended(ev: BackendEvent): set<SessionId> {
    if ev.Finalized? then {ev.session} else {}
  }

  /** No two distinct sessions in `live`: the backend records one video at a time. */
  predicate AtMostOne(live: set<SessionId>) {
    forall a, b :: a in live && b in live ==> a == b
  }
}
