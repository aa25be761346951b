/**
 * The start screen (`MainActivity`): the scan → record → scan loop driven by
 * activity results, the permission gate in front of it, and the battery
 * indicator. Activity launches, media-store calls and toasts are effects.
 */
module MainFlow {

  import opened Wrappers
  import opened Text
  import opened Naming
  import opened Recording

  datatype FlowEffect =
    | PromptForFilename               // the "Enter filename" dialog
    | ShowScanned(code: string)       // "Scanned: <code>"
    | StartCapture(filename: string)  // insert a media-store entry under that name, then record into it
    | LaunchCapture(uri: Uri)         // the recorder, writing into the inserted entry
    | FailedToCreate                  // "Failed to create file": the insert returned null
    | InsertError                     // "Error: ...": the insert threw
    | FilenameRequired                // "Filename required"
    | LaunchScan
    | DeleteUri(uri: Uri)
    | CreateFolders
    | PermissionsRequired             // "Permissions required: Camera + Audio"

  /** The screen's one piece of state the loop uses: the URI of the clip being recorded. */
  datatype Main = Main(videoUri: Option<Uri>)

  datatype MainStep = MainStep(next: Main, effects: seq<FlowEffect>)

  /**
   * The barcode scanner's result: "manual entry" opens the file name dialog;
   * "OK" with a code starts a capture named by the sanitised code (no
   * extension added); anything else does nothing.
   */
  function OnScanResult(resultCode: int, scanResult: Option<string>): (effects: seq<FlowEffect>)
  {
    if resultCode == RESULT_FIRST_USER then [PromptForFilename]
    else if resultCode == RESULT_OK && scanResult.Some? then
      [ShowScanned(scanResult.value), StartCapture(Sanitize(scanResult.value))]
    else []
  }

  /** The capture started by a scan result is named by the sanitised code: safe, same length. */
  lemma ScanResultStartsSafeCapture(resultCode: int, scanResult: Option<string>)
    ensures var effects := OnScanResult(resultCode, scanResult);
      (resultCode == RESULT_FIRST_USER <==> PromptForFilename in effects) &&
      (forall e :: e in effects && e.StartCapture? ==>
        resultCode == RESULT_OK && scanResult.Some? &&
        IsSafeName(e.filename) && |e.filename| == |scanResult.value|) &&
      (resultCode == RESULT_OK && scanResult.Some? ==> StartCapture(Sanitize(scanResult.value)) in effects) &&
      (!(resultCode == RESULT_FIRST_USER || (resultCode == RESULT_OK && scanResult.Some?)) ==> effects == [])
  {
  }

  /** The "Record" button of the file name dialog. */
  function OnFilenameEntered(ws: CharTest, entry: string): (effects: seq<FlowEffect>)
  {
    match ManualFilename(ws, entry)
    case None => [FilenameRequired]
    case Some(name) => [StartCapture(name)]
  }

  /**
   * A blank entry starts nothing; any other starts exactly one capture, under
   * a name ending in `.mp4`.
   */
  lemma FilenameEnteredStartsOne(ws: CharTest, entry: string)
    ensures var effects := OnFilenameEntered(ws, entry);
      ((forall i :: 0 <= i < |entry| ==> ws(entry[i])) <==> effects == [FilenameRequired]) &&
      (forall e :: e in effects && e.StartCapture? ==> EndsWith(e.filename, ".mp4")) &&
      (!(forall i :: 0 <= i < |entry| ==> ws(entry[i])) ==>
        |effects| == 1 && effects[0].StartCapture? && ManualFilename(ws, entry) == Some(effects[0].filename))
  {
    ManualFilenameSpec(ws, entry);
  }

  /**
   * What the media store's `insert` and the recorder launch did: both
   * succeeded, the insert returned null, the insert threw, or the insert
   * succeeded and the launch threw.
   */
  datatype InsertOutcome = Inserted(uri: Uri) | InsertedNull | InsertThrew | LaunchThrew(uri: Uri)

  /**
   * `startVideoCaptureWithFilename`: remember the new entry's URI and launch
   * the recorder into it. When the insert yields nothing or throws, only a
   * toast is shown and the remembered URI stays as it was. When the launch
   * throws, the new URI is already remembered, the error toast is shown and
   * neither the recorder nor the scanner is launched.
   */
  function StartWithFilename(m: Main, outcome: InsertOutcome): (t: MainStep)
    ensures outcome.Inserted? ==>
      t.next.videoUri == Some(outcome.uri) && t.effects == [LaunchCapture(outcome.uri)]
    ensures outcome.LaunchThrew? ==>
      t.next.videoUri == Some(outcome.uri) && t.effects == [InsertError]
    ensures outcome.InsertedNull? || outcome.InsertThrew? ==>
      t.next == m && |t.effects| == 1 && !t.effects[0].LaunchCapture? && !t.effects[0].LaunchScan?
  {
    match outcome
    case Inserted(uri) => MainStep(Main(Some(uri)), [LaunchCapture(uri)])
    case InsertedNull => MainStep(m, [FailedToCreate])
    case InsertThrew => MainStep(m, [InsertError])
    case LaunchThrew(uri) => MainStep(Main(Some(uri)), [InsertError])
  }

  /**
   * Only a successful launch continues the loop: every failure of the start
   * launches neither the recorder nor the scanner, so the screen waits.
   */
  lemma FailedStartStallsLoop(m: Main, outcome: InsertOutcome)
    ensures var t := StartWithFilename(m, outcome);
      (forall e :: e in t.effects && e.LaunchCapture? ==> outcome.Inserted? && e.uri == outcome.uri) &&
      (outcome.Inserted? ==> LaunchCapture(outcome.uri) in t.effects) &&
      (forall e :: e in t.effects ==> !e.LaunchScan?)
  {
  }

  /**
   * The recorder's result: "OK" keeps the clip; anything else deletes the
   * remembered entry, if any, and forgets it. Both relaunch the scanner.
   */
  function OnCaptureResult(m: Main, resultCode: int): (t: MainStep)
  {
    if resultCode == RESULT_OK then MainStep(m, [LaunchScan])
    else
      MainStep(Main(None), (if m.videoUri.Some? then [DeleteUri(m.videoUri.value)] else []) + [LaunchScan])
  }

  /**
   * Exactly one scanner launch follows every capture result; a clip is
   * deleted only on a non-OK result and only the remembered one, and after
   * a non-OK result no URI is remembered.
   */
  lemma CaptureResultRelaunches(m: Main, resultCode: int)
    ensures var t := OnCaptureResult(m, resultCode);
      t.effects[|t.effects| - 1] == LaunchScan &&
      (forall i :: 0 <= i < |t.effects| - 1 ==> t.effects[i] != LaunchScan) &&
      (forall e :: e in t.effects && e.DeleteUri? ==> resultCode != RESULT_OK && m.videoUri == Some(e.uri)) &&
      (resultCode != RESULT_OK && m.videoUri.Some? ==> DeleteUri(m.videoUri.value) in t.effects) &&
      (resultCode == RESULT_OK ==> t.next == m && t.effects == [LaunchScan]) &&
      (resultCode != RESULT_OK ==> t.next.videoUri.None?)
  {
  }

  /**
   * The clip a launched capture records into is the one a cancelled capture
   * deletes: the start and the result agree on the URI.
   */
  lemma CancelDeletesLaunchedClip(m: Main, uri: Uri, resultCode: int)
    ensures var started := StartWithFilename(m, Inserted(uri));
      var back := OnCaptureResult(started.next, resultCode);
      LaunchCapture(uri) in started.effects &&
      (resultCode != RESULT_OK <==> back.effects == [DeleteUri(uri), LaunchScan]) &&
      (resultCode == RESULT_OK ==> back.next.videoUri == Some(uri))
  {
  }

  /** The permissions the scan flow cannot do without. */
  datatype Permission = Camera | RecordAudio | WriteStorage | ReadStorage | ReadMediaVideo

  /** A permission is granted only when the answer holds it and says yes. */
  predicate Granted(perms: map<Permission, bool>, p: Permission) {
    p in perms && perms[p]
  }

  /** The permission dialog's answer: the folders and the scan only with camera and audio. */
  function OnPermissions(perms: map<Permission, bool>): (effects: seq<FlowEffect>)
    ensures LaunchScan in effects <==> Granted(perms, Camera) && Granted(perms, RecordAudio)
    ensures LaunchScan !in effects <==> effects == [PermissionsRequired]
    ensures LaunchScan in effects ==> effects == [CreateFolders, LaunchScan]
  {
    var cameraGranted := if Camera in perms then perms[Camera] else false;
    var audioGranted := if RecordAudio in perms then perms[RecordAudio] else false;
    if cameraGranted && audioGranted then [CreateFolders, LaunchScan] else [PermissionsRequired]
  }

  /** The storage permissions never decide whether the scan starts. */
  lemma OnlyCameraAndAudioMatter(perms: map<Permission, bool>, p: Permission, granted: bool)
    requires p != Camera && p != RecordAudio
    ensures OnPermissions(perms[p := granted]) == OnPermissions(perms)
  {
    assert Granted(perms[p := granted], Camera) == Granted(perms, Camera);
    assert Granted(perms[p := granted], RecordAudio) == Granted(perms, RecordAudio);
  }

  datatype BatteryColor = Green | Orange | Red

  /** The indicator colour: green from 60 %, orange from 30 %, red below. */
  function ColorOf(percentage: int): (c: BatteryColor)
  {
    if percentage >= 60 then Green else if percentage >= 30 then Orange else Red
  }

  /** How alarming a colour is. */
  function Severity(c: BatteryColor): nat {
    match c
    case Green => 0
    case Orange => 1
    case Red => 2
  }

  /**
   * The colour follows the thresholds and never gets more alarming as the
   * charge rises.
   */
  lemma ColorThresholds(p: int, q: int)
    requires p <= q
    ensures Severity(ColorOf(q)) <= Severity(ColorOf(p))
    ensures ColorOf(p) == Green <==> p >= 60
    ensures ColorOf(p) == Red <==> p < 30
  {
  }

  /** `"Battery: <p>%"`, followed by `" (Charging)"` while charging. */
  function BatteryLabel(percentage: int, charging: bool): (text: string)
  {
    "Battery: " + IntToDecimal(percentage) + "%" + (if charging then " (Charging)" else "")
  }

  /** The label shows the percentage and ends with " (Charging)" exactly when charging. */
  lemma BatteryLabelCharging(percentage: int, charging: bool)
    ensures "Battery: " + IntToDecimal(percentage) + "%" <= BatteryLabel(percentage, charging)
    ensures EndsWith(BatteryLabel(percentage, charging), " (Charging)") <==> charging
  {
    var head := "Battery: " + IntToDecimal(percentage) + "%";
    var shown := BatteryLabel(percentage, charging);
    if charging {
      AppendedEndsWith(head, " (Charging)");
    } else {
      assert shown == head;
      assert shown[|shown| - 1] == '%';
    }
  }
}
