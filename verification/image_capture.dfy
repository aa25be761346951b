/**
 * The still-image capture screen (`SingleImageCaptureActivity`): the photo's
 * file name, the save and error callbacks, the preview screen's verdict, the
 * EXIF orientation that decides the rotation before stamping, and the torch
 * toggle.
 */
module ImageCapture {

  import opened Wrappers
  import opened Naming
  import Recording

  type Uri = Recording.Uri

  /** The bound camera, as far as the screen asks about it. */
  datatype CameraInfo = CameraInfo(hasFlashUnit: bool)

  /**
   * The screen's fields: the requested name, the URI of the last saved
   * photo, the torch state, and the bound camera, if any.
   */
  datatype Photo = Photo(
    pendingFilename: Option<string>,
    lastCapturedUri: Option<Uri>,
    torchOn: bool,
    camera: Option<CameraInfo>)

  datatype PhotoEffect =
    | TakePicture(filename: string) // save a JPEG under that display name
    | LaunchPreview(uri: Uri)
    | StampTimestamp(uri: Uri)      // rotate per EXIF, draw the stamp, rewrite
    | DeleteImage(uri: Uri)
    | SetResult(result: Recording.ActivityResult)
    | Finish
    | CaptureFailed                 // "Capture failed"
    | EnableTorch(on: bool)
    | FlashUnavailable              // "Flash not available"

  datatype PhotoStep = PhotoStep(next: Photo, effects: seq<PhotoEffect>)

  /**
   * `takePhoto`: without a bound image use case nothing happens; otherwise a
   * picture is taken under the requested name, or the timestamp name, with
   * a JPEG suffix ensured.
   */
  function TakePhoto(p: Photo, bound: bool, timestamp: string): (effects: seq<PhotoEffect>)
    ensures !bound ==> effects == []
    ensures bound ==>
      |effects| == 1 && effects[0].TakePicture? && HasJpegSuffix(effects[0].filename) &&
      (p.pendingFilename.Some? ==> p.pendingFilename.value <= effects[0].filename) &&
      (p.pendingFilename.None? ==> timestamp <= effects[0].filename) &&
      (var n := p.pendingFilename.GetOr(timestamp);
       effects[0].filename == (if HasJpegSuffix(n) then n else n + ".jpg"))
  {
    if bound then [TakePicture(PhotoFilename(p.pendingFilename, timestamp))] else []
  }

  /**
   * `onImageSaved`: with a URI it is remembered and the preview is launched;
   * without one the screen ends with "OK".
   */
  function OnImageSaved(p: Photo, savedUri: Option<Uri>): (t: PhotoStep)
    ensures savedUri.Some? ==> t.next == p.(lastCapturedUri := savedUri) && t.effects == [LaunchPreview(savedUri.value)]
    ensures savedUri.None? ==> t.next == p && t.effects == [SetResult(Recording.ResultOk), Finish]
  {
    match savedUri
    case Some(uri) => PhotoStep(p.(lastCapturedUri := Some(uri)), [LaunchPreview(uri)])
    case None => PhotoStep(p, [SetResult(Recording.ResultOk), Finish])
  }

  /** `onError`: the screen ends with "canceled". */
  function OnCaptureError(p: Photo): (t: PhotoStep)
    ensures t.next == p
    ensures SetResult(Recording.ResultCanceled) in t.effects && Finish in t.effects && SetResult(Recording.ResultOk) !in t.effects
  {
    PhotoStep(p, [CaptureFailed, SetResult(Recording.ResultCanceled), Finish])
  }

  /**
   * The preview screen's verdict: with no saved photo only the status is
   * reset; "OK" stamps the photo and ends the screen with "OK"; anything
   * else deletes the photo and forgets it, and the screen stays open.
   */
  function OnPreviewResult(p: Photo, resultCode: int): (t: PhotoStep)
  {
    match p.lastCapturedUri
    case None => PhotoStep(p, [])
    case Some(uri) =>
      if resultCode == Recording.RESULT_OK then PhotoStep(p, [StampTimestamp(uri), SetResult(Recording.ResultOk), Finish])
      else PhotoStep(p.(lastCapturedUri := None), [DeleteImage(uri)])
  }

  /**
   * A saved photo is kept (stamped) exactly when the preview says "OK", and
   * deleted otherwise; the screen ends only on "OK".
   */
  lemma PreviewKeepsOrDeletes(p: Photo, uri: Uri, resultCode: int)
    ensures var t := OnPreviewResult(OnImageSaved(p, Some(uri)).next, resultCode);
      (StampTimestamp(uri) in t.effects <==> resultCode == Recording.RESULT_OK) &&
      (DeleteImage(uri) in t.effects <==> resultCode != Recording.RESULT_OK) &&
      (Finish in t.effects <==> resultCode == Recording.RESULT_OK) &&
      (resultCode == Recording.RESULT_OK ==> SetResult(Recording.ResultOk) in t.effects) &&
      (resultCode != Recording.RESULT_OK ==> forall e :: e in t.effects ==> !e.SetResult?) &&
      (forall e :: e in t.effects ==> e != SetResult(Recording.ResultCanceled)) &&
      (resultCode != Recording.RESULT_OK ==> t.next.lastCapturedUri.None?)
  {
  }

  /** With no saved photo the preview's verdict changes nothing. */
  lemma PreviewWithoutPhoto(p: Photo, resultCode: int)
    requires p.lastCapturedUri.None?
    ensures OnPreviewResult(p, resultCode) == PhotoStep(p, [])
  {
  }

  /** EXIF orientation values (`ExifInterface.ORIENTATION_*`). */
  const ORIENTATION_NORMAL: int := 1
  const ORIENTATION_ROTATE_180: int := 3
  const ORIENTATION_ROTATE_90: int := 6
  const ORIENTATION_ROTATE_270: int := 8

  /**
   * `readExifRotation`: the orientation tag read from the photo, `None` when
   * the stream could not be opened or reading threw; a missing tag reads as
   * normal. The result is in degrees.
   */
  function ExifRotation(orientation: Option<int>): (degrees: int)
  {
    match orientation
    case None => 0
    case Some(o) =>
      if o == ORIENTATION_ROTATE_90 then 90
      else if o == ORIENTATION_ROTATE_180 then 180
      else if o == ORIENTATION_ROTATE_270 then 270
      else 0
  }

  /**
   * The rotation is a quarter turn exactly for the three rotate tags, in
   * their order, and none for everything else including read failures.
   */
  lemma ExifRotationSpec(orientation: Option<int>)
    ensures ExifRotation(orientation) in {0, 90, 180, 270}
    ensures ExifRotation(orientation) != 0 <==>
      orientation.Some? && orientation.value in {ORIENTATION_ROTATE_90, ORIENTATION_ROTATE_180, ORIENTATION_ROTATE_270}
    ensures orientation.Some? && orientation.value == ORIENTATION_ROTATE_90 ==> ExifRotation(orientation) == 90
    ensures orientation.Some? && orientation.value == ORIENTATION_ROTATE_180 ==> ExifRotation(orientation) == 180
    ensures orientation.Some? && orientation.value == ORIENTATION_ROTATE_270 ==> ExifRotation(orientation) == 270
  {
  }

  datatype RotationPlan = KeepOriginal | RotateBy(degrees: int)

  /** `rotateIfNeeded`: the bitmap is left as it is for rotation 0, rotated otherwise. */
  function PlanRotation(orientation: Option<int>): (plan: RotationPlan)
    ensures plan == KeepOriginal <==> ExifRotation(orientation) == 0
    ensures plan.RotateBy? ==> plan.degrees == ExifRotation(orientation) && plan.degrees in {90, 180, 270}
  {
    var r := ExifRotation(orientation);
    if r == 0 then KeepOriginal else RotateBy(r)
  }

  /**
   * `toggleFlash`: nothing without a camera; with a flash unit the torch
   * flips and the camera is told; otherwise only a notice is shown.
   */
  function ToggleFlash(p: Photo): (t: PhotoStep)
  {
    match p.camera
    case None => PhotoStep(p, [])
    case Some(info) =>
      if info.hasFlashUnit then PhotoStep(p.(torchOn := !p.torchOn), [EnableTorch(!p.torchOn)])
      else PhotoStep(p, [FlashUnavailable])
  }

  /**
   * Nothing happens without a camera; a camera without a flash unit only
   * shows "Flash not available"; otherwise the torch flips, the camera is
   * told the new state, and toggling twice restores the screen.
   */
  lemma ToggleFlashSpec(p: Photo)
    ensures p.camera.None? ==> ToggleFlash(p) == PhotoStep(p, [])
    ensures p.camera.Some? && !p.camera.value.hasFlashUnit ==> ToggleFlash(p) == PhotoStep(p, [FlashUnavailable])
    ensures var t := ToggleFlash(p);
      (t.next.torchOn != p.torchOn <==> p.camera.Some? && p.camera.value.hasFlashUnit) &&
      (t.next.torchOn != p.torchOn ==> t.effects == [EnableTorch(t.next.torchOn)]) &&
      t.next.(torchOn := p.torchOn) == p &&
      ToggleFlash(t.next).next == p
  {
  }
}
