/**
 * File naming rules: the scan-code sanitiser, the rule that turns a manually
 * typed tracking number into a video file name, and the JPEG extension rule
 * of the still-image capture screen.
 */
module Naming {

  import opened Wrappers
  import opened Text

  /** The characters the sanitiser keeps: the class `[a-zA-Z0-9._-]`. */
  predicate AllowedInFilename(c: char) {
    ('a' <= c <= 'z') || ('A' <= c <= 'Z') || ('0' <= c <= '9') || c == '.' || c == '_' || c == '-'
  }

  /** A string made of allowed characters only. */
  predicate IsSafeName(s: string) {
    forall i :: 0 <= i < |s| ==> AllowedInFilename(s[i])
  }

  /**
   * `sanitizeFilename`: every character outside the allowed class becomes `_`.
   * Characters are code points, as for the regular expression the app uses.
   */
  function Sanitize(s: string): (r: string)
    ensures |r| == |s|
    ensures IsSafeName(r)
    ensures forall i :: 0 <= i < |s| && AllowedInFilename(s[i]) ==> r[i] == s[i]
    ensures forall i :: 0 <= i < |s| && !AllowedInFilename(s[i]) ==> r[i] == '_'
  {
    if |s| == 0 then []
    else [if AllowedInFilename(s[0]) then s[0] else '_'] + Sanitize(s[1..])
  }

  /** Sanitising twice is sanitising once. */
  lemma SanitizeIdempotent(s: string)
    ensures Sanitize(Sanitize(s)) == Sanitize(s)
  {
    SanitizeKeepsSafe(Sanitize(s));
  }

  /** The sanitiser changes a string exactly when it holds a disallowed character. */
  lemma SanitizeKeepsSafe(s: string)
    ensures Sanitize(s) == s <==> IsSafeName(s)
  {
    if IsSafeName(s) {
      assert forall i :: 0 <= i < |s| ==> Sanitize(s)[i] == s[i];
    }
  }

  /** Sanitising neither creates nor destroys a `.mp4` ending. */
  lemma SanitizePreservesMp4Ending(s: string)
    ensures EndsWith(Sanitize(s), ".mp4") <==> EndsWith(s, ".mp4")
  {
    var r := Sanitize(s);
    if |s| >= 4 {
      var k := |s| - 4;
      if EndsWith(r, ".mp4") {
        assert r[k..][0] == '.' && r[k..][1] == 'm' && r[k..][2] == 'p' && r[k..][3] == '4';
        assert s[k..] == ".mp4";
      }
      if EndsWith(s, ".mp4") {
        assert s[k..][0] == '.' && s[k..][1] == 'm' && s[k..][2] == 'p' && s[k..][3] == '4';
        assert r[k..] == ".mp4";
      }
    }
  }

  /**
   * The "Record" button of the manual file name dialog, as written: the entry
   * is trimmed; an empty entry is rejected (`None`, no capture starts); if the
   * sanitised entry does not end in `.mp4` the name is the sanitised entry plus
   * `.mp4`, and otherwise the raw trimmed entry is used unsanitised.
   */
  function ManualFilename(ws: CharTest, entry: string): (r: Option<string>)
  {
    var name := Trim(ws, entry);
    if |name| == 0 then None
    else
      var sanitized := Sanitize(name);
      if !EndsWith(sanitized, ".mp4") then Some(sanitized + ".mp4") else Some(name)
  }

  /**
   * What the dialog does with an entry: rejects it exactly when it is blank;
   * otherwise yields a name ending in `.mp4` that is the sanitised entry plus
   * `.mp4`, unless the entry already ended in `.mp4`, in which case the
   * trimmed entry itself is the name.
   */
  lemma ManualFilenameSpec(ws: CharTest, entry: string)
    ensures ManualFilename(ws, entry).None? <==> forall i :: 0 <= i < |entry| ==> ws(entry[i])
    ensures ManualFilename(ws, entry).Some? ==> EndsWith(ManualFilename(ws, entry).value, ".mp4")
    ensures ManualFilename(ws, entry).Some? && EndsWith(Trim(ws, entry), ".mp4") ==>
      ManualFilename(ws, entry).value == Trim(ws, entry)
    ensures ManualFilename(ws, entry).Some? && !EndsWith(Trim(ws, entry), ".mp4") ==>
      ManualFilename(ws, entry).value == Sanitize(Trim(ws, entry)) + ".mp4"
  {
    TrimEmptyIffAllWhitespace(ws, entry);
    var name := Trim(ws, entry);
    SanitizePreservesMp4Ending(name);
    AppendedEndsWith(Sanitize(name), ".mp4");
  }

  /** Only spaces count as whitespace here; used by the concrete witnesses below. */
  function SpaceOnly(c: char): bool { c == ' ' }

  /**
   * Witness that an entry ending in `.mp4` bypasses the sanitiser: the entry
   * `"a b.mp4"` becomes the file name `"a b.mp4"`, which holds a space.
   */
  lemma ManualFilenameSkipsSanitizer()
    ensures ManualFilename(SpaceOnly, "a b.mp4") == Some("a b.mp4")
    ensures !IsSafeName(ManualFilename(SpaceOnly, "a b.mp4").value)
  {
    var e := "a b.mp4";
    assert e[|e| - 4..] == ".mp4";
    ManualMp4KeptAsTyped(SpaceOnly, e);
    assert !AllowedInFilename(e[1]);
  }

  /** An unpadded entry ending in `.mp4` becomes the file name exactly as typed. */
  lemma ManualMp4KeptAsTyped(ws: CharTest, entry: string)
    requires EndsWith(entry, ".mp4") && !ws(entry[0]) && !ws(entry[|entry| - 1])
    ensures ManualFilename(ws, entry) == Some(entry)
  {
    TrimUnpadded(ws, entry);
    SanitizePreservesMp4Ending(entry);
  }

  /** The manual naming rule with the sanitised entry used in both branches. */
  function ManualFilenameFixed(ws: CharTest, entry: string): (r: Option<string>)
  {
    var name := Trim(ws, entry);
    if |name| == 0 then None
    else
      var sanitized := Sanitize(name);
      if !EndsWith(sanitized, ".mp4") then Some(sanitized + ".mp4") else Some(sanitized)
  }

  /**
   * The corrected rule still rejects exactly the blank entries, and every name
   * it produces is safe, ends in `.mp4` and starts with the sanitised entry.
   */
  lemma ManualFilenameFixedIsSafe(ws: CharTest, entry: string)
    ensures ManualFilenameFixed(ws, entry).None? <==> forall i :: 0 <= i < |entry| ==> ws(entry[i])
    ensures ManualFilenameFixed(ws, entry).Some? ==>
      var r := ManualFilenameFixed(ws, entry).value;
      IsSafeName(r) && EndsWith(r, ".mp4") && Sanitize(Trim(ws, entry)) <= r
  {
    TrimEmptyIffAllWhitespace(ws, entry);
    var sanitized := Sanitize(Trim(ws, entry));
    AppendedEndsWith(sanitized, ".mp4");
    SafeAppend(sanitized, ".mp4");
  }

  /** Two safe names joined are safe. */
  lemma SafeAppend(a: string, b: string)
    requires IsSafeName(a) && IsSafeName(b)
    ensures IsSafeName(a + b)
  {
    forall i | 0 <= i < |a + b| ensures AllowedInFilename((a + b)[i]) {
      if i >= |a| { assert (a + b)[i] == b[i - |a|]; }
    }
  }

  /** A name ending in `.jpg` or `.jpeg`, ignoring case. */
  predicate HasJpegSuffix(name: string) {
    EndsWithIgnoreCase(name, ".jpg") || EndsWithIgnoreCase(name, ".jpeg")
  }

  /**
   * `ensureJpegExtension`: the name itself when it already has a JPEG suffix,
   * otherwise the name followed by `.jpg`.
   */
  function EnsureJpegExtension(name: string): (r: string)
    ensures HasJpegSuffix(r)
    ensures name <= r && |r| <= |name| + 4
    ensures r == name <==> HasJpegSuffix(name)
    ensures !HasJpegSuffix(name) ==> r == name + ".jpg"
  {
    if HasJpegSuffix(name) then name
    else
      AppendedEndsWith(name, ".jpg");
      EndsWithIgnoresCase(name + ".jpg", ".jpg");
      name + ".jpg"
  }

  /** Applying the extension rule twice is applying it once. */
  lemma EnsureJpegExtensionIdempotent(name: string)
    ensures EnsureJpegExtension(EnsureJpegExtension(name)) == EnsureJpegExtension(name)
  {
  }

  /**
   * File name of a photo (`takePhoto`): the requested name if one was passed
   * in, else the timestamp name, with a JPEG suffix ensured.
   */
  function PhotoFilename(pending: Option<string>, timestamp: string): (r: string)
    ensures HasJpegSuffix(r)
    ensures pending.Some? ==> pending.value <= r
    ensures pending.None? ==> timestamp <= r
    ensures pending.Some? && HasJpegSuffix(pending.value) ==> r == pending.value
    ensures var n := pending.GetOr(timestamp);
      (HasJpegSuffix(n) ==> r == n) && (!HasJpegSuffix(n) ==> r == n + ".jpg")
  {
    EnsureJpegExtension(pending.GetOr(timestamp))
  }

  /**
   * A name the photo rule produced is kept unchanged when it is requested
   * again, whatever the timestamp: a retaken photo lands under the same name.
   */
  lemma PhotoFilenameStable(pending: Option<string>, timestamp: string, later: string)
    ensures PhotoFilename(Some(PhotoFilename(pending, timestamp)), later) == PhotoFilename(pending, timestamp)
  {
    EnsureJpegExtensionIdempotent(pending.GetOr(timestamp));
  }
}
