/**
 * Video quality preference, shared by the continuous and the single-shot
 * capture screens: the stored short name, the quality it selects, and the
 * quality dialog's option list and preselected entry.
 */
module VideoQuality {

  import opened Wrappers

  /** The camera library's qualities; `Lowest` and `Highest` are never offered. */
  datatype Quality = UHD | FHD | HD | SD | Lowest | Highest

  /** One line of the quality dialog: its caption and the quality it selects. */
  datatype QualityOption = QualityOption(caption: string, quality: Quality)

  /** The four qualities the dialog can offer, in the order it offers them. */
  const Offered: seq<Quality> := [UHD, FHD, HD, SD]

  /** The short names stored in the preferences. */
  predicate IsKnownName(name: string) {
    name == "UHD" || name == "FHD" || name == "HD" || name == "SD"
  }

  /** `getQualityFromPreference`: a stored short name to its quality; unknown names mean HD. */
  function QualityFromName(name: string): (q: Quality)
    ensures q in Offered
    ensures !IsKnownName(name) ==> q == HD
  {
    match name
    case "UHD" => UHD
    case "FHD" => FHD
    case "HD" => HD
    case "SD" => SD
    case _ => HD
  }

  /** The short name stored when a quality is picked in the dialog; others store HD. */
  function ShortName(q: Quality): (name: string)
    ensures IsKnownName(name)
    ensures q !in Offered ==> name == "HD"
  {
    match q
    case UHD => "UHD"
    case FHD => "FHD"
    case HD => "HD"
    case SD => "SD"
    case _ => "HD"
  }

  /**
   * The two mappings are inverse on what the dialog stores: an offered quality
   * survives the round trip through its short name, and so does a known name.
   */
  lemma ShortNameRoundTrip(q: Quality, name: string)
    ensures q in Offered ==> QualityFromName(ShortName(q)) == q
    ensures IsKnownName(name) ==> ShortName(QualityFromName(name)) == name
  {
  }

  function Label(q: Quality): string {
    match q
    case UHD => "4K (UHD)"
    case FHD => "1080p (FHD)"
    case HD => "720p (HD)"
    case SD => "480p (SD)"
    case _ => ""
  }

  /**
   * The dialog's options: the offered qualities the camera supports, in offer
   * order; one `if (supported.contains(...)) add(...)` per offered quality.
   */
  function QualityOptions(supported: set<Quality>): (opts: seq<QualityOption>)
    ensures forall i :: 0 <= i < |opts| ==> opts[i].quality in supported && opts[i].quality in Offered
    ensures InOfferOrder(opts)
  {
    assert RankedBy(Offered);
    OptionsOf(Offered, supported)
  }

  /** Some line of `opts` selects `q`. */
  predicate Offers(opts: seq<QualityOption>, q: Quality) {
    exists i :: 0 <= i < |opts| && opts[i].quality == q
  }

  /** Options listed with strictly increasing offer rank. */
  predicate InOfferOrder(opts: seq<QualityOption>) {
    forall i, j :: 0 <= i < j < |opts| ==> OfferRank(opts[i].quality) < OfferRank(opts[j].quality)
  }

  /** Qualities listed with strictly increasing offer rank. */
  predicate RankedBy(qs: seq<Quality>) {
    forall i, j :: 0 <= i < j < |qs| ==> OfferRank(qs[i]) < OfferRank(qs[j])
  }

  /** One option for each quality of `qs` in `supported`, in the order of `qs`. */
  function OptionsOf(qs: seq<Quality>, supported: set<Quality>): (opts: seq<QualityOption>)
    requires RankedBy(qs)
    ensures forall i :: 0 <= i < |opts| ==> opts[i].quality in supported && opts[i].quality in qs
    ensures InOfferOrder(opts)
  {
    if |qs| == 0 then []
    else
      var rest := OptionsOf(qs[1..], supported);
      if qs[0] in supported then
        var opts := [QualityOption(Label(qs[0]), qs[0])] + rest;
        forall i | 0 < i < |opts| ensures opts[i] == rest[i - 1] && OfferRank(qs[0]) < OfferRank(opts[i].quality) {
          var k :| 0 <= k < |qs[1..]| && qs[1..][k] == rest[i - 1].quality;
          assert qs[k + 1] == rest[i - 1].quality;
        }
        opts
      else
        rest
  }

  /** Every supported quality of `qs` gets a line. */
  lemma {:induction false} OptionsOfCovers(qs: seq<Quality>, supported: set<Quality>, q: Quality)
    requires RankedBy(qs)
    requires q in qs && q in supported
    ensures Offers(OptionsOf(qs, supported), q)
    decreases |qs|
  {
    var head: seq<QualityOption> := if qs[0] in supported then [QualityOption(Label(qs[0]), qs[0])] else [];
    var rest := OptionsOf(qs[1..], supported);
    assert OptionsOf(qs, supported) == head + rest;
    if qs[0] == q {
      assert (head + rest)[0].quality == q;
    } else {
      assert q in qs[1..];
      OptionsOfCovers(qs[1..], supported, q);
      OffersAfter(head, rest, q);
    }
  }

  /** A line of `rest` is still there behind `head`. */
  lemma OffersAfter(head: seq<QualityOption>, rest: seq<QualityOption>, q: Quality)
    requires Offers(rest, q)
    ensures Offers(head + rest, q)
  {
    var k :| 0 <= k < |rest| && rest[k].quality == q;
    assert (head + rest)[|head| + k] == rest[k];
  }

  /**
   * The dialog lists exactly the supported qualities among UHD, FHD, HD and
   * SD, in that order.
   */
  lemma QualityOptionsExact(supported: set<Quality>, q: Quality)
    ensures Offers(QualityOptions(supported), q) <==> q in supported && q in Offered
  {
    if q in supported && q in Offered {
      OptionsOfCovers(Offered, supported, q);
    }
  }

  /** Position of a quality in the offer order. */
  function OfferRank(q: Quality): nat {
    match q
    case UHD => 0
    case FHD => 1
    case HD => 2
    case SD => 3
    case _ => 4
  }

  /**
   * The preselected line: the first option whose quality is the one the
   * stored name selects, or the first line when there is none.
   */
  function SelectedIndex(opts: seq<QualityOption>, current: Quality): (i: nat)
    requires |opts| > 0
    ensures i < |opts|
    ensures (exists j :: 0 <= j < |opts| && opts[j].quality == current) ==>
      opts[i].quality == current && forall j :: 0 <= j < i ==> opts[j].quality != current
    ensures (forall j :: 0 <= j < |opts| ==> opts[j].quality != current) ==> i == 0
  {
    match IndexOfFirst(opts, current)
    case Some(k) => k
    case None => 0
  }

  /** `indexOfFirst` for a quality, with `None` standing for -1. */
  function IndexOfFirst(opts: seq<QualityOption>, q: Quality): (r: Option<nat>)
    ensures r.Some? ==>
      r.value < |opts| && opts[r.value].quality == q && forall j :: 0 <= j < r.value ==> opts[j].quality != q
    ensures r.None? ==> forall j :: 0 <= j < |opts| ==> opts[j].quality != q
  {
    if |opts| == 0 then None
    else if opts[0].quality == q then Some(0)
    else match IndexOfFirst(opts[1..], q)
      case Some(k) => Some(k + 1)
      case None => None
  }

  /** What pressing the quality button leads to. */
  datatype DialogOutcome =
    | RefusedWhileRecording   // "Cannot change quality while recording"
    | NoBackCamera            // no back-facing camera: nothing happens
    | NoQualities             // "No supported qualities found"
    | Shown(options: seq<QualityOption>, selected: nat)

  /**
   * `showQualityDialog` up to the dialog being shown: refused while
   * recording, silent without a back camera, a toast when none of the four
   * qualities is supported, else the options with the stored quality
   * preselected, or the first line when the camera does not support it.
   */
  function OpenQualityDialog(recording: bool, backCamera: Option<set<Quality>>, storedName: string): (d: DialogOutcome)
    ensures recording <==> d.RefusedWhileRecording?
    ensures d.Shown? ==>
      backCamera.Some? && d.selected < |d.options| && d.options == QualityOptions(backCamera.value)
    ensures d.Shown? && backCamera.Some? && QualityFromName(storedName) in backCamera.value ==>
      d.options[d.selected].quality == QualityFromName(storedName)
    ensures !recording && backCamera.Some? ==>
      (d.NoQualities? <==> forall q :: q in Offered ==> q !in backCamera.value)
    ensures !recording && backCamera.None? ==> d == NoBackCamera
    ensures d.NoBackCamera? <==> !recording && backCamera.None?
    ensures !recording && backCamera.Some? && (exists q :: q in Offered && q in backCamera.value) ==> d.Shown?
    ensures d.Shown? && backCamera.Some? && QualityFromName(storedName) !in backCamera.value ==>
      d.selected == 0
  {
    if recording then RefusedWhileRecording
    else match backCamera
      case None => NoBackCamera
      case Some(supported) =>
        var opts := QualityOptions(supported);
        var current := QualityFromName(storedName);
        QualityOptionsExact(supported, current);
        forall q | q in Offered && q in supported ensures |opts| > 0 {
          QualityOptionsExact(supported, q);
        }
        if |opts| == 0 then NoQualities
        else Shown(opts, SelectedIndex(opts, QualityFromName(storedName)))
  }

  /**
   * Picking line `which` stores the short name of its quality, so that the
   * next read of the preference selects exactly that quality.
   */
  function ChooseQuality(opts: seq<QualityOption>, which: nat): (storedName: string)
    requires forall i :: 0 <= i < |opts| ==> opts[i].quality in Offered
    requires which < |opts|
    ensures IsKnownName(storedName)
    ensures QualityFromName(storedName) == opts[which].quality
  {
    ShortName(opts[which].quality)
  }
}
