/** The input check of the start button handler (script.js:29-49). A form
    field that parseInt or parseFloat turns into NaN is `None`. */
module Validation {
  import opened Wrappers

  /** The two messages the check can stop with. */
  datatype InputError =
    | NoFiles         // "Please select at least one video file."
    | InvalidNumbers  // "Please enter valid numeric values."

  /** The form as parsed (script.js:11-22): whole numbers for lengths and
      sizes, reals for zoom and flip percentages. */
  datatype Form = Form(fileCount: nat,
                       finalLength: Option<int>, minClipLength: Option<int>, maxClipLength: Option<int>,
                       zoomProbability: Option<real>, minZoom: Option<real>, maxZoom: Option<real>,
                       finalWidth: Option<int>, finalHeight: Option<int>, flipProbability: Option<real>)

  /** The run parameters handed to processVideos. */
  datatype Settings = Settings(finalLength: int, minClipLength: int, maxClipLength: int,
                               zoomProbability: real, minZoom: real, maxZoom: real,
                               finalWidth: int, finalHeight: int, flipProbability: real)

  predicate AllNumbers(f: Form) {
    f.finalLength.Some? && f.minClipLength.Some? && f.maxClipLength.Some? &&
    f.zoomProbability.Some? && f.minZoom.Some? && f.maxZoom.Some? &&
    f.finalWidth.Some? && f.finalHeight.Some? && f.flipProbability.Some?
  }

  /** The settings a form holds once every field is a number. */
  function Read(f: Form): Settings
    requires AllNumbers(f)
  {
    Settings(f.finalLength.value, f.minClipLength.value, f.maxClipLength.value,
             f.zoomProbability.value, f.minZoom.value, f.maxZoom.value,
             f.finalWidth.value, f.finalHeight.value, f.flipProbability.value)
  }

  /** The form a user fills in to ask for `s` with `fileCount` files. */
  function Entered(fileCount: nat, s: Settings): Form {
    Form(fileCount, Some(s.finalLength), Some(s.minClipLength), Some(s.maxClipLength),
         Some(s.zoomProbability), Some(s.minZoom), Some(s.maxZoom),
         Some(s.finalWidth), Some(s.finalHeight), Some(s.flipProbability))
  }

  /** Settings the check lets through: both ranges in order. */
  predicate Ordered(s: Settings) {
    s.minClipLength <= s.maxClipLength && s.minZoom <= s.maxZoom
  }

  /** The check: no files first, then any NaN or a reversed range. */
  function Check(f: Form): (r: Result<Settings, InputError>)
    ensures r == Err(NoFiles) <==> f.fileCount == 0
    ensures r.Ok? <==> f.fileCount > 0 && AllNumbers(f) && Ordered(Read(f))
    ensures r.Ok? ==> Entered(f.fileCount, r.value) == f
  {
    if f.fileCount == 0 then Err(NoFiles)
    else if !AllNumbers(f) then Err(InvalidNumbers)
    else if f.minClipLength.value > f.maxClipLength.value then Err(InvalidNumbers)
    else if f.minZoom.value > f.maxZoom.value then Err(InvalidNumbers)
    else Ok(Read(f))
  }

  /** The check with a positive minimum clip length also required, so that
      every planned clip makes the planning loop progress: it passes exactly
      the settings `Check` passes whose minimum is above 0 percent. */
  function CheckForPlanning(f: Form): (r: Result<Settings, InputError>)
    ensures r == Err(NoFiles) <==> f.fileCount == 0
    ensures r.Ok? <==> Check(f).Ok? && Check(f).value.minClipLength > 0
    ensures r.Ok? ==> r == Check(f) && 0 < r.value.minClipLength <= r.value.maxClipLength
  {
    match Check(f)
    case Err(e) => Err(e)
    case Ok(s) => if s.minClipLength > 0 then Ok(s) else Err(InvalidNumbers)
  }

  /** Filling in ordered settings with at least one file always passes the
      check and yields exactly those settings; reversed ranges never pass. */
  lemma CheckAcceptsEnteredSettings(fileCount: nat, s: Settings)
    ensures fileCount > 0 && Ordered(s) ==> Check(Entered(fileCount, s)) == Ok(s)
    ensures !Ordered(s) ==> Check(Entered(fileCount, s)).Err?
  {
  }
}
