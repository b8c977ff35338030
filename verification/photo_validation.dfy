/**
 * The media checks of an inspection: how many photos and videos it may carry,
 * the screenshot file-name check, and the size and type checks of an uploaded
 * photo or video, each run in the service's order. Case-insensitive
 * comparisons fold ASCII letters only.
 */
module PhotoValidation {
  import opened Common
  import opened Text

  datatype MediaError =
    | PhotoEmpty
    | PhotoTooLarge
    | InvalidPhotoFormat
    | VideoEmpty
    | VideoTooLarge
    | InvalidVideoFormat
      /** "Minimum 2 photos required. Found: <found>" */
    | InsufficientPhotos(found: int)
      /** "Maximum 5 photos allowed. Found: <found>" */
    | TooManyPhotos(found: int)
    | VideoRequired
    | ScreenshotDetected

  const MIN_PHOTOS := 2
  const MAX_PHOTOS := 5
  const REQUIRED_VIDEOS := 0
  /** 10 MB and 50 MB, in bytes. */
  const MAX_PHOTO_SIZE := 10 * 1024 * 1024
  const MAX_VIDEO_SIZE := 50 * 1024 * 1024

  const ALLOWED_PHOTO_FORMATS := ["image/jpeg", "image/jpg", "image/png"]
  const ALLOWED_VIDEO_FORMATS := ["video/mp4", "video/quicktime"]

  /** An uploaded file: its size in bytes, and the content type and original name the client sent. */
  datatype Upload = Upload(size: nat, contentType: Option<string>, originalFilename: Option<string>)

  // ---------------------------------------------------------------------------
  // Case-insensitive comparison.

  /** `equalsIgnoreCase`: equal once both are folded; never equal to null. */
  predicate EqualsIgnoreCase(a: string, b: Option<string>)
  {
    b.Some? && ToLower(a) == ToLower(b.value)
  }

  /**
   * The format loop: whether some allowed format equals the content type,
   * ignoring case. The loop's flag and early exit only find the first match.
   */
  function FormatAllowed(formats: seq<string>, contentType: Option<string>): (r: bool)
    ensures r <==> exists i :: 0 <= i < |formats| && EqualsIgnoreCase(formats[i], contentType)
  {
    if |formats| == 0 then false
    else EqualsIgnoreCase(formats[0], contentType) || FormatAllowed(formats[1..], contentType)
  }

  // ---------------------------------------------------------------------------
  // The checks.

  /** `validateInspectionMedia`: 2 to 5 photos, and at least the required number of videos (none). */
  function ValidateInspectionMedia(photoCount: int, videoCount: int): (r: Result<(), MediaError>)
    ensures r.Ok? <==> MIN_PHOTOS <= photoCount <= MAX_PHOTOS && videoCount >= REQUIRED_VIDEOS
    ensures photoCount < MIN_PHOTOS ==> r == Err(InsufficientPhotos(photoCount))
    ensures MIN_PHOTOS <= photoCount && photoCount > MAX_PHOTOS ==> r == Err(TooManyPhotos(photoCount))
    ensures MIN_PHOTOS <= photoCount <= MAX_PHOTOS && videoCount < REQUIRED_VIDEOS ==> r == Err(VideoRequired)
  {
    if photoCount < MIN_PHOTOS then Err(InsufficientPhotos(photoCount))
    else if photoCount > MAX_PHOTOS then Err(TooManyPhotos(photoCount))
    else if videoCount < REQUIRED_VIDEOS then Err(VideoRequired)
    else Ok(())
  }

  /** With no video required, the video check never fails: only the photo count matters. */
  lemma VideosNeverRequired(photoCount: int, videoCount: nat)
    ensures ValidateInspectionMedia(photoCount, videoCount).Ok? <==> 2 <= photoCount <= 5
  {
  }

  /** `validateNotScreenshot`: a name whose lower-case form mentions a screenshot is refused; no name passes. */
  function ValidateNotScreenshot(originalFilename: Option<string>): (r: Result<(), MediaError>)
    ensures r.Err? <==>
      && originalFilename.Some?
      && (Contains(ToLower(originalFilename.value), "screenshot")
          || Contains(ToLower(originalFilename.value), "screen_shot"))
    ensures r.Err? ==> r.error == ScreenshotDetected
  {
    if originalFilename.Some? then
      var lowerName := ToLower(originalFilename.value);
      if Contains(lowerName, "screenshot") || Contains(lowerName, "screen_shot") then Err(ScreenshotDetected)
      else Ok(())
    else Ok(())
  }

  /** The screenshot check does not care about case: the upper-cased name gets the same answer. */
  lemma ScreenshotCheckIgnoresCase(name: string)
    ensures ValidateNotScreenshot(Some(ToUpper(name))) == ValidateNotScreenshot(Some(name))
  {
    LowerOfUpper(name);
  }

  /**
   * A name that starts with "screenshot" is refused, and so is its upper-cased
   * form: the lower-case letters are left alone by folding.
   */
  lemma ScreenshotPrefixRefused(name: string)
    requires StartsWith(name, "screenshot")
    ensures ValidateNotScreenshot(Some(name)) == Err(ScreenshotDetected)
    ensures ValidateNotScreenshot(Some(ToUpper(name))) == Err(ScreenshotDetected)
  {
    var lower := ToLower(name);
    forall k | 0 <= k < 10
      ensures lower[k] == "screenshot"[k]
    {
      assert name[k] == name[..10][k];
    }
    assert lower[0..10] == "screenshot";
    assert OccursAt(lower, "screenshot", 0);
    ScreenshotCheckIgnoresCase(name);
  }

  /** An ordinary camera name and a missing name pass. */
  lemma OrdinaryNamesPass()
    ensures ValidateNotScreenshot(Some("IMG_1.jpg")) == Ok(())
    ensures ValidateNotScreenshot(None) == Ok(())
  {
  }

  /**
   * The checks of `validateCameraPhoto` that come before the metadata read: a
   * missing or empty file, then the 10 MB limit, then the content type.
   */
  function ValidatePhotoUpload(file: Option<Upload>): (r: Result<(), MediaError>)
    ensures (file.None? || file.value.size == 0) ==> r == Err(PhotoEmpty)
    ensures file.Some? && file.value.size > 0 ==>
      (file.value.size > MAX_PHOTO_SIZE ==> r == Err(PhotoTooLarge)) &&
      (file.value.size <= MAX_PHOTO_SIZE ==>
         (r.Ok? <==> FormatAllowed(ALLOWED_PHOTO_FORMATS, file.value.contentType)) &&
         (r.Err? ==> r.error == InvalidPhotoFormat))
  {
    if file.None? || file.value.size == 0 then Err(PhotoEmpty)
    else if file.value.size > MAX_PHOTO_SIZE then Err(PhotoTooLarge)
    else if !FormatAllowed(ALLOWED_PHOTO_FORMATS, file.value.contentType) then Err(InvalidPhotoFormat)
    else Ok(())
  }

  /**
   * `validateCameraPhoto`: the upload checks, then the outcome of reading the
   * image metadata, which is given since reading it is not modelled. A file
   * that fails an upload check is refused whatever its metadata would say.
   */
  function ValidateCameraPhoto(file: Option<Upload>, metadataCheck: Result<(), MediaError>): (r: Result<(), MediaError>)
    ensures ValidatePhotoUpload(file).Err? ==> r == ValidatePhotoUpload(file)
    ensures ValidatePhotoUpload(file).Ok? ==> r == metadataCheck
  {
    match ValidatePhotoUpload(file)
    case Err(e) => Err(e)
    case Ok(_) => metadataCheck
  }

  /** `validateCameraVideo`: a missing or empty file, then the 50 MB limit, then the content type. */
  function ValidateCameraVideo(file: Option<Upload>): (r: Result<(), MediaError>)
    ensures (file.None? || file.value.size == 0) ==> r == Err(VideoEmpty)
    ensures file.Some? && file.value.size > 0 ==>
      (file.value.size > MAX_VIDEO_SIZE ==> r == Err(VideoTooLarge)) &&
      (file.value.size <= MAX_VIDEO_SIZE ==>
         (r.Ok? <==> FormatAllowed(ALLOWED_VIDEO_FORMATS, file.value.contentType)) &&
         (r.Err? ==> r.error == InvalidVideoFormat))
  {
    if file.None? || file.value.size == 0 then Err(VideoEmpty)
    else if file.value.size > MAX_VIDEO_SIZE then Err(VideoTooLarge)
    else if !FormatAllowed(ALLOWED_VIDEO_FORMATS, file.value.contentType) then Err(InvalidVideoFormat)
    else Ok(())
  }

  /** The type check ignores case: an upper-cased content type gets the same verdict. */
  lemma VideoTypeIgnoresCase(size: nat, contentType: string, name: Option<string>)
    ensures ValidateCameraVideo(Some(Upload(size, Some(ToUpper(contentType)), name)))
         == ValidateCameraVideo(Some(Upload(size, Some(contentType), name)))
  {
    LowerOfUpper(contentType);
  }

  /** "video/mp4" passes, an absent type is refused, and one byte over 50 MB is too large. */
  lemma VideoExamples()
    ensures ValidateCameraVideo(Some(Upload(1, Some("video/mp4"), None))).Ok?
    ensures ValidateCameraVideo(Some(Upload(1, None, None))) == Err(InvalidVideoFormat)
    ensures ValidateCameraVideo(Some(Upload(MAX_VIDEO_SIZE + 1, Some("video/mp4"), None))) == Err(VideoTooLarge)
  {
    assert EqualsIgnoreCase(ALLOWED_VIDEO_FORMATS[0], Some("video/mp4"));
  }
}
