/**
 * The state held by one use of the cropper composable: the current
 * error message, the ingested source image, the last cropped image, the
 * live crop result reported by the stencil widget, and the active preset.
 * Calls out to the page (opening the crop modal) and to the browser
 * (reading a file) are counted in two fields so that contracts can say
 * whether, and how often, they happen.
 */
module Cropper {
  import opened Wrappers
  import opened CropperTypes
  import Presets
  import DataUrl

  /** `5 * 1024 * 1024`: the largest accepted file, in bytes. */
  const MaxFileSize: nat := 5 * 1024 * 1024

  const TooLargeMessage: string := "File is too large. Please select a file smaller than 5MB."
  const ReadErrorMessage: string := "An error occurred while reading the file."

  /** What `FileReader.readAsDataURL` delivers: the data URL, or a failure. */
  datatype ReadOutcome = Loaded(dataUrl: string) | ReadFailed

  /** How the page's `toggleModalOpen` callback ends: normally, or by throwing. */
  datatype CallOutcome = Returned | Threw

  /**
   * One entry of the file input's list: its size in bytes, and what
   * reading it would deliver (the browser's file reader is not modelled).
   */
  datatype SelectedFile = SelectedFile(size: nat, contents: ReadOutcome)

  /** `{ left, top, width, height }` of the crop region. */
  datatype Coordinates = Coordinates(left: int, top: int, width: int, height: int)

  /** The image descriptor the stencil widget reports. */
  datatype ImageInfo = ImageInfo(src: string, width: int, height: int)

  /**
   * A rendered canvas. Its `toDataURL` is the browser's pixel encoder,
   * taken as an uninterpreted function of the requested MIME type.
   */
  datatype Canvas = Canvas(toDataUrl: string -> string)

  /** What the widget's `getResult()` returns: the rendered canvas and the displayed image. */
  datatype CropperResult = CropperResult(canvas: Canvas, image: ImageInfo)

  /** The reactive `result` record; `image` and `blob` start as null. */
  datatype CropResult = CropResult(
    image: Option<ImageInfo>,
    blob: Option<seq<bv8>>,
    coordinates: Option<Coordinates>)

  const InitialResult: CropResult := CropResult(None, None, Some(Coordinates(0, 0, 0, 0)))

  /** `!input.files?.length`: the list is absent or empty. */
  predicate NoFileSelected(files: Option<seq<SelectedFile>>)
  {
    files.None? || |files.value| == 0
  }

  class CropperSession {
    var errorMessage: string
    var image: string
    var croppedImage: Option<string>
    var result: CropResult
    var activeConfig: ConfigTag
    /** How many times the page's `toggleModalOpen` callback has been called. */
    var modalToggles: nat
    /** How many file reads have been started. */
    var fileReads: nat

    /** The error message is always empty or one of the two messages the code sets. */
    predicate Valid()
      reads this
    {
      errorMessage == "" || errorMessage == TooLargeMessage || errorMessage == ReadErrorMessage
    }

    /** `useCropper(initialConfig)`; the preset defaults to `default`. */
    constructor (initialConfig: Option<ConfigTag>)
      ensures Valid()
      ensures errorMessage == "" && image == "" && croppedImage == None
      ensures result == InitialResult
      ensures activeConfig == initialConfig.GetOr(Default)
      ensures modalToggles == 0 && fileReads == 0
    {
      errorMessage := "";
      image := "";
      croppedImage := None;
      result := InitialResult;
      activeConfig := initialConfig.GetOr(Default);
      modalToggles := 0;
      fileReads := 0;
    }

    /** The `config` the composable exposes: the active preset, always defined and well formed. */
    function Config(): (c: CropperConfig)
      reads this
      ensures WellFormed(c) && c.stencilProps.movable
    {
      Presets.Config(activeConfig)
    }

    /**
     * `fileSizeOk`: a file passes exactly when it is at most 5 MiB; a
     * rejection sets the too-large message, a pass leaves the message alone.
     */
    method FileSizeOk(fileSize: nat) returns (ok: bool)
      requires Valid()
      modifies this`errorMessage
      ensures Valid()
      ensures ok <==> fileSize <= MaxFileSize
      ensures errorMessage == if ok then old(errorMessage) else TooLargeMessage
    {
      if fileSize > MaxFileSize {
        errorMessage := TooLargeMessage;
        return false;
      }
      return true;
    }

    /** `readFileAsDataURL`: starts one read and waits for its outcome. */
    method ReadFileAsDataUrl(file: SelectedFile) returns (outcome: ReadOutcome)
      modifies this`fileReads
      ensures fileReads == old(fileReads) + 1
      ensures outcome == file.contents
    {
      fileReads := fileReads + 1;
      outcome := file.contents;
    }

    /**
     * `handleFileChange`: with no file nothing changes; otherwise the
     * message is cleared and the first file is checked and read. Only a
     * successful read replaces `image` and calls `toggleModalOpen`; a
     * failed read or an oversized file keeps the previous image. The
     * callback runs inside the same `try` as the read, so a callback that
     * throws leaves the new image in place and sets the read-error message.
     */
    method HandleFileChange(files: Option<seq<SelectedFile>>, toggleModalOpen: CallOutcome)
      modifies this`errorMessage, this`image, this`modalToggles, this`fileReads
      ensures old(Valid()) ==> Valid()
      ensures !NoFileSelected(files) ==> Valid()
      ensures NoFileSelected(files) ==>
        && errorMessage == old(errorMessage) && image == old(image)
        && modalToggles == old(modalToggles) && fileReads == old(fileReads)
      ensures !NoFileSelected(files) && files.value[0].size > MaxFileSize ==>
        && errorMessage == TooLargeMessage && image == old(image)
        && modalToggles == old(modalToggles) && fileReads == old(fileReads)
      ensures !NoFileSelected(files) && files.value[0].size <= MaxFileSize ==>
        && fileReads == old(fileReads) + 1
        && match files.value[0].contents
           case Loaded(url) =>
             && image == url && modalToggles == old(modalToggles) + 1
             && errorMessage == (if toggleModalOpen == Returned then "" else ReadErrorMessage)
           case ReadFailed =>
             image == old(image) && errorMessage == ReadErrorMessage && modalToggles == old(modalToggles)
    {
      if NoFileSelected(files) {
        return;
      }
      errorMessage := "";
      var file := files.value[0];
      var ok := FileSizeOk(file.size);
      if !ok {
        return;
      }
      var outcome := ReadFileAsDataUrl(file);
      match outcome
      case Loaded(url) =>
        image := url;
        modalToggles := modalToggles + 1;
        if toggleModalOpen == Threw {
          errorMessage := ReadErrorMessage;
        }
      case ReadFailed =>
        errorMessage := ReadErrorMessage;
    }

    /**
     * `crop`: without a cropper nothing changes; otherwise the cropped
     * image is the canvas encoded at the MIME type read from the
     * displayed image's data URL.
     */
    method Crop(cropper: Option<CropperResult>)
      modifies this`croppedImage
      ensures cropper.None? ==> croppedImage == old(croppedImage)
      ensures cropper.Some? ==>
        croppedImage == Some(cropper.value.canvas.toDataUrl(DataUrl.MimeType(cropper.value.image.src)))
    {
      if cropper.None? {
        return;
      }
      var CropperResult(canvas, img) := cropper.value;
      var mimeType := DataUrl.MimeType(img.src);
      croppedImage := Some(canvas.toDataUrl(mimeType));
    }

    /**
     * `onChange`: the reported coordinates and image overwrite the live
     * result, whatever they are; the blob is kept and the canvas ignored.
     */
    method OnChange(coordinates: Option<Coordinates>, image: Option<ImageInfo>, canvas: Option<Canvas>)
      modifies this`result
      ensures result == old(result).(coordinates := coordinates, image := image)
      ensures result.blob == old(result.blob)
    {
      result := result.(coordinates := coordinates);
      result := result.(image := image);
    }
  }

  /**
   * A failed re-selection does not destroy a prior image: after a
   * successful read of `url`, an oversized file and then an unreadable
   * file leave `url` in place, each with its own message.
   */
  method FailedReselectionKeepsImage(url: string, bigSize: nat, smallSize: nat)
    returns (afterTooLarge: string, tooLargeMessage: string, afterReadError: string, readMessage: string)
    requires bigSize > MaxFileSize && smallSize <= MaxFileSize
    ensures afterTooLarge == url && tooLargeMessage == TooLargeMessage
    ensures afterReadError == url && readMessage == ReadErrorMessage
  {
    var s := new CropperSession(None);
    s.HandleFileChange(Some([SelectedFile(smallSize, Loaded(url))]), Returned);
    s.HandleFileChange(Some([SelectedFile(bigSize, Loaded("data:,"))]), Returned);
    afterTooLarge, tooLargeMessage := s.image, s.errorMessage;
    s.HandleFileChange(Some([SelectedFile(smallSize, ReadFailed)]), Returned);
    afterReadError, readMessage := s.image, s.errorMessage;
  }

  /**
   * End to end: a file of exactly 5 MiB whose data URL has type `mime`
   * is accepted, opens the modal once, and cropping the displayed image
   * asks the canvas for that same type.
   */
  method IngestThenCrop(mime: string, payload: string, canvas: Canvas, region: Coordinates)
    returns (cropped: Option<string>, toggles: nat)
    requires |mime| > 0 && DataUrl.DotMatchesAll(mime)
    requires forall i | 0 <= i < |payload| :: DataUrl.IsBase64Char(payload[i])
    ensures cropped == Some(canvas.toDataUrl(mime))
    ensures toggles == 1
  {
    var s := new CropperSession(Some(Avatar));
    var url := DataUrl.Encode(mime, payload);
    s.HandleFileChange(Some([SelectedFile(MaxFileSize, Loaded(url))]), Returned);
    var shown := ImageInfo(s.image, 0, 0);
    s.OnChange(Some(region), Some(shown), Some(canvas));
    s.Crop(Some(CropperResult(canvas, shown)));
    DataUrl.MimeTypeOfEncode(mime, payload);
    cropped, toggles := s.croppedImage, s.modalToggles;
  }
}
