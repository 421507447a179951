/** The session state of FarmerDashboard.tsx and the handlers that change
    it: voice start / stop / end, form edits, photo ingest, batch
    submission and history refresh. Server responses, geolocation results
    and file reads are parameters; alerts are returned as notices. */
module Dashboard {
  import opened Domain
  import opened Capture

  /** The form as typed: `quantityKg` is still text. */
  datatype DraftForm = DraftForm(herbType: string, quantityKg: string, notes: string)

  const EmptyForm: DraftForm := DraftForm("", "", "")

  datatype FormField = HerbType | QuantityKg | Notes

  /** A JavaScript number, as `Number(text)` may produce it. */
  datatype JsNumber = Finite(value: real) | NaN | Infinity(negative: bool)

  /** The body posted to `/api/farmer/add-batch`. */
  datatype Payload = Payload(
    herbType: string,
    quantityKg: JsNumber,
    photoUrl: string,
    gps: Coordinates,
    notes: string)

  /** The outcome of the post: a response with an optional `qrDataUrl`, or a
      thrown error with an optional `response.data.message`. */
  datatype PostResponse =
    | Created(qrDataUrl: Option<string>)
    | PostFailed(message: Option<string>)

  /** The outcome of a GET whose body may carry a `batches` list. */
  datatype BatchesResponse =
    | Fetched(batches: Option<seq<Batch>>)
    | FetchFailed

  const VoiceNotSupported: string := "Voice not supported"
  const BatchCreated: string := "Batch created"
  const CreateBatchFailed: string := "Create batch failed"
  const BatchFound: string := "Batch found. Use QR returned at creation or recreate on server."
  const CouldNotGenerateQr: string := "Could not generate QR"

  /** `generateQrFor`: looks the batch up and only raises a notice; it changes
      no state. A non-empty `batches` list gives the "found" notice, an
      error gives the failure notice, anything else gives none. */
  function QrLookupNotice(r: BatchesResponse): (n: Option<string>)
    ensures n == Some(CouldNotGenerateQr) <==> r.FetchFailed?
    ensures n == Some(BatchFound) <==> r.Fetched? && r.batches.Some? && |r.batches.value| > 0
    ensures n.None? <==> r.Fetched? && (r.batches.None? || r.batches.value == [])
  {
    match r
    case FetchFailed => Some(CouldNotGenerateQr)
    case Fetched(batches) =>
      if batches.Some? && |batches.value| > 0 then Some(BatchFound) else None
  }

  class FarmerDashboard {
    var form: DraftForm
    var photoDataUrl: string
    var batches: seq<Batch>
    var qrImage: Option<string>
    var listening: bool
    /** Whether a speech recognizer was created at mount (`recognitionRef.current`). */
    const speechEngine: bool
    /** Whether the recognizer's session is running: from `start()` until
        the recognizer reports its end. */
    ghost var sessionLive: bool
    /** How many history fetches the component has issued: on mount, after
        each successful submission, and on each "Refresh History" click. */
    var historyRequests: nat

    /** The component never shows `listening` without a running session
        (after `stop()` the session may still run until it ends), there is
        never a session without a recognizer, and a stored QR image is a
        truthy string. */
    ghost predicate Valid()
      reads this
    {
      && (listening ==> sessionLive)
      && (!speechEngine ==> !sessionLive)
      && (qrImage.Some? ==> qrImage.value != "")
    }

    /** Mount: the initial state, the recognizer if the browser has one, and
        the first history fetch. */
    constructor (speechAvailable: bool)
      ensures Valid()
      ensures form == EmptyForm && photoDataUrl == "" && batches == [] && qrImage == None
      ensures !listening && speechEngine == speechAvailable
      ensures historyRequests == 1
    {
      form := EmptyForm;
      photoDataUrl := "";
      batches := [];
      qrImage := None;
      listening := false;
      speechEngine := speechAvailable;
      sessionLive := false;
      historyRequests := 1;
    }

    /** `handleVoiceStart`: without a recognizer, only the "Voice not
        supported" notice; otherwise listening starts. */
    method VoiceStart() returns (notice: Option<string>)
      requires Valid()
      modifies this`listening, this`sessionLive
      ensures Valid()
      ensures !speechEngine ==> notice == Some(VoiceNotSupported) && !listening && listening == old(listening)
      ensures speechEngine ==> notice == None && listening
    {
      if !speechEngine {
        return Some(VoiceNotSupported);
      }
      listening := true;
      sessionLive := true;
      notice := None;
    }

    /** `handleVoiceStop`: without a recognizer nothing happens; otherwise
        listening is shown as stopped at once, while the recognizer is only
        asked to stop: its session runs on until it reports its end, and may
        still deliver a result meanwhile. */
    method VoiceStop()
      requires Valid()
      modifies this`listening
      ensures Valid()
      ensures !speechEngine ==> listening == old(listening)
      ensures speechEngine ==> !listening
    {
      if !speechEngine {
        return;
      }
      listening := false;
    }

    /** The recognizer's `onend` event (registered only when a recognizer
        exists): the session is over and listening is reset. */
    method SessionEnded()
      requires Valid() && speechEngine
      modifies this`listening, this`sessionLive
      ensures Valid()
      ensures !listening && !sessionLive
    {
      listening := false;
      sessionLive := false;
    }

    /** The form inputs' change handlers: one field takes the typed text,
        the other two keep theirs. */
    method UpdateField(field: FormField, value: string)
      requires Valid()
      modifies this`form
      ensures Valid()
      ensures form.herbType == (if field == HerbType then value else old(form.herbType))
      ensures form.quantityKg == (if field == QuantityKg then value else old(form.quantityKg))
      ensures form.notes == (if field == Notes then value else old(form.notes))
    {
      match field
      case HerbType => form := form.(herbType := value);
      case QuantityKg => form := form.(quantityKg := value);
      case Notes => form := form.(notes := value);
    }

    /** `handlePhoto`: no file, or a read that never loads, changes nothing;
        a finished read replaces the photo with its result, or with "" when
        the result is empty. */
    method IngestPhoto(selection: PhotoSelection)
      requires Valid()
      modifies this`photoDataUrl
      ensures Valid()
      ensures !selection.Loaded? ==> photoDataUrl == old(photoDataUrl)
      ensures selection.Loaded? && selection.result.Some? ==> photoDataUrl == selection.result.value
      ensures selection.Loaded? && selection.result.None? ==> photoDataUrl == ""
    {
      if selection.Loaded? {
        photoDataUrl := OrElse(selection.result, "");
      }
    }

    /** `submitBatch`: capture a position, build the payload from the form,
        the photo and the position, and post it. While the position request
        goes unanswered nothing is posted and nothing changes. On success
        the notice is "Batch created", a truthy `qrDataUrl` replaces the QR
        image (else the old one stays), exactly one history fetch is issued,
        and the form and photo are cleared. On failure nothing changes and
        the notice is the server's message when there is one, else "Create
        batch failed". `toNumber` stands for JavaScript's `Number`. */
    method SubmitBatch(geolocation: Geolocation, toNumber: string -> JsNumber, response: PostResponse)
      returns (payload: Option<Payload>, notice: Option<string>)
      requires Valid()
      modifies this`form, this`photoDataUrl, this`qrImage, this`historyRequests
      ensures Valid()
      ensures geolocation.NoAnswer? ==>
                && payload.None? && notice.None?
                && form == old(form) && photoDataUrl == old(photoDataUrl)
                && qrImage == old(qrImage) && historyRequests == old(historyRequests)
      ensures !geolocation.NoAnswer? ==>
                && payload.Some? && notice.Some?
                && payload.value.herbType == old(form.herbType) && payload.value.notes == old(form.notes)
                && payload.value.quantityKg == toNumber(old(form.quantityKg))
                && payload.value.photoUrl == old(photoDataUrl)
                && Some(payload.value.gps) == CaptureGps(geolocation)
      ensures !geolocation.NoAnswer? && response.Created? ==>
                && notice == Some(BatchCreated)
                && form == EmptyForm && photoDataUrl == ""
                && qrImage == (if Truthy(response.qrDataUrl) then response.qrDataUrl else old(qrImage))
                && historyRequests == old(historyRequests) + 1
      ensures !geolocation.NoAnswer? && response.PostFailed? ==>
                && (Truthy(response.message) ==> notice == response.message)
                && (!Truthy(response.message) ==> notice == Some(CreateBatchFailed))
                && form == old(form) && photoDataUrl == old(photoDataUrl)
                && qrImage == old(qrImage) && historyRequests == old(historyRequests)
    {
      var coords := CaptureGps(geolocation);
      if coords.None? {
        return None, None;
      }
      payload := Some(Payload(form.herbType, toNumber(form.quantityKg), photoDataUrl, coords.value, form.notes));
      match response
      case PostFailed(message) =>
        notice := Some(OrElse(message, CreateBatchFailed));
      case Created(qrDataUrl) =>
        notice := Some(BatchCreated);
        if Truthy(qrDataUrl) {
          qrImage := qrDataUrl;
        }
        historyRequests := historyRequests + 1;
        form := EmptyForm;
        photoDataUrl := "";
    }

    /** The "Refresh History" button: one more history fetch is issued; its
        response is applied by `FetchHistory`. */
    method RefreshHistory()
      requires Valid()
      modifies this`historyRequests
      ensures Valid()
      ensures historyRequests == old(historyRequests) + 1
    {
      historyRequests := historyRequests + 1;
    }

    /** `fetchHistory`, once its response is in: a success replaces the whole
        batch list with the response's list, or with [] when the list is
        absent; a failure keeps the list. */
    method FetchHistory(response: BatchesResponse)
      requires Valid()
      modifies this`batches
      ensures Valid()
      ensures response.Fetched? && response.batches.Some? ==> batches == response.batches.value
      ensures response.Fetched? && response.batches.None? ==> batches == []
      ensures response.FetchFailed? ==> batches == old(batches)
    {
      if response.Fetched? {
        batches := if response.batches.Some? then response.batches.value else [];
      }
    }
  }
}
