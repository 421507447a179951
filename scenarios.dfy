/** Sessions run against the handlers' contracts alone: what a farmer sees
    after a successful submission, a rejected one, a denied location, a
    history response without a list, and a voice session. */
module Scenarios {
  import opened Domain
  import opened Capture
  import opened Dashboard

  /** A farmer types "Ashwagandha" and "5" and submits while the device
      reports a position. A post returning a QR clears the form and shows
      the QR; a post rejected with "duplicate batch" keeps the form and
      shows that message. */
  method SubmitAshwagandha(toNumber: string -> JsNumber, qr: string)
    returns (formAfterSuccess: DraftForm, qrAfterSuccess: Option<string>, gpsSent: Coordinates,
             formAfterFailure: DraftForm, noticeAfterFailure: string)
    requires qr != ""
    ensures formAfterSuccess == EmptyForm && qrAfterSuccess == Some(qr)
    ensures gpsSent == Coordinates(Some(12.9), Some(77.6))
    ensures formAfterFailure == DraftForm("Ashwagandha", "5", "")
    ensures noticeAfterFailure == "duplicate batch"
  {
    var ok := new FarmerDashboard(true);
    ok.UpdateField(HerbType, "Ashwagandha");
    ok.UpdateField(QuantityKg, "5");
    var payload, _ := ok.SubmitBatch(Position(12.9, 77.6), toNumber, Created(Some(qr)));
    formAfterSuccess, qrAfterSuccess, gpsSent := ok.form, ok.qrImage, payload.value.gps;

    var rejected := new FarmerDashboard(true);
    rejected.UpdateField(HerbType, "Ashwagandha");
    rejected.UpdateField(QuantityKg, "5");
    var _, notice := rejected.SubmitBatch(Position(12.9, 77.6), toNumber, PostFailed(Some("duplicate batch")));
    formAfterFailure, noticeAfterFailure := rejected.form, notice.value;
  }

  /** Location denied: the submission still goes out, with null coordinates;
      a success without a QR keeps the QR shown before. */
  method SubmitWithoutLocation(toNumber: string -> JsNumber, earlierQr: string)
    returns (gpsSent: Coordinates, qrShown: Option<string>, fetches: nat)
    requires earlierQr != ""
    ensures gpsSent == Coordinates(None, None)
    ensures qrShown == Some(earlierQr)
    ensures fetches == 3
  {
    var d := new FarmerDashboard(false);
    var _, _ := d.SubmitBatch(Position(1.0, 2.0), toNumber, Created(Some(earlierQr)));
    var payload, _ := d.SubmitBatch(PositionError, toNumber, Created(None));
    gpsSent, qrShown, fetches := payload.value.gps, d.qrImage, d.historyRequests;
  }

  /** A position request the browser never answers: the typed form stays,
      nothing is posted and no notice is raised. */
  method SubmitWhileLocationPending(toNumber: string -> JsNumber, response: PostResponse)
    returns (sent: Option<Payload>, notice: Option<string>, formAfter: DraftForm, fetches: nat)
    ensures sent == None && notice == None
    ensures formAfter == DraftForm("Tulsi", "", "") && fetches == 1
  {
    var d := new FarmerDashboard(true);
    d.UpdateField(HerbType, "Tulsi");
    sent, notice := d.SubmitBatch(NoAnswer, toNumber, response);
    formAfter, fetches := d.form, d.historyRequests;
  }

  /** A history response `{}` empties the list; a failed fetch afterwards
      keeps it. */
  method HistoryWithoutList(shown: seq<Batch>) returns (afterEmpty: seq<Batch>, afterError: seq<Batch>)
    ensures afterEmpty == [] && afterError == []
  {
    var d := new FarmerDashboard(true);
    d.FetchHistory(Fetched(Some(shown)));
    d.FetchHistory(Fetched(None));
    afterEmpty := d.batches;
    d.FetchHistory(FetchFailed);
    afterError := d.batches;
  }

  /** Each "Refresh History" click issues one more fetch. */
  method RefreshTwice() returns (fetches: nat)
    ensures fetches == 3
  {
    var d := new FarmerDashboard(true);
    d.RefreshHistory();
    d.RefreshHistory();
    fetches := d.historyRequests;
  }

  /** Start, then the recognizer ends on its own after one utterance; start
      again and stop, which shows listening off at once; with no recognizer,
      start only raises the notice. */
  method VoiceSession() returns (whileOn: bool, afterEnd: bool, afterStop: bool,
                                 unsupported: Option<string>, stillOff: bool)
    ensures whileOn && !afterEnd && !afterStop
    ensures unsupported == Some("Voice not supported") && !stillOff
  {
    var d := new FarmerDashboard(true);
    var _ := d.VoiceStart();
    whileOn := d.listening;
    d.SessionEnded();
    afterEnd := d.listening;
    var _ := d.VoiceStart();
    d.VoiceStop();
    afterStop := d.listening;

    var bare := new FarmerDashboard(false);
    unsupported := bare.VoiceStart();
    stillOff := bare.listening;
  }
}
