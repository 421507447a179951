/** The voice command dispatcher of FarmerDashboard.tsx: a final transcript
    is lower-cased, classified by a priority-ordered keyword match into at
    most one intent, and the intent is turned into the action the view
    performs (focus the herb input, scroll to the history, look up the QR
    of the latest batch). */
module Voice {
  import opened Domain
  import opened Text

  /** English and Hindi keywords, in priority order. */
  const AddBatchEn: string := "add batch"
  const AddBatchHi: string := "नई बैच"
  const HistoryEn: string := "history"
  const HistoryHi: string := "इतिहास"
  const GenerateQrEn: string := "generate qr"
  const GenerateQrHi: string := "क्यूआर"

  datatype Intent = FocusBatchInput | ScrollToHistory | GenerateQrForLatest | Unrecognized

  /** What the view is asked to do. `GenerateQr` names the batch handed to
      the QR lookup; `NoAction` changes nothing. */
  datatype Action = FocusHerbInput | ScrollToBatches | GenerateQr(batchId: string) | NoAction

  /** The keyword tests of the dispatcher, stated with the declarative
      substring relation. */
  ghost predicate MentionsAddBatch(t: string)
  {
    Occurs(t, AddBatchEn) || Occurs(t, AddBatchHi)
  }

  ghost predicate MentionsHistory(t: string)
  {
    Occurs(t, HistoryEn) || Occurs(t, HistoryHi)
  }

  ghost predicate MentionsGenerateQr(t: string)
  {
    Occurs(t, GenerateQrEn) || Occurs(t, GenerateQrHi)
  }

  /** The if / else-if chain of `includes` tests in `handleVoiceCommand`,
      applied to an already lower-cased transcript. An add-batch keyword wins
      over everything; a history keyword wins over a QR keyword; a
      transcript with none of the six keywords is unrecognized. */
  function Classify(txt: string): (i: Intent)
    ensures i == FocusBatchInput <==> MentionsAddBatch(txt)
    ensures i == ScrollToHistory <==> !MentionsAddBatch(txt) && MentionsHistory(txt)
    ensures i == GenerateQrForLatest <==>
              !MentionsAddBatch(txt) && !MentionsHistory(txt) && MentionsGenerateQr(txt)
    ensures i == Unrecognized <==>
              !MentionsAddBatch(txt) && !MentionsHistory(txt) && !MentionsGenerateQr(txt)
  {
    if Includes(txt, AddBatchEn) || Includes(txt, AddBatchHi) then FocusBatchInput
    else if Includes(txt, HistoryEn) || Includes(txt, HistoryHi) then ScrollToHistory
    else if Includes(txt, GenerateQrEn) || Includes(txt, GenerateQrHi) then GenerateQrForLatest
    else Unrecognized
  }

  /** The effect of an intent, given the batch list the handler sees.
      The QR intent acts only when a batch is known, and then on the first
      batch of the list; otherwise it does nothing. */
  function Dispatch(i: Intent, batches: seq<Batch>): (a: Action)
    ensures a.GenerateQr? <==> i == GenerateQrForLatest && |batches| > 0
    ensures a.GenerateQr? ==> a.batchId == batches[0].batchId
    ensures a == NoAction <==> i == Unrecognized || (i == GenerateQrForLatest && batches == [])
    ensures a == FocusHerbInput <==> i == FocusBatchInput
    ensures a == ScrollToBatches <==> i == ScrollToHistory
  {
    match i
    case FocusBatchInput => FocusHerbInput
    case ScrollToHistory => ScrollToBatches
    case GenerateQrForLatest => if |batches| > 0 then GenerateQr(batches[0].batchId) else NoAction
    case Unrecognized => NoAction
  }

  /** The recognizer's `onresult` handler: lower-case the transcript, then
      classify and dispatch it; the batch list is an explicit argument.
      Keywords match whatever their case in the transcript: each action
      fires exactly when its keyword, in any mix of upper and lower case, is
      present and no higher-priority keyword is. */
  function HandleTranscript(transcript: string, batches: seq<Batch>): (a: Action)
    ensures var addBatch := OccursIgnoringCase(transcript, AddBatchEn) || OccursIgnoringCase(transcript, AddBatchHi);
            var history := OccursIgnoringCase(transcript, HistoryEn) || OccursIgnoringCase(transcript, HistoryHi);
            var qr := OccursIgnoringCase(transcript, GenerateQrEn) || OccursIgnoringCase(transcript, GenerateQrHi);
            && (a == FocusHerbInput <==> addBatch)
            && (a == ScrollToBatches <==> !addBatch && history)
            && (a.GenerateQr? <==> !addBatch && !history && qr && |batches| > 0)
            && (a.GenerateQr? ==> a.batchId == batches[0].batchId)
            && (a == NoAction <==> !addBatch && !history && (!qr || batches == []))
  {
    LowerOccurs(transcript, AddBatchEn);
    LowerOccurs(transcript, AddBatchHi);
    LowerOccurs(transcript, HistoryEn);
    LowerOccurs(transcript, HistoryHi);
    LowerOccurs(transcript, GenerateQrEn);
    LowerOccurs(transcript, GenerateQrHi);
    Dispatch(Classify(Lower(transcript)), batches)
  }

  /** The six keywords are already lower case, so lowering the transcript
      cannot hide them. */
  lemma KeywordIsLowerCase(k: string)
    requires k in [AddBatchEn, AddBatchHi, HistoryEn, HistoryHi, GenerateQrEn, GenerateQrHi]
    ensures Lower(k) == k
  {
    LowerOfLowerCase(k);
  }

  /** Lower-casing a transcript that is already lower case changes nothing:
      the handler gives the same action on a transcript and on its
      lower-cased form. */
  lemma HandleTranscriptOfLowered(transcript: string, batches: seq<Batch>)
    ensures HandleTranscript(Lower(transcript), batches) == HandleTranscript(transcript, batches)
  {
    LowerIdempotent(transcript);
  }

  /** A transcript holding an add-batch keyword focuses the herb input,
      whatever other keywords it also holds. */
  lemma AddBatchWins(transcript: string, batches: seq<Batch>, i: nat)
    requires OccursAt(transcript, AddBatchEn, i) || OccursAt(transcript, AddBatchHi, i)
    ensures HandleTranscript(transcript, batches) == FocusHerbInput
  {
    var n := if OccursAt(transcript, AddBatchEn, i) then |AddBatchEn| else |AddBatchHi|;
    LowerSlice(transcript, i, i + n);
    KeywordIsLowerCase(if n == |AddBatchEn| then AddBatchEn else AddBatchHi);
    assert OccursAt(Lower(transcript), AddBatchEn, i) || OccursAt(Lower(transcript), AddBatchHi, i);
  }

  /** Scenario: "Add Batch now" focuses the herb input. */
  lemma AddBatchNowScenario(transcript: string, batches: seq<Batch>)
    requires transcript == "Add Batch now"
    ensures HandleTranscript(transcript, batches) == FocusHerbInput
  {
    assert Lower(transcript)[0] == 'a' && Lower(transcript)[4] == 'b';
    assert OccursAt(Lower(transcript), AddBatchEn, 0);
  }

  /** Scenario: the Hindi phrase "नई बैच" focuses the herb input. */
  lemma HindiAddBatchScenario(transcript: string, batches: seq<Batch>)
    requires transcript == "नई बैच"
    ensures HandleTranscript(transcript, batches) == FocusHerbInput
  {
    assert Lower(transcript) == AddBatchHi;
    assert OccursAt(Lower(transcript), AddBatchHi, 0);
  }

  /** Scenario: "generate QR" with an empty batch list does nothing, and
      with batches it targets the first one. */
  lemma GenerateQrScenario(transcript: string, batches: seq<Batch>)
    requires transcript == "generate QR"
    ensures batches == [] ==> HandleTranscript(transcript, batches) == NoAction
    ensures batches != [] ==> HandleTranscript(transcript, batches) == GenerateQr(batches[0].batchId)
  {
    var t := Lower(transcript);
    assert t[9] == 'q' && t[10] == 'r';
    assert t == GenerateQrEn;
    assert OccursAt(t, GenerateQrEn, 0);
    NotOccursWithout(t, AddBatchEn, 4);
    NotOccursWithout(t, AddBatchHi, 0);
    NotOccursWithout(t, HistoryEn, 0);
    NotOccursWithout(t, HistoryHi, 0);
  }
}
