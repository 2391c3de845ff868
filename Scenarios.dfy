/** Runs of the client session that put the begin/complete split to use:
    what the transcript and flags are after a given interleaving of user
    actions, backend completions and engine events. Each is proved from the
    contracts of ChatSession alone. */
module Scenarios {
  import opened Wrappers
  import opened Transcript
  import opened Session
  import Gateway
  import opened Strings

  function NoSavedHistory(text: string): Option<seq<Entry>> {
    None
  }

  /** Upload, then one question and its answer: the transcript holds the two
      upload entries, the question with id `now` and the answer with id
      `now + 1`, in that order; the draft is empty and nothing is loading.
      Reached through the file input (App.js:369-374), then the
      highlighted-text button (App.js:415-419) or the send button with the
      question as the draft (App.js:511-513). */
  method QuestionAndAnswer(now: nat, name: string, question: string, answer: string)
    returns (history: seq<Entry>, draft: string, loading: bool)
    requires Trim(question) != ""
    ensures history == [
      SystemEntry(UploadingMessage(name)),
      SystemEntry(UploadedMessage(name)),
      Entry(Some(now), User, Trim(question)),
      Entry(Some(now + 1), Ai, answer)]
    ensures draft == "" && !loading
  {
    var s := new ChatSession(None, NoSavedHistory);
    var upload := s.BeginUpload(Some(File(name, PdfMimeType)));
    s.CompleteUploadSuccess(name);
    var request := s.BeginSend(question, now);
    s.CompleteSendSuccess(request.value, answer);
    history, draft, loading := s.chatHistory, s.currentMessage, s.isLoading;
  }

  /** A failed question keeps the question and adds one error entry after it.
      Reached through the same controls as QuestionAndAnswer. */
  method QuestionFails(now: nat, name: string, question: string, reason: string) returns (history: seq<Entry>)
    requires Trim(question) != ""
    ensures history == [
      SystemEntry(UploadingMessage(name)),
      SystemEntry(UploadedMessage(name)),
      Entry(Some(now), User, Trim(question)),
      Entry(None, Ai, AnswerErrorMessage(Gateway.Thrown(reason)))]
  {
    var s := new ChatSession(None, NoSavedHistory);
    var upload := s.BeginUpload(Some(File(name, PdfMimeType)));
    s.CompleteUploadSuccess(name);
    var request := s.BeginSend(question, now);
    s.CompleteSendFailure(Gateway.Thrown(reason));
    history := s.chatHistory;
  }

  /** A question still in flight when another PDF is picked: the new upload
      replaces the transcript, and the late answer is appended to it without
      its question. Its completion also lowers the loading flag while the
      upload is still pending. Reached through the send button, then the file
      input, which is never disabled (App.js:369-374). */
  method AnswerAfterNewUpload(now: nat, firstName: string, secondName: string, question: string, answer: string) returns (history: seq<Entry>, loading: bool)
    requires Trim(question) != ""
    ensures history == [SystemEntry(UploadingMessage(secondName)), Entry(Some(now + 1), Ai, answer)]
    ensures !loading
  {
    var s := new ChatSession(None, NoSavedHistory);
    var first := s.BeginUpload(Some(File(firstName, PdfMimeType)));
    s.CompleteUploadSuccess(firstName);
    var request := s.BeginSend(question, now);
    var second := s.BeginUpload(Some(File(secondName, PdfMimeType)));
    s.CompleteSendSuccess(request.value, answer);
    history, loading := s.chatHistory, s.isLoading;
  }

  /** A summary still in flight when another PDF is picked: it lands after
      the reset, so once the new document is loaded the summary shown is the
      old document's and the summary effect does not ask again. Reached
      through the file input twice; the summary effect (App.js:210-223)
      starts the request on its own. */
  method SummaryAfterNewUpload(firstName: string, secondName: string, oldSummary: string) returns (summary: string, asksAgain: bool)
    requires oldSummary != ""
    ensures summary == oldSummary && !asksAgain
  {
    var s := new ChatSession(None, NoSavedHistory);
    var first := s.BeginUpload(Some(File(firstName, PdfMimeType)));
    s.CompleteUploadSuccess(firstName);
    var started := s.BeginSummary();
    var second := s.BeginUpload(Some(File(secondName, PdfMimeType)));
    s.CompleteSummarySuccess(oldSummary);
    s.CompleteUploadSuccess(secondName);
    asksAgain := s.BeginSummary();
    summary := s.documentSummary;
  }

  /** Two questions one millisecond apart: the first answer takes the id
      `now + 1` that the second question already has. Reached through the
      highlighted-text button (App.js:415-419), which stays enabled while a
      call is loading. */
  method AnswerIdRepeats(now: nat, name: string, first: string, second: string, answer: string) returns (history: seq<Entry>)
    requires Trim(first) != "" && Trim(second) != ""
    ensures |history| == 5
    ensures history[3].sender == User && history[4].sender == Ai
    ensures history[3].id == history[4].id == Some(now + 1)
  {
    var s := new ChatSession(None, NoSavedHistory);
    var upload := s.BeginUpload(Some(File(name, PdfMimeType)));
    s.CompleteUploadSuccess(name);
    assert |s.chatHistory| == 2 && s.documentLoaded;
    var firstRequest := s.BeginSend(first, now);
    assert firstRequest == Some(AskRequest(Trim(first), now));
    assert |s.chatHistory| == 3;
    var secondRequest := s.BeginSend(second, now + 1);
    assert s.chatHistory[3] == Entry(Some(now + 1), User, Trim(second));
    s.CompleteSendSuccess(firstRequest.value, answer);
    history := s.chatHistory;
  }

  /** The send guard applied to a voice transcript: a transcript that
      OnRecognitionResult delivers while no document is loaded is not sent,
      and it stays in the draft after OnRecognitionEnd (unless it is the
      placeholder text itself). This exercises the model's guard only: the
      mic button is disabled while no document is loaded (App.js:506), and
      a stopped recognizer's late result runs with the values of an earlier
      render, which the model does not keep. */
  method RejectedTranscriptStays(now: nat, transcript: string) returns (history: seq<Entry>, draft: string, listening: bool)
    requires transcript != ListeningPlaceholder
    ensures history == [] && draft == transcript && !listening
  {
    var s := new ChatSession(None, NoSavedHistory);
    s.OnRecognitionStart();
    var request := s.OnRecognitionResult(transcript, now);
    s.OnRecognitionEnd();
    history, draft, listening := s.chatHistory, s.currentMessage, s.isListening;
  }

  /** The speaker button: pressing it again on the entry being spoken stops
      playback and frees the slot; pressing it on another entry while one
      is spoken cancels and speaks the new one, which then holds the slot.
      Reached through the speaker buttons of two `ai` entries with ids 1 and
      2 (App.js:451-457). The `error` event that an engine following the
      Web Speech API fires with `interrupted` on a cancelled utterance is
      left out here; SpeakToggleInterrupted adds it. */
  method SpeakToggle() returns (first: SynthesisCommand, again: SynthesisCommand,
                                other: SynthesisCommand, slot: SpeakingSlot)
    ensures first == Speak(Utterance("hello", Some(1)))
    ensures again == Cancel
    ensures other == CancelThenSpeak(Utterance("bye", Some(2)))
    ensures slot == SpeakingId(Some(2))
  {
    var s := new ChatSession(None, NoSavedHistory);
    first := s.SpeakResponse("hello", Some(1), true, false);
    s.OnUtteranceStart(Utterance("hello", Some(1)));
    again := s.SpeakResponse("hello", Some(1), true, true);
    var restart := s.SpeakResponse("hello", Some(1), true, false);
    s.OnUtteranceStart(Utterance("hello", Some(1)));
    other := s.SpeakResponse("bye", Some(2), true, true);
    s.OnUtteranceStart(Utterance("bye", Some(2)));
    slot := s.speakingMessageId;
  }

  /** SpeakToggle with the engine events of a cancelled utterance: each
      cancel makes the engine fire `error` with `interrupted` on the
      utterance being spoken, which reaches `utterance.onerror`
      (App.js:336-340). Every stop or switch then appends one system entry
      `Voice output error: interrupted.`; when that event comes before the
      new utterance's `start`, the new entry still holds the slot at the
      end. Reached through the speaker buttons of two `ai` entries with ids
      1 and 2 (App.js:451-457). */
  method SpeakToggleInterrupted() returns (history: seq<Entry>, slot: SpeakingSlot)
    ensures history == [SystemEntry(VoiceOutputErrorMessage("interrupted")),
                        SystemEntry(VoiceOutputErrorMessage("interrupted"))]
    ensures history[0].message == "Voice output error: interrupted."
    ensures slot == SpeakingId(Some(2))
  {
    var s := new ChatSession(None, NoSavedHistory);
    var first := s.SpeakResponse("hello", Some(1), true, false);
    s.OnUtteranceStart(Utterance("hello", Some(1)));
    var again := s.SpeakResponse("hello", Some(1), true, true);
    s.OnUtteranceError("interrupted");
    var restart := s.SpeakResponse("hello", Some(1), true, false);
    s.OnUtteranceStart(Utterance("hello", Some(1)));
    var other := s.SpeakResponse("bye", Some(2), true, true);
    s.OnUtteranceError("interrupted");
    s.OnUtteranceStart(Utterance("bye", Some(2)));
    history, slot := s.chatHistory, s.speakingMessageId;
  }
}
