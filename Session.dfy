/** The client session of App.js with its rendering removed: the state the
    `App` component keeps with `useState`, and one method per handler.
    A handler that awaits the backend is split at its `await` into a Begin
    method and a Complete method per outcome, so that other events may be
    interleaved between the two. `Date.now()` is passed in as `now`; the
    speech engines and the network appear only as the commands the session
    gives them and the events they deliver back. */
module Session {
  import opened Wrappers
  import opened Strings
  import opened Transcript
  import opened Gateway

  const PdfMimeType := "application/pdf"
  const ListeningPlaceholder := "Listening..."
  const SummaryPlaceholder := "Generating summary..."

  const InvalidFileMessage := "Please upload a valid PDF file."
  const VoiceInputUnsupportedMessage := "Voice input not supported or initialized."
  const SpeechUnsupportedMessage := "Text-to-speech not supported in this browser."
  const CopiedMessage := "Chat history copied to clipboard!"
  const CopyFailedMessage := "Failed to copy chat history."

  const UploadingHead := "Uploading and processing \""
  const UploadingTail := "\"... This might take a moment."
  const UploadedHead := "Successfully processed \""
  const UploadedTail := "\". You can now ask questions about its content."
  const UploadFailedHead := "Failed to upload or process PDF: "
  const AnswerErrorHead := "Error getting response: "
  const SummaryFailedHead := "Failed to generate summary: "
  const VoiceInputErrorHead := "Voice input error: "
  const VoiceInputErrorTail := ". Please try again."
  const VoiceOutputErrorHead := "Voice output error: "

  function UploadingMessage(name: string): string {
    UploadingHead + name + UploadingTail
  }

  function UploadedMessage(filename: string): string {
    UploadedHead + filename + UploadedTail
  }

  function UploadFailedMessage(f: Failure): string {
    UploadFailedHead + ErrorMessage(f)
  }

  function AnswerErrorMessage(f: Failure): string {
    AnswerErrorHead + ErrorMessage(f)
  }

  function SummaryFailedMessage(f: Failure): string {
    SummaryFailedHead + ErrorMessage(f)
  }

  function VoiceInputErrorMessage(error: string): string {
    VoiceInputErrorHead + error + VoiceInputErrorTail
  }

  function VoiceOutputErrorMessage(error: string): string {
    VoiceOutputErrorHead + error + "."
  }

  /** A file the user picked: its name and its declared MIME type. */
  datatype File = File(name: string, mimeType: string)

  /** The body of an `ask_question` request and the id of the user entry it answers. */
  datatype AskRequest = AskRequest(query: string, userId: nat)

  /** `speakingMessageId`: `null` at first and after playback, otherwise the
      id of the entry being spoken, which is itself absent (`undefined`) for
      an entry without id. `null === undefined` is false, so the two differ. */
  datatype SpeakingSlot = NoneSpeaking | SpeakingId(id: Option<nat>)

  /** What the mic button asks of the recognition engine. */
  datatype RecognizerCommand = StartRecognition | StopRecognition | NoRecognizerCommand

  /** An utterance handed to the synthesis engine: the text and the id its
      callbacks report. */
  datatype Utterance = Utterance(text: string, messageId: Option<nat>)

  /** What the speaker button asks of the synthesis engine. */
  datatype SynthesisCommand =
    | Speak(utterance: Utterance)
    | Cancel
    | CancelThenSpeak(utterance: Utterance)
    | NoSynthesisCommand

  /** Whether `handleSendMessage` goes ahead with `text`. */
  predicate SendAccepted(text: string, documentLoaded: bool) {
    Trim(text) != "" && documentLoaded
  }

  class ChatSession {
    var chatHistory: seq<Entry>
    var currentMessage: string
    var isLoading: bool
    var documentLoaded: bool
    var documentSummary: string
    var isListening: bool
    var speakingMessageId: SpeakingSlot
    var selectedFile: Option<File>

    /** The summary effect would issue a request in this state. */
    predicate SummaryWanted()
      reads this
    {
      documentLoaded && documentSummary == ""
    }

    /** The component's first render: the history read back from storage
        (see InitialHistory), everything else empty or off. */
    constructor (saved: Option<string>, parse: string -> Option<seq<Entry>>)
      ensures chatHistory == InitialHistory(saved, parse)
      ensures currentMessage == "" && documentSummary == ""
      ensures !isLoading && !documentLoaded && !isListening
      ensures speakingMessageId == NoneSpeaking && selectedFile == None
    {
      chatHistory := InitialHistory(saved, parse);
      currentMessage := "";
      isLoading := false;
      documentLoaded := false;
      documentSummary := "";
      isListening := false;
      speakingMessageId := NoneSpeaking;
      selectedFile := None;
    }

    /** `handleSendMessage(text)` up to its `await`: ignored unless the
        trimmed text is non-empty and a document is loaded; otherwise the
        trimmed text is appended as a user entry with id `now`, the draft is
        emptied and `callBackendLLM` raises the loading flag. */
    method BeginSend(text: string, now: nat) returns (request: Option<AskRequest>)
      modifies this`chatHistory, this`currentMessage, this`isLoading
      ensures request.Some? <==> SendAccepted(text, documentLoaded)
      ensures request.Some? ==> request.value == AskRequest(Trim(text), now)
      ensures request.Some? ==>
        && chatHistory == old(chatHistory) + [Entry(Some(now), User, Trim(text))]
        && currentMessage == ""
        && isLoading
      ensures request.None? ==>
        && chatHistory == old(chatHistory)
        && currentMessage == old(currentMessage)
        && isLoading == old(isLoading)
    {
      var userMessage := Trim(text);
      if userMessage == "" || !documentLoaded {
        return None;
      }
      chatHistory := chatHistory + [Entry(Some(now), User, userMessage)];
      currentMessage := "";
      isLoading := true;
      request := Some(AskRequest(userMessage, now));
    }

    /** The Enter key: sends the draft unless a backend call is pending. */
    method PressEnter(now: nat) returns (request: Option<AskRequest>)
      modifies this`chatHistory, this`currentMessage, this`isLoading
      ensures old(isLoading) ==>
        request.None? && chatHistory == old(chatHistory) && currentMessage == old(currentMessage) && isLoading
      ensures !old(isLoading) ==>
        && (request.Some? <==> SendAccepted(old(currentMessage), documentLoaded))
        && (request.Some? ==>
             && request.value == AskRequest(Trim(old(currentMessage)), now)
             && chatHistory == old(chatHistory) + [Entry(Some(now), User, Trim(old(currentMessage)))]
             && currentMessage == "" && isLoading)
        && (request.None? ==>
             && chatHistory == old(chatHistory) && currentMessage == old(currentMessage) && !isLoading)
    {
      if isLoading {
        return None;
      }
      request := BeginSend(currentMessage, now);
    }

    /** The answer arrived: the `finally` lowers the loading flag and the
        answer is appended with the id one past its question's. */
    method CompleteSendSuccess(request: AskRequest, answer: string)
      modifies this`chatHistory, this`isLoading
      ensures chatHistory == old(chatHistory) + [Entry(Some(request.userId + 1), Ai, answer)]
      ensures !isLoading
    {
      isLoading := false;
      chatHistory := chatHistory + [Entry(Some(request.userId + 1), Ai, answer)];
    }

    /** The question failed: the loading flag is lowered and an id-less `ai`
        entry carrying the error text is appended; nothing is rolled back. */
    method CompleteSendFailure(failure: Failure)
      modifies this`chatHistory, this`isLoading
      ensures chatHistory == old(chatHistory) + [Entry(None, Ai, AnswerErrorMessage(failure))]
      ensures !isLoading
    {
      isLoading := false;
      chatHistory := chatHistory + [Entry(None, Ai, AnswerErrorMessage(failure))];
    }

    /** The summary effect up to its `await`: runs only while a document is
        loaded and no summary (not even the placeholder) is present. */
    method BeginSummary() returns (started: bool)
      modifies this`documentSummary, this`isLoading
      ensures started == old(SummaryWanted())
      ensures started ==> documentSummary == SummaryPlaceholder && isLoading && !SummaryWanted()
      ensures !started ==> documentSummary == old(documentSummary) && isLoading == old(isLoading)
    {
      started := documentLoaded && documentSummary == "";
      if started {
        documentSummary := SummaryPlaceholder;
        isLoading := true;
      }
    }

    /** The summary arrived and replaces whatever summary text is shown. An
        empty summary makes the effect want another request. */
    method CompleteSummarySuccess(summary: string)
      modifies this`documentSummary, this`isLoading
      ensures documentSummary == summary && !isLoading
      ensures SummaryWanted() <==> documentLoaded && summary == ""
    {
      isLoading := false;
      documentSummary := summary;
    }

    /** The summary failed: the text shown is the failure, never empty, so
        the effect does not ask again. */
    method CompleteSummaryFailure(failure: Failure)
      modifies this`documentSummary, this`isLoading
      ensures documentSummary == SummaryFailedMessage(failure) && !isLoading
      ensures !SummaryWanted()
    {
      isLoading := false;
      documentSummary := SummaryFailedMessage(failure);
    }

    /** `handleFileChange` up to its `await`. No file: nothing happens. A file
        of another type: the history is replaced by one system entry and the
        document is forgotten, with no request. A PDF: the document is
        forgotten, the history is replaced by the "uploading" entry, the
        loading flag is raised and the file is the request to send. */
    method BeginUpload(file: Option<File>) returns (upload: Option<File>)
      modifies this`selectedFile, this`documentLoaded, this`documentSummary, this`chatHistory, this`isLoading
      ensures file.None? ==> upload.None? && unchanged(this)
      ensures file.Some? && file.value.mimeType == PdfMimeType ==>
        && upload == file && selectedFile == file
        && !documentLoaded && documentSummary == ""
        && chatHistory == [SystemEntry(UploadingMessage(file.value.name))]
        && isLoading
      ensures file.Some? && file.value.mimeType != PdfMimeType ==>
        && upload.None? && selectedFile.None?
        && !documentLoaded && documentSummary == ""
        && chatHistory == [SystemEntry(InvalidFileMessage)]
        && isLoading == old(isLoading)
    {
      if file.None? {
        return None;
      }
      var f := file.value;
      if f.mimeType == PdfMimeType {
        selectedFile := file;
        documentLoaded := false;
        documentSummary := "";
        chatHistory := [SystemEntry(UploadingMessage(f.name))];
        isLoading := true;
        upload := file;
      } else {
        selectedFile := None;
        documentLoaded := false;
        documentSummary := "";
        chatHistory := [SystemEntry(InvalidFileMessage)];
        upload := None;
      }
    }

    /** The backend processed the file: the document counts as loaded and a
        system entry naming the file it reported is appended. */
    method CompleteUploadSuccess(filename: string)
      modifies this`documentLoaded, this`chatHistory, this`isLoading
      ensures documentLoaded && !isLoading
      ensures chatHistory == old(chatHistory) + [SystemEntry(UploadedMessage(filename))]
    {
      documentLoaded := true;
      chatHistory := chatHistory + [SystemEntry(UploadedMessage(filename))];
      isLoading := false;
    }

    /** The upload failed: a failure entry is appended, the selected file is
        dropped and the document stays unloaded. */
    method CompleteUploadFailure(failure: Failure)
      modifies this`documentLoaded, this`chatHistory, this`isLoading, this`selectedFile
      ensures !documentLoaded && !isLoading && selectedFile.None?
      ensures chatHistory == old(chatHistory) + [SystemEntry(UploadFailedMessage(failure))]
    {
      chatHistory := chatHistory + [SystemEntry(UploadFailedMessage(failure))];
      selectedFile := None;
      documentLoaded := false;
      isLoading := false;
    }

    /** `handleClearChat`: the history becomes empty; the document stays loaded. */
    method ClearChat()
      modifies this`chatHistory
      ensures chatHistory == []
    {
      chatHistory := [];
    }

    /** `handleCopyChat`: renders the history as CopyText and appends a
        confirmation, or a failure entry when the copy command throws. The
        result is the text that reached the clipboard, if any. */
    method CopyChat(copyThrows: bool) returns (copied: Option<string>)
      modifies this`chatHistory
      ensures copied == if copyThrows then None else Some(CopyText(old(chatHistory)))
      ensures chatHistory == old(chatHistory) + [SystemEntry(if copyThrows then CopyFailedMessage else CopiedMessage)]
    {
      var chatText := CopyText(chatHistory);
      if copyThrows {
        copied := None;
        chatHistory := chatHistory + [SystemEntry(CopyFailedMessage)];
      } else {
        copied := Some(chatText);
        chatHistory := chatHistory + [SystemEntry(CopiedMessage)];
      }
    }

    /** `handleVoiceInput`: with a recognizer, stop it while listening and
        start it otherwise; without one, report that in a system entry. */
    method VoiceInput(hasRecognizer: bool) returns (command: RecognizerCommand)
      modifies this`chatHistory
      ensures hasRecognizer ==>
        command == (if isListening then StopRecognition else StartRecognition)
        && chatHistory == old(chatHistory)
      ensures !hasRecognizer ==>
        command == NoRecognizerCommand
        && chatHistory == old(chatHistory) + [SystemEntry(VoiceInputUnsupportedMessage)]
    {
      if hasRecognizer {
        command := if isListening then StopRecognition else StartRecognition;
      } else {
        command := NoRecognizerCommand;
        chatHistory := chatHistory + [SystemEntry(VoiceInputUnsupportedMessage)];
      }
    }

    /** Recognition `onstart`: listening, with the placeholder as the draft. */
    method OnRecognitionStart()
      modifies this`isListening, this`currentMessage
      ensures isListening && currentMessage == ListeningPlaceholder
    {
      isListening := true;
      currentMessage := ListeningPlaceholder;
    }

    /** Recognition `onresult`: the transcript becomes the draft, listening
        stops, and the transcript goes through the same send path as typed
        text. A rejected transcript stays in the draft. */
    method OnRecognitionResult(transcript: string, now: nat) returns (request: Option<AskRequest>)
      modifies this`currentMessage, this`isListening, this`chatHistory, this`isLoading
      ensures !isListening
      ensures request.Some? <==> SendAccepted(transcript, documentLoaded)
      ensures request.Some? ==>
        && request.value == AskRequest(Trim(transcript), now)
        && chatHistory == old(chatHistory) + [Entry(Some(now), User, Trim(transcript))]
        && currentMessage == "" && isLoading
      ensures request.None? ==>
        && chatHistory == old(chatHistory) && currentMessage == transcript
        && isLoading == old(isLoading)
    {
      currentMessage := transcript;
      isListening := false;
      request := BeginSend(transcript, now);
    }

    /** Recognition `onerror`: listening stops, the draft is emptied and one
        system entry names the error. */
    method OnRecognitionError(error: string)
      modifies this`isListening, this`currentMessage, this`chatHistory
      ensures !isListening && currentMessage == ""
      ensures chatHistory == old(chatHistory) + [SystemEntry(VoiceInputErrorMessage(error))]
    {
      isListening := false;
      currentMessage := "";
      chatHistory := chatHistory + [SystemEntry(VoiceInputErrorMessage(error))];
    }

    /** Recognition `onend`: listening stops; the draft is emptied only if it
        is still the placeholder. */
    method OnRecognitionEnd()
      modifies this`isListening, this`currentMessage
      ensures !isListening
      ensures currentMessage == if old(currentMessage) == ListeningPlaceholder then "" else old(currentMessage)
    {
      isListening := false;
      if currentMessage == ListeningPlaceholder {
        currentMessage := "";
      }
    }

    /** `handleSpeakResponse`, the single-slot arbiter. Without speech
        synthesis: one system entry. While the engine speaks this very entry:
        cancel and free the slot. While it speaks something else: cancel and
        speak this one. Otherwise: speak. The slot itself is claimed only
        when the new utterance starts (OnUtteranceStart). */
    method SpeakResponse(message: string, messageId: Option<nat>, synthesisSupported: bool, engineSpeaking: bool)
      returns (command: SynthesisCommand)
      modifies this`speakingMessageId, this`chatHistory
      ensures !synthesisSupported ==>
        && command == NoSynthesisCommand
        && speakingMessageId == old(speakingMessageId)
        && chatHistory == old(chatHistory) + [SystemEntry(SpeechUnsupportedMessage)]
      ensures synthesisSupported ==> chatHistory == old(chatHistory)
      ensures synthesisSupported && engineSpeaking && old(speakingMessageId) == SpeakingId(messageId) ==>
        command == Cancel && speakingMessageId == NoneSpeaking
      ensures synthesisSupported && engineSpeaking && old(speakingMessageId) != SpeakingId(messageId) ==>
        command == CancelThenSpeak(Utterance(message, messageId)) && speakingMessageId == old(speakingMessageId)
      ensures synthesisSupported && !engineSpeaking ==>
        command == Speak(Utterance(message, messageId)) && speakingMessageId == old(speakingMessageId)
    {
      if !synthesisSupported {
        chatHistory := chatHistory + [SystemEntry(SpeechUnsupportedMessage)];
        return NoSynthesisCommand;
      }
      var utterance := Utterance(message, messageId);
      if engineSpeaking && speakingMessageId == SpeakingId(messageId) {
        command := Cancel;
        speakingMessageId := NoneSpeaking;
      } else if engineSpeaking {
        command := CancelThenSpeak(utterance);
      } else {
        command := Speak(utterance);
      }
    }

    /** Utterance `onstart`: the slot holds the utterance's entry id. */
    method OnUtteranceStart(utterance: Utterance)
      modifies this`speakingMessageId
      ensures speakingMessageId == SpeakingId(utterance.messageId)
    {
      speakingMessageId := SpeakingId(utterance.messageId);
    }

    /** Utterance `onend`: the slot is freed. */
    method OnUtteranceEnd()
      modifies this`speakingMessageId
      ensures speakingMessageId == NoneSpeaking
    {
      speakingMessageId := NoneSpeaking;
    }

    /** Utterance `onerror`: the slot is freed and one system entry names the error. */
    method OnUtteranceError(error: string)
      modifies this`speakingMessageId, this`chatHistory
      ensures speakingMessageId == NoneSpeaking
      ensures chatHistory == old(chatHistory) + [SystemEntry(VoiceOutputErrorMessage(error))]
    {
      speakingMessageId := NoneSpeaking;
      chatHistory := chatHistory + [SystemEntry(VoiceOutputErrorMessage(error))];
    }
  }
}
