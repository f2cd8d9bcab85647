/** The voice-notes page (`app/voice-notes/page.tsx`) without its rendering: the component
    state as the fields of a class and each event handler as a method. Every call the page
    makes to the server, to the browser or to the recorder is a parameter holding that
    call's outcome; handlers run to completion one at a time. */
module VoiceNotesPage {
  import opened Outcomes
  import opened JsStrings
  import opened Duration
  import opened DataUrl
  import opened Actions
  import opened ChatList
  import RecordingList

  /** The states of the browser's MediaRecorder that the page can reach (it never pauses). */
  datatype RecorderState = Inactive | Recording

  /** The arguments the page passes to `saveRecording`. */
  datatype SaveRequest = SaveRequest(base64AudioData: Option<string>, duration: string)

  /** The errors the page reports; each is shown as the single most recent error. A failed
      save carries the message of what was thrown (`None` for the reader's error event,
      which has no message). */
  datatype PageError =
    | FetchRecordingsFailed
    | SaveFailed(detail: Option<string>)
    | TranscribeFailed
    | FetchChatFailed
    | AskFailed

  /** The text the page shows for an error. */
  function ErrorText(e: PageError): string
  {
    match e
    case FetchRecordingsFailed => "Failed to fetch recordings. Please try again later."
    case SaveFailed(detail) =>
      "Failed to save recording: " + (if detail.Some? then detail.value else "undefined")
    case TranscribeFailed => "Failed to transcribe audio. Please try again."
    case FetchChatFailed => "Failed to fetch chat messages. Please try again later."
    case AskFailed => "Failed to get AI response. Please try again."
  }

  /** The entry `fetchRecordings` makes of a fetched row: every field is carried over, except
      that an empty transcription or URL becomes null (`x || null`). */
  function FromServer(rw: RecordingWithUrl): (r: RecordingList.Recording)
    ensures r.id == rw.recording.id && r.audioKey == rw.recording.audioKey
    ensures r.duration == rw.recording.duration && r.timestamp == rw.recording.timestamp
    ensures r.transcription == OrNull(rw.recording.transcription) && r.audioUrl == OrNull(rw.audioUrl)
  {
    RecordingList.Recording(rw.recording.id, rw.recording.duration, rw.recording.timestamp,
                            rw.recording.audioKey, OrNull(rw.audioUrl), OrNull(rw.recording.transcription))
  }

  function FromServerList(rs: seq<RecordingWithUrl>): (r: seq<RecordingList.Recording>)
    ensures |r| == |rs| && forall i :: 0 <= i < |rs| ==> r[i] == FromServer(rs[i])
  {
    if rs == [] then [] else [FromServer(rs[0])] + FromServerList(rs[1..])
  }

  /** The entry `handleRecordingData` prepends after a save: the saved row with the local blob URL. */
  function NewRecording(saved: StoredRecording, tempAudioUrl: string): RecordingList.Recording
  {
    RecordingList.Recording(saved.id, saved.duration, saved.timestamp, saved.audioKey,
                            Some(tempAudioUrl), OrNull(saved.transcription))
  }

  /** The optimistic user message: the clock read by `Date.now()` at `idTime`, as text, is
      the temporary id, and the clock read again by `new Date()` gives `sentAt`. */
  function UserMessage(idTime: int, sentAt: int, recordingId: string, content: string): ChatMessage
  {
    ChatMessage(IntToString(idTime), recordingId, User, content, sentAt)
  }

  /** The guard of `handleAskAI`: a recording is selected, its transcription is truthy,
      and the message is not blank. */
  predicate CanAsk(selected: Option<RecordingList.Recording>, newMessage: string)
  {
    selected.Some? && Truthy(selected.value.transcription) && Trim(newMessage) != ""
  }

  /** `{ ...selectedRecording, transcription }` when the selected recording has the id. */
  function TranscribedSelection(selected: Option<RecordingList.Recording>, recordingId: string,
                                transcription: string): Option<RecordingList.Recording>
  {
    if selected.Some? && selected.value.id == recordingId
    then Some(selected.value.(transcription := Some(transcription)))
    else selected
  }

  predicate HasRecording(recs: seq<RecordingList.Recording>, recordingId: string)
  {
    exists i :: 0 <= i < |recs| && recs[i].id == recordingId
  }

  /** The conversation `handleAskAI` leaves: the optimistic entry, replaced by the persisted
      copy once that exists, then the persisted reply once that exists. */
  function ChatAfterAsk(prev: seq<ChatMessage>, temp: ChatMessage, savedUser: Outcome<ChatMessage>,
                        reply: Outcome<string>, savedAssistant: Outcome<ChatMessage>): seq<ChatMessage>
  {
    if savedUser.Fail? then prev + [temp]
    else
      var replaced := ReplaceById(prev + [temp], temp.id, savedUser.value);
      if reply.Ok? && savedAssistant.Ok? then replaced + [savedAssistant.value] else replaced
  }

  /** The guard of `handleAskAI` in plain terms: a recording is selected, it has a non-empty
      transcription, and the message has a character that is not white space. */
  lemma CanAskIff(selected: Option<RecordingList.Recording>, newMessage: string)
    ensures CanAsk(selected, newMessage) <==>
      && selected.Some? && selected.value.transcription.Some? && selected.value.transcription.value != ""
      && !AllWhitespace(newMessage)
  {
    TrimEmptyIff(newMessage);
  }

  /** A fully successful send leaves the earlier conversation followed by the persisted
      question and the persisted reply, provided no earlier entry shares the temporary id. */
  lemma AskSucceeds(prev: seq<ChatMessage>, temp: ChatMessage, savedUser: ChatMessage,
                    reply: string, savedAssistant: ChatMessage)
    requires IdAbsent(prev, temp.id)
    ensures ChatAfterAsk(prev, temp, Ok(savedUser), Ok(reply), Ok(savedAssistant)) == prev + [savedUser, savedAssistant]
  {
    OptimisticReplace(prev, temp, savedUser);
  }

  /** When the question was persisted but no reply was persisted, the conversation ends with
      the persisted question; when the question was not persisted, with the optimistic one. */
  lemma AskFailsAfterSave(prev: seq<ChatMessage>, temp: ChatMessage, savedUser: Outcome<ChatMessage>,
                          reply: Outcome<string>, savedAssistant: Outcome<ChatMessage>)
    requires IdAbsent(prev, temp.id)
    requires reply.Fail? || savedAssistant.Fail?
    ensures ChatAfterAsk(prev, temp, savedUser, reply, savedAssistant)
      == prev + [if savedUser.Ok? then savedUser.value else temp]
  {
    if savedUser.Ok? {
      OptimisticReplace(prev, temp, savedUser.value);
    }
  }

  /** The request `chatWithAI` builds from the history `handleAskAI` sends: the system turn,
      then the earlier conversation in order, then the question just asked. */
  lemma AskRequestShape(prev: seq<ChatMessage>, savedUser: ChatMessage, transcription: string)
    ensures var req := ChatRequest(ToHistory(prev + [savedUser]), transcription);
      && |req.messages| == |prev| + 2
      && req.messages[0].role == "system" && Contains(req.messages[0].content, transcription)
      && req.messages[1..|prev| + 1] == ToHistory(prev)
      && req.messages[|prev| + 1] == ChatTurn(RoleName(savedUser.role), savedUser.content)
  {
    ToHistoryAppend(prev, savedUser);
    var req := ChatRequest(ToHistory(prev + [savedUser]), transcription);
    assert req.messages[1..] == ToHistory(prev) + [ChatTurn(RoleName(savedUser.role), savedUser.content)];
    assert req.messages[1..|prev| + 1] == req.messages[1..][..|prev|];
  }

  class Page {
    var recordings: seq<RecordingList.Recording>
    var selectedRecording: Option<RecordingList.Recording>
    var chatMessages: seq<ChatMessage>
    var newMessage: string
    var searchTerm: string
    var error: Option<PageError>
    var isLoading: bool
    var isTranscribing: bool
    var isRecording: bool
    var isSavingRecording: bool
    var isChatLoading: bool
    var showTranscription: bool
    /** `mediaRecorderRef.current`: absent until the microphone was granted. */
    var mediaRecorder: Option<RecorderState>
    /** `recordingStartTimeRef.current`. */
    var recordingStartTime: Option<int>
    /** Whether `ondataavailable` has been pointed at `handleRecordingData`. */
    var dataHandlerAttached: bool

    /** The record button's flag tells the truth: the page shows "recording" exactly when
        the recorder is capturing. */
    ghost predicate Valid()
      reads this
    {
      isRecording <==> mediaRecorder == Some(Recording)
    }

    /** The page after mounting, once `initializeMediaRecorder` has either obtained the
        microphone or failed to. */
    constructor (microphoneGranted: bool)
      ensures Valid()
      ensures recordings == [] && selectedRecording == None && chatMessages == []
      ensures newMessage == "" && searchTerm == "" && error == None
      ensures !isLoading && !isTranscribing && !isRecording && !isSavingRecording && !isChatLoading
      ensures !showTranscription && recordingStartTime == None && !dataHandlerAttached
      ensures mediaRecorder == if microphoneGranted then Some(Inactive) else None
    {
      recordings, selectedRecording, chatMessages := [], None, [];
      newMessage, searchTerm, error := "", "", None;
      isLoading, isTranscribing, isRecording, isSavingRecording := false, false, false, false;
      isChatLoading, showTranscription := false, false;
      mediaRecorder := if microphoneGranted then Some(Inactive) else None;
      recordingStartTime, dataHandlerAttached := None, false;
    }

    /** `filteredRecordings`. */
    function FilteredRecordings(): seq<RecordingList.Recording>
      reads this
    {
      RecordingList.FilterRecordings(recordings, searchTerm)
    }

    /** The search box's `onChange`. */
    method SetSearchTerm(text: string)
      modifies this`searchTerm
      ensures searchTerm == text
    {
      searchTerm := text;
    }

    /** The chat input's `onChange`. */
    method SetNewMessage(text: string)
      modifies this`newMessage
      ensures newMessage == text
    {
      newMessage := text;
    }

    /** A click on a list entry. */
    method SelectRecording(recording: RecordingList.Recording)
      modifies this`selectedRecording
      ensures selectedRecording == Some(recording)
    {
      selectedRecording := Some(recording);
    }

    /** `fetchRecordings`, given what `getRecordings` resolved with: the fetched rows replace
        the list, or the error is reported and the list kept. */
    method FetchRecordings(fetched: Outcome<seq<RecordingWithUrl>>)
      modifies this`recordings, this`error, this`isLoading
      ensures recordings == if fetched.Ok? then FromServerList(fetched.value) else old(recordings)
      ensures error == if fetched.Ok? then None else Some(FetchRecordingsFailed)
      ensures !isLoading
    {
      isLoading := true;
      error := None;
      if fetched.Ok? {
        recordings := FromServerList(fetched.value);
      } else {
        error := Some(FetchRecordingsFailed);
      }
      isLoading := false;
    }

    /** `fetchChatMessages`, given what `getChatMessages` resolved with. */
    method FetchChatMessages(fetched: Outcome<seq<ChatMessage>>)
      modifies this`chatMessages, this`error
      ensures chatMessages == if fetched.Ok? then fetched.value else old(chatMessages)
      ensures error == if fetched.Ok? then old(error) else Some(FetchChatFailed)
    {
      if fetched.Ok? {
        chatMessages := fetched.value;
      } else {
        error := Some(FetchChatFailed);
      }
    }

    /** The effect that runs when the selection changes. With a recording selected, its
        conversation is fetched (`fetched` is what `getChatMessages` resolved with for its
        id), and the transcription panel is shown exactly when the transcription is not
        empty. Returns the recording id the conversation was fetched for. Without a
        selection nothing happens. */
    method SelectionChanged(fetched: Outcome<seq<ChatMessage>>) returns (queried: Option<string>)
      modifies this`chatMessages, this`error, this`showTranscription
      ensures queried == if selectedRecording.Some? then Some(selectedRecording.value.id) else None
      ensures selectedRecording.None? ==> unchanged(this`chatMessages, this`error, this`showTranscription)
      ensures selectedRecording.Some? ==>
        && showTranscription == Truthy(selectedRecording.value.transcription)
        && chatMessages == (if fetched.Ok? then fetched.value else old(chatMessages))
        && error == (if fetched.Ok? then old(error) else Some(FetchChatFailed))
    {
      queried := None;
      if selectedRecording.Some? {
        queried := Some(selectedRecording.value.id);
        FetchChatMessages(fetched);
        showTranscription := Truthy(selectedRecording.value.transcription);
      }
    }

    /** `startRecording` at time `now`. Without a recorder nothing changes. With one, the flag
        and the start time are set before `start()` is called, and `start()` throws (reported
        as `threw`) when the recorder is already capturing. */
    method StartRecording(now: int) returns (threw: bool)
      requires Valid()
      modifies this`isRecording, this`recordingStartTime, this`mediaRecorder
      ensures Valid()
      ensures old(mediaRecorder).None? ==>
        !threw && unchanged(this`isRecording, this`recordingStartTime, this`mediaRecorder)
      ensures old(mediaRecorder).Some? ==>
        && threw == (old(mediaRecorder) == Some(Recording))
        && isRecording && recordingStartTime == Some(now) && mediaRecorder == Some(Recording)
    {
      threw := false;
      if mediaRecorder.Some? {
        isRecording := true;
        recordingStartTime := Some(now);
        if mediaRecorder.value == Inactive {
          mediaRecorder := Some(Recording);
        } else {
          threw := true;
        }
      }
    }

    /** `stopRecording`: acts only while the recorder is capturing; it then clears the flag,
        stops the recorder and routes its data to `handleRecordingData`. */
    method StopRecording()
      requires Valid()
      modifies this`isRecording, this`mediaRecorder, this`dataHandlerAttached
      ensures Valid()
      ensures old(mediaRecorder) != Some(Recording) ==>
        unchanged(this`isRecording, this`mediaRecorder, this`dataHandlerAttached)
      ensures old(mediaRecorder) == Some(Recording) ==>
        !isRecording && mediaRecorder == Some(Inactive) && dataHandlerAttached
    {
      if mediaRecorder.Some? && mediaRecorder.value == Recording {
        isRecording := false;
        mediaRecorder := Some(Inactive);
        dataHandlerAttached := true;
      }
    }

    /** `handleRecordingData` at time `now`. `dataUrl` is what `FileReader.readAsDataURL`
        produced (`None` when the reader failed; its error event has no message, so the text
        shown ends in "undefined"), `tempAudioUrl` the blob URL, and `saved` what
        `saveRecording` resolved with. Returns the arguments sent to `saveRecording`, if it
        was called. On success the saved recording is prepended and selected; on any failure
        the list and the selection are as they were. Either way the saving flag ends false. */
    method HandleRecordingData(now: int, dataUrl: Option<string>, tempAudioUrl: string,
                               saved: Outcome<StoredRecording>)
      returns (request: Option<SaveRequest>)
      modifies this`recordings, this`selectedRecording, this`error, this`isSavingRecording
      ensures request == if dataUrl.Some?
        then Some(SaveRequest(StripDataUrlPrefix(dataUrl.value), FormatDuration(old(recordingStartTime), now)))
        else None
      ensures dataUrl.Some? && saved.Ok? ==>
        && recordings == [NewRecording(saved.value, tempAudioUrl)] + old(recordings)
        && selectedRecording == Some(NewRecording(saved.value, tempAudioUrl))
        && error == old(error)
      ensures dataUrl.None? || saved.Fail? ==>
        && recordings == old(recordings) && selectedRecording == old(selectedRecording)
        && error == Some(SaveFailed(if dataUrl.None? then None else Some(saved.message)))
      ensures !isSavingRecording
    {
      var duration := FormatDuration(recordingStartTime, now);
      request := SubmitRecording(duration, dataUrl, tempAudioUrl, saved);
    }

    /** The part of `handleRecordingData` after the duration was computed. */
    method SubmitRecording(duration: string, dataUrl: Option<string>, tempAudioUrl: string,
                           saved: Outcome<StoredRecording>)
      returns (request: Option<SaveRequest>)
      modifies this`recordings, this`selectedRecording, this`error, this`isSavingRecording
      ensures request == if dataUrl.Some? then Some(SaveRequest(StripDataUrlPrefix(dataUrl.value), duration)) else None
      ensures dataUrl.Some? && saved.Ok? ==>
        && recordings == [NewRecording(saved.value, tempAudioUrl)] + old(recordings)
        && selectedRecording == Some(NewRecording(saved.value, tempAudioUrl))
        && error == old(error)
      ensures dataUrl.None? || saved.Fail? ==>
        && recordings == old(recordings) && selectedRecording == old(selectedRecording)
        && error == Some(SaveFailed(if dataUrl.None? then None else Some(saved.message)))
      ensures !isSavingRecording
    {
      isSavingRecording := true;
      if dataUrl.None? {
        request := None;
        error := Some(SaveFailed(None));
      } else {
        request := Some(SaveRequest(StripDataUrlPrefix(dataUrl.value), duration));
        match saved
        case Fail(message) =>
          error := Some(SaveFailed(Some(message)));
        case Ok(savedRecording) =>
          var newRecording := NewRecording(savedRecording, tempAudioUrl);
          recordings := [newRecording] + recordings;
          selectedRecording := Some(newRecording);
      }
      isSavingRecording := false;
    }

    /** `handleTranscribeAudio(recordingId)`. `audioFetched` says whether fetching the
        recording's audio URL gave an OK response, `dataUrl` what the reader produced,
        `transcribed` what `transcribeAudio` resolved with and `persisted` what
        `updateRecordingTranscription` resolved with. Returns the payload sent to
        `transcribeAudio`, if it was called, and the recording id and text passed to
        `updateRecordingTranscription`, if it was called. An unknown id changes nothing. On success every
        entry with the id, and the selected recording if it has the id, take the new
        transcription; a failure to persist it afterwards is reported but not undone. The
        transcribing flag ends false on every path. */
    method HandleTranscribeAudio(recordingId: string, audioFetched: bool, dataUrl: Option<string>,
                                 transcribed: Outcome<string>, persisted: Outcome<()>)
      returns (base64Data: Option<Option<string>>, update: Option<(string, string)>)
      modifies this`recordings, this`selectedRecording, this`error, this`isTranscribing, this`showTranscription
      ensures update == if HasRecording(old(recordings), recordingId) && audioFetched && dataUrl.Some? && transcribed.Ok?
                        then Some((recordingId, transcribed.value)) else None
      ensures !HasRecording(old(recordings), recordingId) ==>
        && base64Data.None?
        && unchanged(this`recordings, this`selectedRecording, this`error, this`isTranscribing, this`showTranscription)
      ensures HasRecording(old(recordings), recordingId) ==>
        && base64Data == (if audioFetched && dataUrl.Some? then Some(StripDataUrlPrefix(dataUrl.value)) else None)
        && showTranscription && !isTranscribing
      ensures HasRecording(old(recordings), recordingId) && audioFetched && dataUrl.Some? && transcribed.Ok? ==>
        && recordings == RecordingList.WithTranscription(old(recordings), recordingId, transcribed.value)
        && selectedRecording == TranscribedSelection(old(selectedRecording), recordingId, transcribed.value)
        && error == if persisted.Ok? then None else Some(TranscribeFailed)
      ensures HasRecording(old(recordings), recordingId) && !(audioFetched && dataUrl.Some? && transcribed.Ok?) ==>
        && recordings == old(recordings) && selectedRecording == old(selectedRecording)
        && error == Some(TranscribeFailed)
    {
      base64Data, update := None, None;
      if !HasRecording(recordings, recordingId) {
        return;
      }
      isTranscribing := true;
      showTranscription := true;
      error := None;
      if !audioFetched || dataUrl.None? {
        error := Some(TranscribeFailed);
      } else {
        base64Data := Some(StripDataUrlPrefix(dataUrl.value));
        if transcribed.Fail? {
          error := Some(TranscribeFailed);
        } else {
          var transcription := transcribed.value;
          recordings := RecordingList.WithTranscription(recordings, recordingId, transcription);
          selectedRecording := TranscribedSelection(selectedRecording, recordingId, transcription);
          update := Some((recordingId, transcription));
          if persisted.Fail? {
            error := Some(TranscribeFailed);
          }
        }
      }
      isTranscribing := false;
    }

    /** `handleAskAI`, where the clock reads `now` for the temporary id, `sentAt` for the
        question's timestamp and `replyTime` for the reply's. `savedUser`, `reply` and
        `savedAssistant` are what the two `saveChatMessage` calls and the `chatWithAI` call
        resolved with. Returns what was passed to `saveChatMessage` for the user turn, the
        history and the transcription passed to `chatWithAI`, and what was passed to
        `saveChatMessage` for the reply. Unless the guard holds nothing changes; otherwise the
        optimistic entry is appended and the input cleared, the loading flag ends false on
        every path, and a failure leaves what was already displayed. */
    method HandleAskAI(now: int, sentAt: int, replyTime: int, savedUser: Outcome<ChatMessage>, reply: Outcome<string>,
                       savedAssistant: Outcome<ChatMessage>)
      returns (sentUser: Option<ChatMessage>, history: Option<seq<ChatTurn>>, groundedOn: Option<string>,
               sentAssistant: Option<ChatMessage>)
      modifies this`chatMessages, this`newMessage, this`error, this`isChatLoading
      ensures !CanAsk(selectedRecording, old(newMessage)) ==>
        && sentUser.None? && history.None? && groundedOn.None? && sentAssistant.None?
        && unchanged(this`chatMessages, this`newMessage, this`error, this`isChatLoading)
      ensures CanAsk(selectedRecording, old(newMessage)) ==>
        var temp := UserMessage(now, sentAt, selectedRecording.value.id, old(newMessage));
        && sentUser == Some(temp)
        && history == (if savedUser.Ok? then Some(ToHistory(old(chatMessages) + [savedUser.value])) else None)
        && groundedOn == (if savedUser.Ok? then Some(selectedRecording.value.transcription.value) else None)
        && sentAssistant == (if savedUser.Ok? && reply.Ok?
                             then Some(ChatMessage("", selectedRecording.value.id, Assistant, reply.value, replyTime))
                             else None)
        && chatMessages == ChatAfterAsk(old(chatMessages), temp, savedUser, reply, savedAssistant)
        && newMessage == ""
        && error == (if savedUser.Ok? && reply.Ok? && savedAssistant.Ok? then old(error) else Some(AskFailed))
        && !isChatLoading
    {
      sentUser, history, groundedOn, sentAssistant := None, None, None, None;
      if !CanAsk(selectedRecording, newMessage) {
        return;
      }
      var userMessage := UserMessage(now, sentAt, selectedRecording.value.id, newMessage);
      sentUser := Some(userMessage);
      history, sentAssistant := SendQuestion(userMessage, replyTime, savedUser, reply, savedAssistant);
      if savedUser.Ok? {
        groundedOn := Some(selectedRecording.value.transcription.value);
      }
    }

    /** The part of `handleAskAI` after the guard passed and the optimistic entry `temp` was
        made: append it, clear the input, then persist it, ask for a reply and persist the
        reply, stopping at the first failure. */
    method SendQuestion(temp: ChatMessage, replyTime: int, savedUser: Outcome<ChatMessage>, reply: Outcome<string>,
                        savedAssistant: Outcome<ChatMessage>)
      returns (history: Option<seq<ChatTurn>>, sentAssistant: Option<ChatMessage>)
      modifies this`chatMessages, this`newMessage, this`error, this`isChatLoading
      ensures history == (if savedUser.Ok? then Some(ToHistory(old(chatMessages) + [savedUser.value])) else None)
      ensures sentAssistant == (if savedUser.Ok? && reply.Ok?
                                then Some(ChatMessage("", temp.recordingId, Assistant, reply.value, replyTime))
                                else None)
      ensures chatMessages == ChatAfterAsk(old(chatMessages), temp, savedUser, reply, savedAssistant)
      ensures newMessage == ""
      ensures error == (if savedUser.Ok? && reply.Ok? && savedAssistant.Ok? then old(error) else Some(AskFailed))
      ensures !isChatLoading
    {
      history, sentAssistant := None, None;
      var snapshot := chatMessages;
      isChatLoading := true;
      chatMessages := chatMessages + [temp];
      newMessage := "";
      if savedUser.Fail? {
        error := Some(AskFailed);
      } else {
        var savedUserMessage := savedUser.value;
        chatMessages := ReplaceById(chatMessages, temp.id, savedUserMessage);
        var updatedChatMessages := snapshot + [savedUserMessage];
        history := Some(ToHistory(updatedChatMessages));
        if reply.Fail? {
          error := Some(AskFailed);
        } else {
          var assistantMessage := ChatMessage("", temp.recordingId, Assistant, reply.value, replyTime);
          sentAssistant := Some(assistantMessage);
          if savedAssistant.Fail? {
            error := Some(AskFailed);
          } else {
            chatMessages := chatMessages + [savedAssistant.value];
          }
        }
      }
      isChatLoading := false;
    }
  }
}
