/** The server actions of `lib/actions.ts` over an abstract database (two tables) and an
    abstract object store (the set of keys uploaded). The outcome of every call to S3, to the
    speech-to-text service and to the chat-completion service is a parameter. */
module Actions {
  import opened Outcomes
  import opened JsStrings
  import opened Ordering

  datatype Role = User | Assistant

  /** The role as it is stored and sent to the chat-completion service. */
  function RoleName(role: Role): string
  {
    match role
    case User => "user"
    case Assistant => "assistant"
  }

  /** A row of the chat table, and the message object the page holds. */
  datatype ChatMessage = ChatMessage(id: string, recordingId: string, role: Role, content: string, timestamp: int)

  /** One `{ role, content }` entry of a chat-completion request. */
  datatype ChatTurn = ChatTurn(role: string, content: string)

  /** A row of the recording table. */
  datatype StoredRecording = StoredRecording(
    id: string, audioKey: string, duration: string, timestamp: int, transcription: Option<string>)

  /** A row of the recording table with the signed URL obtained for its audio key
      (`null`, here `None`, when signing failed). */
  datatype RecordingWithUrl = RecordingWithUrl(recording: StoredRecording, audioUrl: Option<string>)

  // ---------------------------------------------------------------- chatWithAI

  const ChatModel: string := "gpt-4o-mini"
  const ChatMaxTokens: nat := 150

  datatype ChatCompletionRequest = ChatCompletionRequest(model: string, messages: seq<ChatTurn>, maxTokens: nat)

  const SystemPromptLead: string :=
    "You are an AI assistant. Your task is to answer questions and have a conversation based on the following transcription: \""

  /** The system instruction, with the transcription quoted inside it. */
  function SystemPrompt(transcription: string): (p: string)
    ensures Contains(p, transcription)
  {
    var p := SystemPromptLead + transcription + "\"";
    assert p[|SystemPromptLead|..][..|transcription|] == transcription;
    p
  }

  /** The body `chatWithAI` posts: a system message that embeds the transcription, followed
      by the history in order. */
  function ChatRequest(chatHistory: seq<ChatTurn>, transcription: string): (r: ChatCompletionRequest)
    ensures |r.messages| == |chatHistory| + 1
    ensures r.messages[0].role == "system" && Contains(r.messages[0].content, transcription)
    ensures r.messages[1..] == chatHistory
    ensures r.model == ChatModel && r.maxTokens == ChatMaxTokens
  {
    var messages := [ChatTurn("system", SystemPrompt(transcription))] + chatHistory;
    ChatCompletionRequest(ChatModel, messages, ChatMaxTokens)
  }

  // ------------------------------------------------------------- transcribeAudio

  const TranscriptionFailed: string := "Failed to transcribe audio. Please try again later."

  /** `transcribeAudio`: the service's text when there was a payload to decode and the service
      answered; every failure is rethrown with one fixed message. An absent payload
      (`undefined`) makes `Buffer.from` throw before any request is sent. */
  function TranscribeAudio(base64Audio: Option<string>, response: Outcome<string>): (r: Outcome<string>)
    ensures r.Ok? <==> base64Audio.Some? && response.Ok?
    ensures r.Ok? ==> r.value == response.value
    ensures r.Fail? ==> r.message == TranscriptionFailed
  {
    if base64Audio.Some? && response.Ok? then response else Fail(TranscriptionFailed)
  }

  // --------------------------------------------------------------- saveRecording

  /** The object key of an upload made at `now` (milliseconds since the epoch). */
  function UploadKey(now: nat): string
  {
    "recording_" + NatToDecimal(now) + ".wav"
  }

  /** The key is "recording_", the decimal epoch milliseconds, ".wav"; the time can be read
      back from it, so uploads made at different milliseconds get different keys. */
  lemma UploadKeyShape(now: nat)
    ensures var key := UploadKey(now);
      |key| > 14 && key[..10] == "recording_" && key[|key| - 4..] == ".wav"
      && AllDigits(key[10..|key| - 4]) && DecimalValue(key[10..|key| - 4]) == now
  {
    var key := UploadKey(now);
    assert key[10..|key| - 4] == NatToDecimal(now);
    DecimalRoundTrip(now);
  }

  lemma UploadKeyInjective(a: nat, b: nat)
    requires UploadKey(a) == UploadKey(b)
    ensures a == b
  {
    UploadKeyShape(a);
    UploadKeyShape(b);
  }

  // ------------------------------------------------------------------ the tables

  function RecordingIds(recs: seq<StoredRecording>): set<string>
  {
    set i | 0 <= i < |recs| :: recs[i].id
  }

  function ChatIds(chats: seq<ChatMessage>): set<string>
  {
    set i | 0 <= i < |chats| :: chats[i].id
  }

  /** Primary keys are unique. */
  ghost predicate DistinctRecordingIds(recs: seq<StoredRecording>)
  {
    forall i, j :: 0 <= i < j < |recs| ==> recs[i].id != recs[j].id
  }

  ghost predicate DistinctChatIds(chats: seq<ChatMessage>)
  {
    forall i, j :: 0 <= i < j < |chats| ==> chats[i].id != chats[j].id
  }

  // ------------------------------------------------- updateRecordingTranscription

  /** The recording table after `update({ where: { id }, data: { transcription } })`. */
  function SetTranscription(recs: seq<StoredRecording>, id: string, transcription: string): (r: seq<StoredRecording>)
    ensures |r| == |recs|
    ensures forall i :: 0 <= i < |recs| ==>
      r[i] == if recs[i].id == id then recs[i].(transcription := Some(transcription)) else recs[i]
  {
    if recs == [] then []
    else
      var head := if recs[0].id == id then recs[0].(transcription := Some(transcription)) else recs[0];
      [head] + SetTranscription(recs[1..], id, transcription)
  }

  /** With unique ids, the update touches exactly one row, and only its transcription:
      the table is the old one with that single row's transcription replaced. */
  lemma SetTranscriptionOneRow(recs: seq<StoredRecording>, k: nat, transcription: string)
    requires DistinctRecordingIds(recs) && k < |recs|
    ensures SetTranscription(recs, recs[k].id, transcription)
            == recs[k := recs[k].(transcription := Some(transcription))]
  {
    var r := SetTranscription(recs, recs[k].id, transcription);
    forall i | 0 <= i < |recs| && i != k ensures r[i] == recs[i] {
      if i < k { assert recs[i].id != recs[k].id; } else { assert recs[k].id != recs[i].id; }
    }
  }

  /** The update keeps every row's id and audio key. */
  lemma SetTranscriptionKeepsKeys(recs: seq<StoredRecording>, id: string, transcription: string)
    ensures var r := SetTranscription(recs, id, transcription);
      RecordingIds(r) == RecordingIds(recs)
      && forall i :: 0 <= i < |r| ==> r[i].id == recs[i].id && r[i].audioKey == recs[i].audioKey
  {
    var r := SetTranscription(recs, id, transcription);
    assert forall i :: 0 <= i < |r| ==> r[i].id == recs[i].id;
    forall x | x in RecordingIds(r) ensures x in RecordingIds(recs) {
      var i :| 0 <= i < |r| && r[i].id == x;
      assert recs[i].id == x;
    }
    forall x | x in RecordingIds(recs) ensures x in RecordingIds(r) {
      var i :| 0 <= i < |recs| && recs[i].id == x;
      assert r[i].id == x;
    }
  }

  // ---------------------------------------------------------------- getChatMessages

  /** The rows of the chat table that belong to one recording, in table order. */
  function MessagesOf(chats: seq<ChatMessage>, recordingId: string): (r: seq<ChatMessage>)
    ensures forall m :: multiset(r)[m] == if m.recordingId == recordingId then multiset(chats)[m] else 0
  {
    if chats == [] then []
    else
      assert chats == [chats[0]] + chats[1..];
      var rest := MessagesOf(chats[1..], recordingId);
      if chats[0].recordingId == recordingId then [chats[0]] + rest else rest
  }

  function Timestamp(m: ChatMessage): int { m.timestamp }

  // ----------------------------------------------------------------- getRecordings

  /** The sort key of `orderBy: { timestamp: "desc" }`. */
  function NewestFirst(r: StoredRecording): int { -r.timestamp }

  /** `{ ...recording, audioUrl: await getAudioUrl(recording.audioKey) }` for each row,
      with `getSignedUrl` given as `signer`. */
  function WithUrls(recs: seq<StoredRecording>, signer: string -> Option<string>): (r: seq<RecordingWithUrl>)
    ensures |r| == |recs|
    ensures forall i :: 0 <= i < |recs| ==> r[i].recording == recs[i] && r[i].audioUrl == signer(recs[i].audioKey)
  {
    if recs == [] then [] else [RecordingWithUrl(recs[0], signer(recs[0].audioKey))] + WithUrls(recs[1..], signer)
  }

  /** The rows underneath a list of recordings with URLs. */
  function Rows(rs: seq<RecordingWithUrl>): (r: seq<StoredRecording>)
    ensures |r| == |rs| && forall i :: 0 <= i < |rs| ==> r[i] == rs[i].recording
  {
    if rs == [] then [] else [rs[0].recording] + Rows(rs[1..])
  }

  // ------------------------------------------------------------------- messages

  const UploadFailed: string := "Failed to upload audio to S3"
  const UpdateFailed: string := "Failed to update transcription in the database"
  /** Stands for the TypeError `Buffer.from(undefined, "base64")` throws. */
  const PayloadNotString: string := "The first argument must be of type string"
  /** Stands for the database's error when a new row's primary key is already taken. */
  const DuplicateId: string := "Unique constraint failed on the fields: (`id`)"
  /** Stands for the database's error when a chat row names a recording that does not exist. */
  const MissingRecording: string := "Foreign key constraint failed on the field: `recordingId`"
  /** Stands for the database's error when it does not answer at all. */
  const DatabaseUnreachable: string := "Can't reach database server"

  /** The persistent state the server actions work on: the recording table, the chat table
      and the keys of the objects in the bucket. */
  class Store {
    var recordings: seq<StoredRecording>
    var chats: seq<ChatMessage>
    var objects: set<string>

    /** Ids are unique, every recording's audio is in the bucket, and every chat message
        belongs to an existing recording. */
    ghost predicate Valid()
      reads this
    {
      && DistinctRecordingIds(recordings)
      && DistinctChatIds(chats)
      && (forall i :: 0 <= i < |recordings| ==> recordings[i].audioKey in objects)
      && (forall i :: 0 <= i < |chats| ==> chats[i].recordingId in RecordingIds(recordings))
    }

    constructor ()
      ensures Valid()
      ensures recordings == [] && chats == [] && objects == {}
    {
      recordings, chats, objects := [], [], {};
    }

    /** `saveRecording`: decode the payload, upload it under a key made from `now`, and only
        when the upload reported success create the row (`newId` and `createdAt` are the
        values the database assigns; `databaseAnswers` is false when the database fails the
        create for reasons of its own). A create that fails after the upload leaves the
        uploaded object in the bucket. */
    method SaveRecording(base64AudioData: Option<string>, duration: string, now: nat,
                         uploadSucceeds: bool, databaseAnswers: bool, newId: string, createdAt: int)
      returns (r: Outcome<StoredRecording>)
      requires Valid()
      modifies this
      ensures Valid()
      ensures r.Ok? <==> base64AudioData.Some? && uploadSucceeds && databaseAnswers
                         && newId !in RecordingIds(old(recordings))
      ensures r.Ok? ==> r.value == StoredRecording(newId, UploadKey(now), duration, createdAt, None)
                        && recordings == old(recordings) + [r.value]
      ensures r.Fail? ==> recordings == old(recordings)
      ensures base64AudioData.Some? && !uploadSucceeds ==> r == Fail(UploadFailed)
      ensures base64AudioData.Some? && uploadSucceeds && !databaseAnswers ==> r == Fail(DatabaseUnreachable)
      ensures objects == if base64AudioData.Some? && uploadSucceeds then old(objects) + {UploadKey(now)}
                         else old(objects)
      ensures chats == old(chats)
    {
      if base64AudioData.None? {
        return Fail(PayloadNotString);
      }
      var fileName := UploadKey(now);
      if !uploadSucceeds {
        return Fail(UploadFailed);
      }
      objects := objects + {fileName};
      if !databaseAnswers {
        return Fail(DatabaseUnreachable);
      }
      if newId in RecordingIds(recordings) {
        return Fail(DuplicateId);
      }
      var recording := StoredRecording(newId, fileName, duration, createdAt, None);
      AppendKeepsIds(recordings, recording);
      recordings := recordings + [recording];
      r := Ok(recording);
    }

    /** `getRecordings`: every row, newest first, each with the URL signed for its own key;
        the query rejects when the database does not answer (`databaseAnswers` false). */
    method GetRecordings(signer: string -> Option<string>, databaseAnswers: bool)
      returns (r: Outcome<seq<RecordingWithUrl>>)
      ensures r.Ok? <==> databaseAnswers
      ensures r.Fail? ==> r.message == DatabaseUnreachable
      ensures r.Ok? ==> |r.value| == |recordings|
      ensures r.Ok? ==> multiset(Rows(r.value)) == multiset(recordings)
      ensures r.Ok? ==> forall i, j :: 0 <= i < j < |r.value| ==>
                          r.value[i].recording.timestamp >= r.value[j].recording.timestamp
      ensures r.Ok? ==> forall i :: 0 <= i < |r.value| ==> r.value[i].audioUrl == signer(r.value[i].recording.audioKey)
    {
      if !databaseAnswers {
        return Fail(DatabaseUnreachable);
      }
      var rows := RecordingsNewestFirst(signer);
      r := Ok(rows);
    }

    /** The answer of `getRecordings` once the database has answered. */
    method RecordingsNewestFirst(signer: string -> Option<string>) returns (r: seq<RecordingWithUrl>)
      ensures |r| == |recordings|
      ensures multiset(Rows(r)) == multiset(recordings)
      ensures forall i, j :: 0 <= i < j < |r| ==> r[i].recording.timestamp >= r[j].recording.timestamp
      ensures forall i :: 0 <= i < |r| ==> r[i].audioUrl == signer(r[i].recording.audioKey)
    {
      var sorted := SortByKey(recordings, NewestFirst);
      r := WithUrls(sorted, signer);
      assert Rows(r) == sorted;
      assert forall i, j :: 0 <= i < j < |sorted| ==> NewestFirst(sorted[i]) <= NewestFirst(sorted[j]);
    }

    /** `updateRecordingTranscription`: set the transcription of the row with this id;
        the database rejects an id it does not hold, and any failure of the update
        (`databaseAnswers` false included) is reported with the same message. */
    method UpdateRecordingTranscription(recordingId: string, transcription: string, databaseAnswers: bool)
      returns (r: Outcome<()>)
      requires Valid()
      modifies this
      ensures Valid()
      ensures r.Ok? <==> databaseAnswers && recordingId in RecordingIds(old(recordings))
      ensures r.Ok? ==> recordings == SetTranscription(old(recordings), recordingId, transcription)
      ensures r.Fail? ==> recordings == old(recordings) && r.message == UpdateFailed
      ensures chats == old(chats) && objects == old(objects)
    {
      if !databaseAnswers || recordingId !in RecordingIds(recordings) {
        return Fail(UpdateFailed);
      }
      SetTranscriptionKeepsKeys(recordings, recordingId, transcription);
      recordings := SetTranscription(recordings, recordingId, transcription);
      r := Ok(());
    }

    /** `saveChatMessage`: create a chat row from the message's recording id, role, content
        and timestamp (its id is ignored; `newId` is the one the database assigns) and return
        the stored row; `databaseAnswers` is false when the database fails the create for
        reasons of its own. */
    method SaveChatMessage(message: ChatMessage, newId: string, databaseAnswers: bool) returns (r: Outcome<ChatMessage>)
      requires Valid()
      modifies this
      ensures Valid()
      ensures r.Ok? <==> databaseAnswers && message.recordingId in RecordingIds(recordings)
                         && newId !in ChatIds(old(chats))
      ensures !databaseAnswers ==> r == Fail(DatabaseUnreachable)
      ensures r.Ok? ==> r.value == message.(id := newId) && chats == old(chats) + [r.value]
      ensures r.Fail? ==> chats == old(chats)
      ensures recordings == old(recordings) && objects == old(objects)
    {
      if !databaseAnswers {
        return Fail(DatabaseUnreachable);
      }
      if message.recordingId !in RecordingIds(recordings) {
        return Fail(MissingRecording);
      }
      if newId in ChatIds(chats) {
        return Fail(DuplicateId);
      }
      var saved := ChatMessage(newId, message.recordingId, message.role, message.content, message.timestamp);
      forall i | 0 <= i < |chats| ensures chats[i].id != newId {
        assert chats[i].id in ChatIds(chats);
      }
      chats := chats + [saved];
      r := Ok(saved);
    }

    /** `getChatMessages`: exactly the rows of this recording, oldest first; the query
        rejects when the database does not answer (`databaseAnswers` false). */
    method GetChatMessages(recordingId: string, databaseAnswers: bool) returns (r: Outcome<seq<ChatMessage>>)
      ensures r.Ok? <==> databaseAnswers
      ensures r.Fail? ==> r.message == DatabaseUnreachable
      ensures r.Ok? ==> forall m :: multiset(r.value)[m] == if m.recordingId == recordingId then multiset(chats)[m] else 0
      ensures r.Ok? ==> forall i, j :: 0 <= i < j < |r.value| ==> r.value[i].timestamp <= r.value[j].timestamp
    {
      if !databaseAnswers {
        return Fail(DatabaseUnreachable);
      }
      var rows := MessagesOldestFirst(recordingId);
      r := Ok(rows);
    }

    /** The answer of `getChatMessages` once the database has answered. */
    method MessagesOldestFirst(recordingId: string) returns (r: seq<ChatMessage>)
      ensures forall m :: multiset(r)[m] == if m.recordingId == recordingId then multiset(chats)[m] else 0
      ensures forall i, j :: 0 <= i < j < |r| ==> r[i].timestamp <= r[j].timestamp
    {
      r := SortByKey(MessagesOf(chats, recordingId), Timestamp);
      assert forall i, j :: 0 <= i < j < |r| ==> Timestamp(r[i]) <= Timestamp(r[j]);
    }
  }

  lemma AppendKeepsIds(recs: seq<StoredRecording>, x: StoredRecording)
    requires DistinctRecordingIds(recs) && x.id !in RecordingIds(recs)
    ensures DistinctRecordingIds(recs + [x])
    ensures RecordingIds(recs + [x]) == RecordingIds(recs) + {x.id}
  {
    var r := recs + [x];
    forall i | 0 <= i < |recs| ensures recs[i].id != x.id {
      assert recs[i].id in RecordingIds(recs);
    }
    forall y | y in RecordingIds(r) ensures y in RecordingIds(recs) + {x.id} {
      var i :| 0 <= i < |r| && r[i].id == y;
      if i < |recs| { assert recs[i].id == y; }
    }
    forall y | y in RecordingIds(recs) + {x.id} ensures y in RecordingIds(r) {
      if y == x.id { assert r[|recs|].id == y; }
      else { var i :| 0 <= i < |recs| && recs[i].id == y; assert r[i].id == y; }
    }
  }
}
