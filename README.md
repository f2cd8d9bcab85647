# Voice notes with transcription and chat — a Dafny model

The application records voice notes in the browser. It stores the audio in an object
bucket and the notes in a database, transcribes a note on request, and lets the user
chat with a language model about one note's transcription. This project models two parts
of it:

- the client page `app/voice-notes/page.tsx`;
- the server actions in `lib/actions.ts`.

The page's component state is the class `VoiceNotesPage.Page`. Each field is one piece
of state: the recording list, the selection, the conversation, the input text, the
search term, the error, the loading flags, the recorder and the start-time reference.
Each event handler is a method with a per-field contract.

Every call the page makes to the server, the browser or the recorder is a parameter:
an outcome (`Outcomes.Outcome`, either `Ok(value)` or `Fail(message)`), a flag, or an
optional value. The one exception is the recorder's `start()`: whether it throws follows
from the recorder's state, and the handler returns it.
Handlers run one at a time and to completion.

The server side is the class `Actions.Store`. It holds the recording table, the chat
table and the set of object keys in the bucket. Its invariant says:

- ids are unique in both tables;
- every recording's audio key is in the bucket;
- every chat row belongs to an existing recording.

The JavaScript built-ins with edge cases that matter are written out in `JsStrings`:

- `Number#toString`;
- `padStart`;
- ASCII `toLowerCase`;
- `includes`;
- `trim`, with the ECMAScript white-space set;
- `split` on one character;
- truthiness and `x || null`.

`Duration` holds `calculateDuration`, with JavaScript's truncating `%` and
`Math.floor`. `DataUrl` holds the `split(",")[1]` prefix strip. `Ordering` is an
insertion sort by an integer key. It stands for the database's `orderBy`.

Modules: `Outcomes`, `JsStrings`, `Duration`, `DataUrl`, `Ordering`, `Actions`,
`RecordingList`, `ChatList`, `VoiceNotesPage`.

## Model

| member | source | states |
|---|---|---|
| JsStrings.NatToDecimal | app/voice-notes/page.tsx:180 | `toString` of a non-negative integer is a non-empty run of decimal digits with no leading zero |
| JsStrings.DecimalRoundTrip | app/voice-notes/page.tsx:180 | reading the printed digits back gives the number, so printing is injective |
| JsStrings.IntToString | app/voice-notes/page.tsx:245 | `toString` of a non-negative integer is its decimal digits, and of a negative integer a minus sign followed by the digits of its magnitude |
| JsStrings.PadStart | app/voice-notes/page.tsx:180 | definition of `padStart` with a one-character fill (no contract of its own); `PadStartShape` states its behaviour |
| JsStrings.PadStartShape | app/voice-notes/page.tsx:180 | `padStart(2, "0")` keeps the string at the end, brings its length up to the width, and puts only fill characters in front |
| JsStrings.OrNull | app/voice-notes/page.tsx:102-103 | `x \|\| null` is null exactly for null and the empty string, and otherwise is `x` |
| JsStrings.Truthy | app/voice-notes/page.tsx:66 | definition of JavaScript truthiness for a nullable string (no contract of its own): neither null nor empty. `OrNull`, `CanAskIff` and `SelectionChanged` state its uses |
| JsStrings.ToLower | app/voice-notes/page.tsx:291 | lower-casing keeps the length and maps each ASCII letter to its lower-case form, position by position |
| JsStrings.Contains | app/voice-notes/page.tsx:291 | definition of `includes` (no contract of its own): the substring occurs at some position. `ContainsEmpty` and `FilterRecordings` state its uses |
| JsStrings.ContainsEmpty | app/voice-notes/page.tsx:291 | every string includes the empty string |
| JsStrings.ContentStart | app/voice-notes/page.tsx:241 | the scan stops at the first character that is not white space, and everything it skipped is white space |
| JsStrings.ContentEnd | app/voice-notes/page.tsx:241 | the backward scan stops after the last character that is not white space, and everything it skipped is white space |
| JsStrings.Trim | app/voice-notes/page.tsx:241 | `trim()` gives a contiguous piece of the input that neither starts nor ends with white space, and everything cut off before and after it is white space |
| JsStrings.TrimEmptyIff | app/voice-notes/page.tsx:241 | `s.trim()` is empty if and only if every character of `s` is ECMAScript white space or a line terminator |
| JsStrings.Split | app/voice-notes/page.tsx:152 | `split(",")` gives at least one piece, and no piece contains the separator |
| JsStrings.JoinSplit | app/voice-notes/page.tsx:152 | joining the pieces with the separator gives back the input, so splitting loses nothing |
| JsStrings.SplitAtOnlySeparator | app/voice-notes/page.tsx:152 | a string with exactly one separator splits into the text before it and the text after it |
| JsStrings.SplitNoSeparator | app/voice-notes/page.tsx:152 | a string without the separator splits into itself alone |
| JsStrings.SplitCountsSeparator | app/voice-notes/page.tsx:152 | there is a second piece exactly when the separator occurs |
| JsStrings.SecondPiece | app/voice-notes/page.tsx:152 | `split(sep)[1]` is defined if and only if the separator occurs |
| Duration.JsRemainder | app/voice-notes/page.tsx:180 | JavaScript's `%` by 60 equals the mathematical remainder for non-negative numbers, and for negative numbers is its negation, with the sign of the dividend |
| Duration.FormatSecondsShape | app/voice-notes/page.tsx:178-180 | a non-negative number `s` of seconds prints as `floor(s/60)`, a colon, and `s % 60` as exactly two digits |
| Duration.PadSecondsField | app/voice-notes/page.tsx:180 | padding a seconds value below 60 gives its two digits, with a leading zero below 10 |
| Duration.FormatDuration | app/voice-notes/page.tsx:175-183 | definition of `calculateDuration` (no contract of its own): a null or 0 start gives "0:00", any other start formats the elapsed whole seconds. Its behaviour is stated by `FormatDurationShape`, `DurationRoundTrip`, `FormatDurationWithoutStart` and the three concrete lemmas |
| Duration.FormatSeconds | app/voice-notes/page.tsx:178-180 | definition of the minutes-and-seconds text (no contract of its own). `FormatSecondsShape` and `SecondsRoundTrip` state its behaviour |
| Duration.FormatDurationShape | app/voice-notes/page.tsx:175-183 | with a truthy start time and no negative elapsed time, the duration is `floor(s/60)` in decimal, a colon, and `s % 60` in exactly two digits, where `s` is the elapsed milliseconds divided by 1000 and rounded down |
| Duration.SecondsRoundTrip | app/voice-notes/page.tsx:178-180 | the text of a number of seconds reads back as that number (minutes, colon, two digits below 60) |
| Duration.DurationRoundTrip | app/voice-notes/page.tsx:175-183 | for a non-negative elapsed time, the duration string determines the elapsed whole seconds: formatting is injective at one-second resolution |
| Duration.ParseFormatted | app/voice-notes/page.tsx:180 | minutes, a colon and two seconds digits read back as `60 * minutes + seconds` |
| Duration.FormatDurationWithoutStart | app/voice-notes/page.tsx:176-182 | a null start time, or the falsy start time 0, gives "0:00" |
| Duration.FormatDurationPadsSeconds | app/voice-notes/page.tsx:175-183 | 125 seconds after the start the duration is "2:05" |
| Duration.FormatDurationDropsMilliseconds | app/voice-notes/page.tsx:175-183 | 65.999 seconds after the start the duration is "1:05", because milliseconds are rounded down |
| Duration.FormatDurationNegativeElapsed | app/voice-notes/page.tsx:177-180 | a clock that went back 1.5 seconds gives "-1:-2": floor division and the truncating remainder both go negative |
| Duration.FormatDurationNegativeThreeCharSeconds | app/voice-notes/page.tsx:177-180 | a clock that went back 13 seconds gives "-1:-13": the seconds field has three characters, and the decoder rejects the text |
| DataUrl.StripDataUrlPrefix | app/voice-notes/page.tsx:152 | the payload after the first comma exists if and only if the data URL has a comma, and it stops at the next comma |
| DataUrl.StripAfterHeader | app/voice-notes/page.tsx:151-152 | for a header without a comma, the strip gives the text after the header's comma, up to the next comma |
| DataUrl.StripBase64DataUrl | app/voice-notes/page.tsx:206-207 | for `data:<type>;base64,<payload>` with no comma in the type or the payload, the strip gives back exactly the payload |
| DataUrl.StripWithoutComma | app/voice-notes/page.tsx:206-207 | a reader result without a comma gives `undefined` (None) as the payload |
| Ordering.InsertByKey | lib/actions.ts:115-117 | inserting into a list sorted by key keeps it sorted, and adds exactly the one element |
| Ordering.InsertStep | lib/actions.ts:115-117 | placing the head before a sorted tail keeps the list sorted and is a permutation |
| Ordering.SortByKey | lib/actions.ts:175-177 | the result is sorted by key and is a permutation of the input |
| Actions.SystemPrompt | lib/actions.ts:51-55 | the system instruction contains the transcription |
| Actions.ChatRequest | lib/actions.ts:51-70 | the request is one system turn that contains the transcription, then the given history unchanged and in order, with model "gpt-4o-mini" and at most 150 tokens |
| Actions.TranscribeAudio | lib/actions.ts:8-42 | there is a transcription if and only if a payload was given and the service answered; it is the service's text, and every failure carries the one fixed message |
| Actions.UploadKey | lib/actions.ts:93 | definition of the object key (no contract of its own). `UploadKeyShape` and `UploadKeyInjective` state its behaviour |
| Actions.UploadKeyShape | lib/actions.ts:93 | the object key is "recording_", the decimal milliseconds, then ".wav", and the milliseconds can be read back from it |
| Actions.UploadKeyInjective | lib/actions.ts:93 | uploads made at different milliseconds get different keys |
| Actions.SetTranscription | lib/actions.ts:134-137 | the update keeps the table's length and order, and gives each row with the id the new transcription; other rows stay as they were |
| Actions.SetTranscriptionOneRow | lib/actions.ts:134-137 | with unique ids, the update changes exactly one row, and only its transcription |
| Actions.SetTranscriptionKeepsKeys | lib/actions.ts:134-137 | the update keeps every row's id and audio key, and the set of ids |
| Actions.Timestamp | lib/actions.ts:176 | the `orderBy: { timestamp: "asc" }` key (no contract of its own); `Store.GetChatMessages` states the ascending order |
| Actions.NewestFirst | lib/actions.ts:116 | the `orderBy: { timestamp: "desc" }` key, the negated timestamp (no contract of its own); `Store.GetRecordings` states the descending order |
| Actions.MessagesOf | lib/actions.ts:171-174 | `where: { recordingId }` keeps each message of that recording as often as the table has it, and no other message |
| Actions.WithUrls | lib/actions.ts:119-124 | each row gets the URL signed for its own audio key, and rows keep their order |
| Actions.AppendKeepsIds | lib/actions.ts:100-105 | creating a row with a fresh id keeps the ids unique and adds exactly that id |
| Actions.Store.constructor | lib/actions.ts:100-105 | the empty store: no recordings, no chat rows, no objects; it satisfies the invariant |
| Actions.Store.Valid | lib/actions.ts:100-105 | the store invariant (a predicate, no contract of its own): unique ids in both tables, every recording's audio key among the bucket's keys, and every chat row's recording present. Every store method keeps it |
| Actions.Store.SaveRecording | lib/actions.ts:90-112 | the payload is decoded and uploaded under the time-based key, and the row is created only after a successful upload. A row exists afterwards if and only if the payload was a string, the upload succeeded, the database answered the create and the id was fresh. The new row has that key, the given duration and no transcription. A failed upload fails with "Failed to upload audio to S3". The uploaded key is added to the bucket even when the create then fails, and every stored recording's audio key stays among the bucket's keys |
| Actions.Store.GetRecordings | lib/actions.ts:114-127 | the query answers if and only if the database does. Then it gives every row exactly once (a permutation of the table), newest first, each with the signed URL of its own key |
| Actions.Store.RecordingsNewestFirst | lib/actions.ts:115-124 | the answered query: every row exactly once (a permutation of the table), newest first, each with the signed URL of its own key |
| Actions.Store.UpdateRecordingTranscription | lib/actions.ts:129-142 | the call succeeds if and only if the database answers and the id exists, and then sets that row's transcription. Any failure (an unknown id or an unanswered update) fails with "Failed to update transcription in the database" and changes nothing |
| Actions.Store.SaveChatMessage | lib/actions.ts:144-166 | the stored row is the message with the database's id in place of the caller's, appended to the table. This succeeds if and only if the database answers, the recording exists and the id is fresh; otherwise the table is unchanged |
| Actions.Store.GetChatMessages | lib/actions.ts:168-186 | the query answers if and only if the database does. Then it gives exactly the messages of this recording, each as often as stored, oldest first |
| Actions.Store.MessagesOldestFirst | lib/actions.ts:171-178 | the answered query: exactly the messages of this recording, each as often as stored, oldest first |
| RecordingList.WithTranscription | app/voice-notes/page.tsx:211-213 | every entry with the id gets the new transcription; all others stay as they were, in order |
| RecordingList.WithTranscriptionChangesOnlyTranscription | app/voice-notes/page.tsx:211-213 | the update changes no field but the transcription, and changes it only on entries with the id |
| RecordingList.MatchesSearch | app/voice-notes/page.tsx:291 | definition of the filter's test (no contract of its own): the lower-cased id includes the lower-cased term. `FilterRecordings` and `FilterEmptyTerm` state its use |
| RecordingList.FilterRecordings | app/voice-notes/page.tsx:290-292 | the filter keeps exactly the recordings whose lower-cased id includes the lower-cased term, each as often as listed |
| RecordingList.FilterKeepsOrder | app/voice-notes/page.tsx:290-292 | the filtered list is a subsequence of the list: the order is kept |
| RecordingList.FilterEmptyTerm | app/voice-notes/page.tsx:290-292 | an empty search term shows every recording |
| ChatList.ReplaceById | app/voice-notes/page.tsx:257-261 | each entry carrying the temporary id becomes the persisted message; the others and the length stay |
| ChatList.OptimisticReplace | app/voice-notes/page.tsx:252-261 | after the optimistic append, the replacement puts the persisted copy in the temporary entry's place, if no earlier entry has the temporary id |
| ChatList.ToHistory | app/voice-notes/page.tsx:266 | each message becomes its `{ role, content }` turn, preserving order |
| ChatList.ToHistoryAppend | app/voice-notes/page.tsx:263-266 | the history of the conversation plus one message is the old history plus that message's turn |
| VoiceNotesPage.ErrorText | app/voice-notes/page.tsx:109 | definition (no contract of its own): the five error texts the page sets at lines 109, 169, 223, 236 and 283, a failed save carrying the thrown message |
| VoiceNotesPage.FromServer | app/voice-notes/page.tsx:98-104 | a fetched row keeps its id, key, duration and timestamp, and an empty transcription or URL becomes null |
| VoiceNotesPage.FromServerList | app/voice-notes/page.tsx:98-105 | the fetched list is formatted entry by entry, in order |
| VoiceNotesPage.NewRecording | app/voice-notes/page.tsx:156-163 | definition of the entry prepended after a save (no contract of its own): the saved row with the local blob URL. `HandleRecordingData` states where it goes |
| VoiceNotesPage.UserMessage | app/voice-notes/page.tsx:244-250 | definition of the optimistic message (no contract of its own): the first clock reading as text is its id, a second clock reading its timestamp |
| VoiceNotesPage.HasRecording | app/voice-notes/page.tsx:186-187 | definition of `recordings.find((r) => r.id === recordingId)` being truthy (no contract of its own): some entry has the id. `HandleTranscribeAudio` states what happens either way |
| VoiceNotesPage.CanAsk | app/voice-notes/page.tsx:241 | definition of the send guard (no contract of its own); `CanAskIff` states it |
| VoiceNotesPage.TranscribedSelection | app/voice-notes/page.tsx:216-217 | definition (no contract of its own): the selection takes the transcription only when it is the recording just transcribed. `HandleTranscribeAudio` states its use |
| VoiceNotesPage.ChatAfterAsk | app/voice-notes/page.tsx:252-280 | definition of the conversation after a question (no contract of its own); `AskSucceeds` and `AskFailsAfterSave` state its behaviour |
| VoiceNotesPage.CanAskIff | app/voice-notes/page.tsx:241 | a question is sent if and only if a recording is selected, its transcription is non-empty, and the message has a character that is not white space |
| VoiceNotesPage.AskSucceeds | app/voice-notes/page.tsx:252-280 | a fully successful exchange leaves the earlier conversation, then the persisted question, then the persisted reply |
| VoiceNotesPage.AskFailsAfterSave | app/voice-notes/page.tsx:252-283 | when no reply is persisted, the conversation ends with the persisted question, or with the optimistic one if that failed to persist |
| VoiceNotesPage.AskRequestShape | app/voice-notes/page.tsx:263-268 | the model receives the system turn, the earlier conversation in order, and last the question just asked |
| VoiceNotesPage.Page.constructor | app/voice-notes/page.tsx:39-56 | the initial state: empty lists and input, no error, flags off, and a recorder only if the microphone was granted (lines 80-91) |
| VoiceNotesPage.Page.Valid | app/voice-notes/page.tsx:115-132 | the page invariant (a predicate, no contract of its own): the recording flag is set exactly when the recorder is capturing. Only `StartRecording` and `StopRecording` change those fields, and both keep it |
| VoiceNotesPage.Page.FilteredRecordings | app/voice-notes/page.tsx:290-292 | definition of the visible list (no contract of its own): the stored list filtered by the search term, as `FilterRecordings`, `FilterKeepsOrder` and `FilterEmptyTerm` state |
| VoiceNotesPage.Page.SetSearchTerm | app/voice-notes/page.tsx:337 | the search box sets the term |
| VoiceNotesPage.Page.SetNewMessage | app/voice-notes/page.tsx:431 | the chat input sets the message |
| VoiceNotesPage.Page.SelectRecording | app/voice-notes/page.tsx:353 | a click selects the recording |
| VoiceNotesPage.Page.SelectionChanged | app/voice-notes/page.tsx:63-68 | with a selection, the conversation is fetched for the selected recording's id and loaded (or the fetch error reported), and the transcription panel is shown exactly when the transcription is non-empty; without one, nothing changes |
| VoiceNotesPage.Page.FetchRecordings | app/voice-notes/page.tsx:93-113 | on success the formatted rows replace the list and the error is cleared; on failure the list is kept and the fetch error shown; loading ends false either way |
| VoiceNotesPage.Page.FetchChatMessages | app/voice-notes/page.tsx:230-238 | on success the fetched messages replace the conversation; on failure it is kept and the fetch error shown |
| VoiceNotesPage.Page.StartRecording | app/voice-notes/page.tsx:115-121 | no recorder: nothing changes. With one, the flag and start time are set and the recorder captures; `start()` throws exactly when it was already capturing. The flag matches the recorder afterwards |
| VoiceNotesPage.Page.StopRecording | app/voice-notes/page.tsx:123-132 | only a capturing recorder is stopped; then the flag is cleared and the data handler attached. The flag matches the recorder afterwards |
| VoiceNotesPage.Page.HandleRecordingData | app/voice-notes/page.tsx:134-173 | the server receives the stripped payload and the duration computed when the recorded data arrives. On success the saved recording, with the local URL, is prepended and selected. On any failure the list and selection are kept and the save error is shown with the thrown message. Saving ends false |
| VoiceNotesPage.Page.SubmitRecording | app/voice-notes/page.tsx:144-172 | the same outcome, given the duration already computed |
| VoiceNotesPage.Page.HandleTranscribeAudio | app/voice-notes/page.tsx:185-228 | an unknown id changes nothing. Otherwise the panel opens and transcribing ends false. On success every entry with the id, and the selection if it has the id, take the transcription, and exactly that id and text are sent to be persisted (nothing is sent on any other path); a failure to persist is reported but not undone. Any earlier failure keeps list and selection and shows the transcription error |
| VoiceNotesPage.Page.HandleAskAI | app/voice-notes/page.tsx:240-288 | nothing happens unless the guard holds. Otherwise the optimistic message (id = the first clock reading as text, timestamp = the second) is sent, the input cleared, and the model receives the conversation as it was plus the persisted question, together with the selected recording's transcription. The conversation ends as `ChatAfterAsk` says; any failure shows the chat error, and chat loading ends false |
| VoiceNotesPage.Page.SendQuestion | app/voice-notes/page.tsx:252-286 | the send protocol after the guard: the three steps stop at the first failure, and each step's result is what the conversation shows |

`Duration.ParseDuration` has no counterpart in the application. It is a reference
decoder that the round-trip lemmas use to show that, for a non-negative elapsed time, the
printed duration loses nothing but milliseconds. A negative elapsed time can print a
seconds field of three characters, which the decoder rejects
(`FormatDurationNegativeThreeCharSeconds`).

## Left out

- Rendering (JSX), scrolling, the Enter-key binding and the disabled states of the buttons. `StartRecording` can be called while recording, and then models `start()` throwing.
- The `useEffect` wiring at mount and the cleanup that revokes blob URLs (page.tsx:58-61 and 70-78). Blob URL creation becomes the `tempAudioUrl` parameter.
- Asynchronous interleaving: handlers run to completion one at a time. The stale `recordings` and `chatMessages` closures are modelled only where the code reads them: the history snapshot in `handleAskAI`.
- `components/custom/AudioPlayer.tsx`, `next.config.mjs` and the Prisma schema are not part of this model. The database is a sequence of rows, and the ids and timestamps it assigns are parameters.
- `lib/s3.ts`: the upload result is a boolean parameter, and URL signing is a function parameter that returns null on failure.
- The HTTP requests, JSON, multipart bodies, base64 decoding, the transcription service and the completion service. Their results are outcome parameters. `ChatRequest` models the body sent, not the answer.
- `MediaRecorder` and microphone access: the recorder is `Inactive` or `Recording` (never paused), and `getUserMedia` becomes the constructor's flag.
- The texts of errors thrown by code outside the application (the `Buffer` type error, the database constraint errors) are represented by constants.
- Actions.Store.SaveRecording: the bucket is a set of keys. Two uploads in the same millisecond get the same key, and the second overwrites the first object's audio; the model does not distinguish the two contents.
- The database's own failures are one flag per call (`databaseAnswers`), on the three writes and the two reads. Their texts, other than the update's fixed message, are represented by one constant.
- JsStrings.ToLower: only ASCII letters are lower-cased. JavaScript's full Unicode case mapping is not modelled.
- JsStrings.IntToString: exponent notation for numbers of 10^21 and above is not modelled. Millisecond timestamps are far below that.
- VoiceNotesPage.Page.HandleTranscribeAudio: `transcribed` is the server's answer as a parameter. The model does not link it to `Actions.TranscribeAudio` applied to the stripped payload. In particular, the undefined payload (no comma in the data URL) reaches the server as `undefined`, and the resulting failure is the caller's choice of outcome.
- VoiceNotesPage.Page.HandleAskAI: the temporary id `Date.now().toString()` may collide with an earlier message's id. `AskSucceeds` and `AskFailsAfterSave` state their results under the assumption that it does not (`IdAbsent`).
