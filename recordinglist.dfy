/** The page's list of recordings and the pure operations it applies to that list. */
module RecordingList {
  import opened Outcomes
  import opened JsStrings

  /** A recording as the page holds it; `audioUrl` is a signed URL, a local blob URL, or null. */
  datatype Recording = Recording(
    id: string, duration: string, timestamp: int, audioKey: string,
    audioUrl: Option<string>, transcription: Option<string>)

  /** `recordings.map((r) => r.id === recordingId ? { ...r, transcription } : r)`. */
  function WithTranscription(recs: seq<Recording>, recordingId: string, transcription: string): (r: seq<Recording>)
    ensures |r| == |recs|
    ensures forall i :: 0 <= i < |recs| ==>
      r[i] == if recs[i].id == recordingId then recs[i].(transcription := Some(transcription)) else recs[i]
  {
    if recs == [] then []
    else
      var head := if recs[0].id == recordingId then recs[0].(transcription := Some(transcription)) else recs[0];
      [head] + WithTranscription(recs[1..], recordingId, transcription)
  }

  /** The update keeps the list's length, order and ids, changes nothing but the
      transcription of any entry, and gives every entry with the id exactly that transcription. */
  lemma WithTranscriptionChangesOnlyTranscription(recs: seq<Recording>, recordingId: string, transcription: string)
    ensures var r := WithTranscription(recs, recordingId, transcription);
      forall i :: 0 <= i < |recs| ==>
        && r[i].(transcription := recs[i].transcription) == recs[i]
        && (r[i].transcription == Some(transcription) || r[i] == recs[i])
        && (recs[i].id == recordingId ==> r[i].transcription == Some(transcription))
  {
  }

  /** `recording.id.toLowerCase().includes(searchTerm.toLowerCase())`. */
  predicate MatchesSearch(r: Recording, searchTerm: string)
  {
    Contains(ToLower(r.id), ToLower(searchTerm))
  }

  /** `a` can be obtained from `b` by deleting elements, keeping the order of the rest. */
  ghost predicate IsSubsequence<T>(a: seq<T>, b: seq<T>)
    decreases |b|
  {
    if a == [] then true
    else if b == [] then false
    else if a[0] == b[0] then IsSubsequence(a[1..], b[1..])
    else IsSubsequence(a, b[1..])
  }

  /** `filteredRecordings`: the recordings whose lower-cased id contains the lower-cased term,
      each as often as in the list. */
  function FilterRecordings(recs: seq<Recording>, searchTerm: string): (r: seq<Recording>)
    ensures forall x :: multiset(r)[x] == if MatchesSearch(x, searchTerm) then multiset(recs)[x] else 0
  {
    if recs == [] then []
    else
      assert recs == [recs[0]] + recs[1..];
      var rest := FilterRecordings(recs[1..], searchTerm);
      if MatchesSearch(recs[0], searchTerm) then [recs[0]] + rest else rest
  }

  /** The filter keeps the recordings in their order. */
  lemma {:induction false} FilterKeepsOrder(recs: seq<Recording>, searchTerm: string)
    ensures IsSubsequence(FilterRecordings(recs, searchTerm), recs)
  {
    if recs != [] {
      FilterKeepsOrder(recs[1..], searchTerm);
      var rest := FilterRecordings(recs[1..], searchTerm);
      if !MatchesSearch(recs[0], searchTerm) && rest != [] {
        assert rest[0] in multiset(rest);
        assert rest[0] != recs[0];
      }
    }
  }

  /** An empty search term keeps every recording. */
  lemma {:induction false} FilterEmptyTerm(recs: seq<Recording>)
    ensures FilterRecordings(recs, "") == recs
  {
    if recs != [] {
      ContainsEmpty(ToLower(recs[0].id));
      assert ToLower("") == "";
      FilterEmptyTerm(recs[1..]);
    }
  }
}
