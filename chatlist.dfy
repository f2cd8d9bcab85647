/** The page's displayed conversation and the list operations of its send protocol. */
module ChatList {
  import opened Actions

  /** `prev.map((msg) => msg.id === tempId ? saved : msg)`: every entry carrying the
      temporary id is replaced by the persisted copy. */
  function ReplaceById(msgs: seq<ChatMessage>, tempId: string, saved: ChatMessage): (r: seq<ChatMessage>)
    ensures |r| == |msgs|
    ensures forall i :: 0 <= i < |msgs| ==> r[i] == if msgs[i].id == tempId then saved else msgs[i]
  {
    if msgs == [] then []
    else [if msgs[0].id == tempId then saved else msgs[0]] + ReplaceById(msgs[1..], tempId, saved)
  }

  /** No entry of `msgs` carries `id`. */
  predicate IdAbsent(msgs: seq<ChatMessage>, id: string)
  {
    forall i :: 0 <= i < |msgs| ==> msgs[i].id != id
  }

  /** After the optimistic append, replacing by the temporary id puts the persisted copy in
      the temporary entry's place and leaves every earlier entry as it was, provided no
      earlier entry carried that id. */
  lemma {:induction false} OptimisticReplace(prev: seq<ChatMessage>, temp: ChatMessage, saved: ChatMessage)
    requires IdAbsent(prev, temp.id)
    ensures ReplaceById(prev + [temp], temp.id, saved) == prev + [saved]
  {
    var r := ReplaceById(prev + [temp], temp.id, saved);
    forall i | 0 <= i < |prev| + 1 ensures r[i] == (prev + [saved])[i] {
      if i < |prev| { assert (prev + [temp])[i] == prev[i]; }
    }
  }

  /** `messages.map(({ role, content }) => ({ role, content }))`. */
  function ToHistory(msgs: seq<ChatMessage>): (h: seq<ChatTurn>)
    ensures |h| == |msgs|
    ensures forall i :: 0 <= i < |msgs| ==> h[i] == ChatTurn(RoleName(msgs[i].role), msgs[i].content)
  {
    if msgs == [] then [] else [ChatTurn(RoleName(msgs[0].role), msgs[0].content)] + ToHistory(msgs[1..])
  }

  /** The history of a list with one more message is the old history with that turn added. */
  lemma {:induction false} ToHistoryAppend(msgs: seq<ChatMessage>, m: ChatMessage)
    ensures ToHistory(msgs + [m]) == ToHistory(msgs) + [ChatTurn(RoleName(m.role), m.content)]
  {
    var l := ToHistory(msgs + [m]);
    var rr := ToHistory(msgs) + [ChatTurn(RoleName(m.role), m.content)];
    forall i | 0 <= i < |l| ensures l[i] == rr[i] {
      if i < |msgs| { assert (msgs + [m])[i] == msgs[i]; }
    }
  }
}
