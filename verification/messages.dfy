/** The canonical sample format: a sample is a list of messages, each with a role and a
    content; assistant messages may carry a `hidden` flag. */
module Messages {
  import opened Wrappers
  import opened JsonValues

  datatype Message = Message(role: string, content: Json, hidden: Option<bool>)

  type Sample = seq<Message>

  /** The roles whose content is a list of tool calls to be scored. */
  predicate IsToolCallRole(role: string) {
    role == "tool_call" || role == "tool_call_ground_truth"
  }

  /** The position of the last message with the given role. */
  function LastIndex(msgs: seq<Message>, role: string): (r: Option<nat>)
    ensures r.None? <==> forall i :: 0 <= i < |msgs| ==> msgs[i].role != role
    ensures r.Some? ==> r.value < |msgs| && msgs[r.value].role == role
                        && forall j :: r.value < j < |msgs| ==> msgs[j].role != role
  {
    if |msgs| == 0 then None
    else if msgs[|msgs| - 1].role == role then Some(|msgs| - 1)
    else LastIndex(msgs[..|msgs| - 1], role)
  }
}
