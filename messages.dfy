/**
 * A conversation turn as the agents see it: a dictionary with a "role" and a
 * "content" key, either of which may be missing.
 */
module Messages {
  import opened Wrappers

  datatype Message = Message(role: Option<string>, content: Option<string>)

  /** Position of the last turn whose role is `role`, scanning from the end. */
  function LastIndexWithRole(context: seq<Message>, role: string): (r: Option<nat>)
    ensures r.Some? ==> r.value < |context| && context[r.value].role == Some(role)
    ensures r.Some? ==> forall j :: r.value < j < |context| ==> context[j].role != Some(role)
    ensures r.None? <==> forall j :: 0 <= j < |context| ==> context[j].role != Some(role)
  {
    if context == [] then None
    else if context[|context| - 1].role == Some(role) then Some(|context| - 1)
    else LastIndexWithRole(context[..|context| - 1], role)
  }
}
