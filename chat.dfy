/** The language-model chat call, reduced to its reply. The call itself is
    external; the model receives what it returned. */
module Chat {
  import opened Values

  datatype Message = Message(content: Option<string>)

  /** `message` is None when the choice carries no `message` attribute. */
  datatype Choice = Choice(message: Option<Message>)

  /** `Failed`: the API call raised; otherwise the list of choices. */
  datatype Reply = Failed | Answered(choices: seq<Choice>)

  /** Text extraction of the models/ package: no choices, or a first choice
      without a message, yields None instead of failing. */
  function GuardedContent(reply: Reply): (r: Result<Option<string>>)
    ensures r.Err? <==> reply.Failed?
    ensures r.Ok? && r.value.Some? ==>
      |reply.choices| > 0 && reply.choices[0].message == Some(Message(r.value))
    ensures reply.Answered? && (reply.choices == [] || reply.choices[0].message.None?) ==>
      r == Ok(None)
  {
    match reply
    case Failed => Err(ApiError)
    case Answered(choices) =>
      if choices == [] || choices[0].message.None? then Ok(None)
      else Ok(choices[0].message.value.content)
  }

  /** Text extraction of application.py: no choices yields None, but a first
      choice without a message fails on the attribute access. */
  function FirstContent(reply: Reply): (r: Result<Option<string>>)
    ensures reply.Answered? && reply.choices == [] ==> r == Ok(None)
    ensures r.Err? <==> reply.Failed? || (reply.choices != [] && reply.choices[0].message.None?)
    ensures r.Ok? && r.value.Some? ==>
      reply.choices != [] && reply.choices[0].message == Some(Message(r.value))
  {
    match reply
    case Failed => Err(ApiError)
    case Answered(choices) =>
      if choices == [] then Ok(None)
      else if choices[0].message.None? then Err(AttributeError)
      else Ok(choices[0].message.value.content)
  }
}
