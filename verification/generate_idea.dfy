/**
 * POST /generate-idea: ideas from a prompt compiled from the route's own Handlebars
 * template, without an intellectual-property folder.
 */
module GenerateIdea {
  import opened Common
  import opened Json
  import opened Http
  import opened Ideas

  const FailedToContact := "Failed to contact OpenAI"

  /** The Handlebars template compiled at start-up, applied to the resolved values. */
  type Compiled = IdeaValues -> string

  /**
   * The handler. Defaults come first; with no OPENAI_API_KEY the reply is a 500 and
   * the model is never called; otherwise exactly one call is made with the compiled
   * prompt and the reply is read by ParseIdeas.
   */
  function Handle(req: IdeaRequest, env: Env, isoNow: string, compiled: Compiled, chat: ChatOracle, parse: Parser): (h: Handled)
    ensures !EnvSet(env, OpenAiKey) ==> h == Handled(Response(500, Error(MissingOpenAiKey)), [])
    ensures EnvSet(env, OpenAiKey) ==>
      h == AskForIdeas(IdeaModel(env), compiled(ResolveIdea(req, env, isoNow)), chat, parse, FailedToContact)
    ensures h.response.status in {200, 500}
  {
    var values := ResolveIdea(req, env, isoNow);
    var prompt := compiled(values);
    if !EnvSet(env, OpenAiKey) then Handled(Response(500, Error(MissingOpenAiKey)), [])
    else AskForIdeas(IdeaModel(env), prompt, chat, parse, FailedToContact)
  }
}
