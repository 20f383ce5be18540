/**
 * POST /v1/content/:id/create-idea: ideas from the intellectual property's
 * create-idea.md template followed by a fixed instruction on the reply's shape.
 */
module CreateIdea {
  import opened Common
  import opened Json
  import opened Http
  import opened Ideas
  import Template

  const TemplateName := "create-idea.md"
  const FailedToGenerate := "Failed to generate ideas"

  /** The instruction appended to the rendered template. */
  const StructureSuffix :=
    "\n\nReturn the response as a JSON array with this structure:\n"
    + " ```[{\n"
    + "        \"headline\": \"Compelling hook or title\",\n"
    + "        \"description\": \"Brief description of the content concept and execution\"\n"
    + "    }]\n"
    + " ```"

  /** The prompt: the rendered template, then the suffix. */
  function IdeaPrompt(rendered: string): (r: string)
    ensures EndsWith(r, StructureSuffix) && StartsWith(r, rendered)
    ensures |r| == |rendered| + |StructureSuffix|
  {
    rendered + StructureSuffix
  }

  /** The rendered template is recoverable from the prompt. */
  lemma IdeaPromptInjective(a: string, b: string)
    requires IdeaPrompt(a) == IdeaPrompt(b)
    ensures a == b
  {
    assert a == IdeaPrompt(a)[..|a|];
    assert b == IdeaPrompt(b)[..|b|];
  }

  /**
   * The handler. An unknown id is a 404 before anything else; a missing template is
   * a 500 "Failed to generate ideas" naming it, before the key is looked at; a
   * missing key is a 500 with no call; otherwise one call with the suffixed prompt.
   */
  function Handle(
    id: string, req: IdeaRequest, env: Env, isoNow: string,
    ipExists: string -> bool, templates: Template.TemplateStore, chat: ChatOracle, parse: Parser): (h: Handled)
    ensures !ipExists(id) ==> h == Handled(NotFound(id), [])
    ensures ipExists(id) && templates(id, TemplateName).None? ==>
      h == Handled(Response(500, ErrorDetails(FailedToGenerate, "Template " + TemplateName + " not found for IP " + id)), [])
    ensures ipExists(id) && templates(id, TemplateName).Some? && !EnvSet(env, OpenAiKey) ==>
      h == Handled(Response(500, Error(MissingOpenAiKey)), [])
    ensures ipExists(id) && templates(id, TemplateName).Some? && EnvSet(env, OpenAiKey) ==>
      var rendered := Template.Substituted(templates(id, TemplateName).value, PlaceholderValues(ResolveIdea(req, env, isoNow)));
      h == AskForIdeas(IdeaModel(env), IdeaPrompt(rendered), chat, parse, FailedToGenerate)
    ensures h.response.status in {200, 404, 500}
  {
    if !ipExists(id) then Handled(NotFound(id), [])
    else
      var values := ResolveIdea(req, env, isoNow);
      match Template.RenderedTemplate(templates, id, TemplateName, PlaceholderValues(values))
      case Err(e) => Handled(Response(500, ErrorDetails(FailedToGenerate, e)), [])
      case Ok(rendered) =>
        if !EnvSet(env, OpenAiKey) then Handled(Response(500, Error(MissingOpenAiKey)), [])
        else AskForIdeas(IdeaModel(env), IdeaPrompt(rendered), chat, parse, FailedToGenerate)
  }

  /**
   * The count placeholder: a template "{{count}}" with no other braces renders to
   * the decimal count, five when the request's count is absent or zero.
   */
  lemma CountPlaceholderRendered(req: IdeaRequest, env: Env, isoNow: string)
    ensures var values := PlaceholderValues(ResolveIdea(req, env, isoNow));
      Template.Substituted(Template.Placeholder("count"), values) == Common.IntToDecimal(CountOr(req.count))
  {
    var v := ResolveIdea(req, env, isoNow);
    var values := PlaceholderValues(v);
    assert values[2] == ("count", Template.Number(CountOr(req.count)));
    var c := Template.Coerce(values[2].1);
    assert c == Common.IntToDecimal(CountOr(req.count));
    assert forall i :: 0 <= i < |c| ==> c[i] == '-' || Common.IsDigit(c[i]);
    Template.PlaceholderRendersToValue(values, 2);
  }
}
