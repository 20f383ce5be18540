/**
 * POST /v1/content/:id/post-content: a post, its hashtags and an image prompt, each
 * from its own model call, the first from the intellectual property's
 * post-content.md template and the third from its post-image.md template.
 */
module PostContent {
  import opened Common
  import opened Json
  import opened Http
  import opened Content
  import Template

  const PostTemplate := "post-content.md"
  const ImageTemplate := "post-image.md"
  const FailedToCreate := "Failed to create content"

  function PostValues(prompt: string, persona: string, sentiment: string): seq<(string, Template.Value)> {
    [("prompt", Template.Text(prompt)), ("persona", Template.Text(persona)), ("sentiment", Template.Text(sentiment))]
  }

  function ImageValues(message: string): seq<(string, Template.Value)> {
    [("postText", Template.Text(message))]
  }

  function Failed(details: string): Response {
    Response(500, ErrorDetails(FailedToCreate, details))
  }

  /**
   * The third step, once post and hashtags are in: render post-image.md from the
   * post, ask for the image prompt, and send all three.
   */
  function WithImagePrompt(id: string, model: string, templates: Template.TemplateStore, chat: ChatOracle,
                           message: string, hashtags: Json, effects: seq<Effect>): (h: Handled)
    ensures templates(id, ImageTemplate).None? ==>
      h == Handled(Failed("Template " + ImageTemplate + " not found for IP " + id), effects)
    ensures templates(id, ImageTemplate).Some? ==>
      var imagePrompt := Template.Substituted(templates(id, ImageTemplate).value, ImageValues(message));
      h.effects == effects + [Chat(model, imagePrompt)]
      && (chat(2, imagePrompt).Threw? ==> h.response == Failed(chat(2, imagePrompt).message))
      && (chat(2, imagePrompt).Returned? ==>
            h.response == Response(200, ContentWithImagePrompt(message, hashtags, MessageText(chat(2, imagePrompt).value))))
  {
    match Template.RenderedTemplate(templates, id, ImageTemplate, ImageValues(message))
    case Err(e) => Handled(Failed(e), effects)
    case Ok(imagePrompt) =>
      var effects' := effects + [Chat(model, imagePrompt)];
      match chat(2, imagePrompt)
      case Threw(m) => Handled(Failed(m), effects')
      case Returned(content) => Handled(Response(200, ContentWithImagePrompt(message, hashtags, MessageText(content))), effects')
  }

  /**
   * The handler. An unknown id is a 404 before the body is read; then defaults; then
   * a missing prompt is a 400; a missing post-content.md is a 500 before the key is
   * looked at; a missing key is a 500 with no call. Every later failure, a thrown
   * call or a missing post-image.md, is a 500 "Failed to create content".
   */
  function Handle(id: string, req: ContentRequest, env: Env, ipExists: string -> bool,
                  templates: Template.TemplateStore, chat: ChatOracle, parse: Parser): (h: Handled)
    ensures !ipExists(id) ==> h == Handled(NotFound(id), [])
    ensures ipExists(id) && !Truthy(req.prompt) ==> h == Handled(MissingPromptResponse(req), [])
    ensures ipExists(id) && Truthy(req.prompt) && templates(id, PostTemplate).None? ==>
      h == Handled(Failed("Template " + PostTemplate + " not found for IP " + id), [])
    ensures ipExists(id) && Truthy(req.prompt) && templates(id, PostTemplate).Some? && !EnvSet(env, OpenAiKey) ==>
      h == Handled(Response(500, Error(MissingOpenAiKey)), [])
    ensures ipExists(id) && Truthy(req.prompt) && templates(id, PostTemplate).Some? && EnvSet(env, OpenAiKey) ==>
      var prompt := Template.Substituted(templates(id, PostTemplate).value,
                                         PostValues(req.prompt.value, ContentPersona(req, env), ContentSentiment(req, env)));
      var d := DraftWithHashtags(ContentModel(env), prompt, chat, parse);
      (d.result.Threw? ==> h == Handled(Failed(d.result.message), d.effects))
      && (d.result.Returned? ==>
            h == WithImagePrompt(id, ContentModel(env), templates, chat, d.result.value.0, d.result.value.1, d.effects))
    ensures h.response.status in {200, 400, 404, 500}
    ensures |h.effects| <= 3
  {
    if !ipExists(id) then Handled(NotFound(id), [])
    else
      var persona := ContentPersona(req, env);
      var sentiment := ContentSentiment(req, env);
      if !Truthy(req.prompt) then Handled(MissingPromptResponse(req), [])
      else
        match Template.RenderedTemplate(templates, id, PostTemplate, PostValues(req.prompt.value, persona, sentiment))
        case Err(e) => Handled(Failed(e), [])
        case Ok(prompt) =>
          if !EnvSet(env, OpenAiKey) then Handled(Response(500, Error(MissingOpenAiKey)), [])
          else
            var model := ContentModel(env);
            var d := DraftWithHashtags(model, prompt, chat, parse);
            match d.result
            case Threw(m) => Handled(Failed(m), d.effects)
            case Returned((message, hashtags)) => WithImagePrompt(id, model, templates, chat, message, hashtags, d.effects)
  }

  /**
   * A successful reply makes three calls in order, and the hashtag prompt and the
   * image prompt are both built from the `message` that is sent back.
   */
  lemma SuccessDataFlow(id: string, req: ContentRequest, env: Env, ipExists: string -> bool,
                        templates: Template.TemplateStore, chat: ChatOracle, parse: Parser)
    requires Handle(id, req, env, ipExists, templates, chat, parse).response.status == 200
    ensures var h := Handle(id, req, env, ipExists, templates, chat, parse);
      var message := h.response.body.message;
      h.response.body.ContentWithImagePrompt?
      && |h.effects| == 3
      && h.effects[1] == Chat(ContentModel(env), HashtagPrompt(message))
      && templates(id, ImageTemplate).Some?
      && h.effects[2] == Chat(ContentModel(env), Template.Substituted(templates(id, ImageTemplate).value, ImageValues(message)))
      && h.response.body.imagePrompt == MessageText(chat(2, h.effects[2].prompt).value)
  {
  }
}
