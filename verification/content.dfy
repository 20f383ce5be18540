/**
 * What the two content routes share: persona and sentiment defaults, the hashtag
 * prompt built from the first reply, and the tolerant reading of the hashtag reply.
 */
module Content {
  import opened Common
  import opened Json
  import opened Http

  const DefaultContentPersona := "A budding chicken farmer who is excited to leave their suburban life to start a farm"
  const DefaultContentSentiment := "Cheerful, warm and inviting"
  const ContentModelVar := "OPENAI_MODEL_NAME"
  const DefaultContentModel := "gpt-3.5-turbo"
  const MissingPrompt := "Missing required field: prompt"
  const HashtagInstruction := "Given the following social media post content, generate a JSON array of 5-10 relevant and popular hashtags. Only return the array, no explanation."
  const ContentHeader := "\n\nContent:\n"

  /** Persona after defaults: the request's, else DEFAULT_PERSONA, else the farmer persona. */
  function ContentPersona(req: ContentRequest, env: Env): (r: string)
    ensures r != ""
    ensures Truthy(req.persona) ==> r == req.persona.value
    ensures !Truthy(req.persona) && EnvSet(env, DefaultPersonaVar) ==> r == env[DefaultPersonaVar]
    ensures !Truthy(req.persona) && !EnvSet(env, DefaultPersonaVar) ==> r == DefaultContentPersona
  {
    Resolve(req.persona, env, DefaultPersonaVar, DefaultContentPersona)
  }

  /** Sentiment after defaults: the request's, else DEFAULT_SENTIMENT, else the cheerful one. */
  function ContentSentiment(req: ContentRequest, env: Env): (r: string)
    ensures r != ""
    ensures Truthy(req.sentiment) ==> r == req.sentiment.value
    ensures !Truthy(req.sentiment) && EnvSet(env, DefaultSentimentVar) ==> r == env[DefaultSentimentVar]
    ensures !Truthy(req.sentiment) && !EnvSet(env, DefaultSentimentVar) ==> r == DefaultContentSentiment
  {
    Resolve(req.sentiment, env, DefaultSentimentVar, DefaultContentSentiment)
  }

  /** The model the content routes ask. */
  function ContentModel(env: Env): (r: string)
    ensures r != ""
    ensures EnvSet(env, ContentModelVar) ==> r == env[ContentModelVar]
    ensures !EnvSet(env, ContentModelVar) ==> r == DefaultContentModel
  {
    EnvOr(env, ContentModelVar, DefaultContentModel)
  }

  /**
   * The 400 reply to a request without a prompt: the error and, as handed to
   * `send`, the body as received.
   */
  function MissingPromptResponse(req: ContentRequest): (r: Response)
    ensures r.status == 400 && r.body.MissingField?
    ensures r.body.error == MissingPrompt && r.body.received == req
  {
    Response(400, MissingField(MissingPrompt, req))
  }

  /** The second prompt: the fixed instruction, a "Content:" header, the post verbatim. */
  function HashtagPrompt(message: string): (r: string)
    ensures StartsWith(r, HashtagInstruction + ContentHeader)
    ensures EndsWith(r, message)
    ensures |r| == |HashtagInstruction + ContentHeader| + |message|
  {
    HashtagInstruction + ContentHeader + message
  }

  /** The post is recoverable from its hashtag prompt: the part after the header. */
  function PostOfHashtagPrompt(prompt: string): string
    requires StartsWith(prompt, HashtagInstruction + ContentHeader)
  {
    prompt[|HashtagInstruction + ContentHeader|..]
  }

  lemma HashtagPromptRoundTrip(message: string)
    ensures PostOfHashtagPrompt(HashtagPrompt(message)) == message
  {
    var h := HashtagInstruction + ContentHeader;
    assert (h + message)[|h|..] == message;
  }

  /** Distinct posts give distinct hashtag prompts. */
  lemma HashtagPromptInjective(m1: string, m2: string)
    requires HashtagPrompt(m1) == HashtagPrompt(m2)
    ensures m1 == m2
  {
    HashtagPromptRoundTrip(m1);
    HashtagPromptRoundTrip(m2);
  }

  /**
   * `JSON.parse(content || "[]")`, an empty array when it throws: absent or empty
   * content is parsed as "[]", and a reply that is not JSON never fails the request.
   */
  function ParseHashtags(content: Option<string>, parse: Parser): (r: Json)
    ensures parse(Or(content, "[]")).Some? ==> r == parse(Or(content, "[]")).value
    ensures parse(Or(content, "[]")).None? ==> r == Array([])
    ensures !Truthy(content) ==> r == (if parse("[]").Some? then parse("[]").value else Array([]))
  {
    match parse(Or(content, "[]"))
    case Some(v) => v
    case None => Array([])
  }

  /** The first two calls of both content routes: the post, then its hashtags. */
  datatype Drafted = Drafted(result: Reply<(string, Json)>, effects: seq<Effect>)

  /**
   * Ask for the post with `prompt`, then for hashtags of the post. Either call that
   * throws ends the draft with its message; the hashtag call sees the post verbatim.
   */
  function DraftWithHashtags(model: string, prompt: string, chat: ChatOracle, parse: Parser): (d: Drafted)
    ensures 1 <= |d.effects| <= 2 && d.effects[0] == Chat(model, prompt)
    ensures chat(0, prompt).Threw? ==> d == Drafted(Threw(chat(0, prompt).message), [Chat(model, prompt)])
    ensures chat(0, prompt).Returned? ==>
      var message := MessageText(chat(0, prompt).value);
      d.effects == [Chat(model, prompt), Chat(model, HashtagPrompt(message))]
      && (chat(1, HashtagPrompt(message)).Threw? ==> d.result == Threw(chat(1, HashtagPrompt(message)).message))
      && (chat(1, HashtagPrompt(message)).Returned? ==>
            d.result == Returned((message, ParseHashtags(chat(1, HashtagPrompt(message)).value, parse))))
  {
    match chat(0, prompt)
    case Threw(m) => Drafted(Threw(m), [Chat(model, prompt)])
    case Returned(content) =>
      var message := MessageText(content);
      var hashtagPrompt := HashtagPrompt(message);
      var effects := [Chat(model, prompt), Chat(model, hashtagPrompt)];
      match chat(1, hashtagPrompt)
      case Threw(m) => Drafted(Threw(m), effects)
      case Returned(tags) => Drafted(Returned((message, ParseHashtags(tags, parse))), effects)
  }
}
