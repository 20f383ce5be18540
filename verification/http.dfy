/**
 * The vocabulary the route handlers share: the process environment, replies of
 * external calls, the trace of external effects a handler performs, and the HTTP
 * responses it sends.
 */
module Http {
  import opened Common
  import opened Json

  /** `process.env`: a variable is either absent or holds a string. */
  type Env = map<string, string>

  function EnvVar(env: Env, name: string): Option<string> {
    if name in env then Some(env[name]) else None
  }

  /** `process.env[name]` is truthy. */
  predicate EnvSet(env: Env, name: string) {
    Truthy(EnvVar(env, name))
  }

  /** `process.env[name] || fallback`. */
  function EnvOr(env: Env, name: string, fallback: string): string {
    Or(EnvVar(env, name), fallback)
  }

  /**
   * The precedence chain used for persona and sentiment:
   * `explicit || process.env[envName] || fallback`.
   */
  function Resolve(explicit: Option<string>, env: Env, envName: string, fallback: string): (r: string)
    ensures fallback != "" ==> r != ""
    ensures Truthy(explicit) ==> r == explicit.value
    ensures !Truthy(explicit) && EnvSet(env, envName) ==> r == env[envName]
    ensures !Truthy(explicit) && !EnvSet(env, envName) ==> r == fallback
  {
    Or(explicit, EnvOr(env, envName, fallback))
  }

  /** The outcome of an awaited external call: it threw, or it returned a value. */
  datatype Reply<+T> = Threw(message: string) | Returned(value: T)

  /**
   * The chat-completion service: the reply to the n-th call of a request (counting
   * from 0) given its prompt. A returned value is
   * `completion.choices?.[0]?.message?.content`, None when absent.
   */
  type ChatOracle = (nat, string) -> Reply<Option<string>>

  /** `completion.choices?.[0]?.message?.content || ""`. */
  function MessageText(content: Option<string>): (r: string)
    ensures content.Some? ==> r == content.value
    ensures content.None? ==> r == ""
  {
    Or(content, "")
  }

  /** The body shared by /create-content and /v1/content/:id/post-content. */
  datatype ContentRequest = ContentRequest(prompt: Option<string>, persona: Option<string>, sentiment: Option<string>)

  /** One entry of the image listing. */
  datatype ImageEntry = ImageEntry(originalUrl: string, thumbnailUrl: string, folder: string)

  /** The parameters of a ListObjectsV2 command. */
  datatype ListParams = ListParams(
    bucket: Option<string>,
    prefix: string,
    delimiter: Option<string>,
    maxKeys: int,
    continuationToken: Option<string>)

  /** The parameters of a PutObject command. */
  datatype PutRequest = PutRequest(bucket: Option<string>, key: string, body: Bytes, contentType: string, acl: string)

  /** An external call a handler makes, in the order it makes them. */
  datatype Effect =
    | Chat(model: string, prompt: string)
    | GenerateImage(prompt: string, size: string, quality: string, imageModel: string)
    | Download(url: string)
    | PutObject(put: PutRequest)
    | ListObjects(params: ListParams)
    | CreateContainer(accountId: string, imageUrl: string, caption: string)
    | CheckStatus(containerId: string)
    | UpdateCaption(containerId: string, caption: string)
    | PublishContainer(accountId: string, creationId: string)

  datatype Payload =
    | Ideas(ideas: seq<Json>)
    | Error(error: string)
    | ErrorDetails(error: string, details: string)
    | MissingField(error: string, received: ContentRequest)
    | Content(message: string, hashtags: Json)
    | ContentWithImagePrompt(message: string, hashtags: Json, imagePrompt: string)
    | Image(originalUrl: string, thumbnailUrl: string, folder: string)
    | Published(success: bool, message: string, postId: string, permalink: string)
    | PublishFailed(success: bool, error: string, details: string)
    | ImageList(images: seq<ImageEntry>, nextCursor: Option<string>, total: int)

  datatype Response = Response(status: int, body: Payload)

  /** What a handler sends, and the external calls it made before sending it. */
  datatype Handled = Handled(response: Response, effects: seq<Effect>)

  const OpenAiKey := "OPENAI_API_KEY"
  const MissingOpenAiKey := "OPENAI_API_KEY not set in environment."
  const DefaultPersonaVar := "DEFAULT_PERSONA"
  const DefaultSentimentVar := "DEFAULT_SENTIMENT"

  function NotFound(id: string): Response {
    Response(404, Error("Intellectual property '" + id + "' not found"))
  }
}
