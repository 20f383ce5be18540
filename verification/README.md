# peck-strut-ai-content, modelled in Dafny

This project models the request pipelines of the peck-strut-ai-content Fastify
service. These are the routes that write social-media content with a language model,
generate and store images in S3, list stored images and publish a post to Instagram:

- `POST /generate-idea` and `POST /v1/content/:id/create-idea` ask a chat model for
  post ideas. They read the reply tolerantly: as JSON, then as a fenced `json` block,
  then as one headline.
- `POST /create-content` and `POST /v1/content/:id/post-content` ask for a post, then
  for hashtags of that post. The second one then asks for an image prompt built from
  the post.
- `POST /v1/content/:id/content-image` generates an image, then stores the original
  and a thumbnail under a fresh folder.
- `GET /content-image/list` lists one page of folders. It reports a folder only when
  the folder holds both an original and a thumbnail.
- `POST /post-instagram` works in four stages:
  1. It downloads the image to a temporary file.
  2. It creates a media container and polls the container's status at most ten times.
  3. It sets the caption and publishes.
  4. It removes the temporary file on every way out.
- `renderPromptFromTemplate` does `{{key}}` substitution over a template file of an
  intellectual-property folder.
- The S3 helpers (`uploadToS3`, `listImageFolders`, `listImagesInFolder`).

Every external call is an oracle passed in as a function. This covers the chat and
image services, HTTP downloads, the S3 client, the Graph API, image re-encoding,
`JSON.parse`, Handlebars, template files, the clock and random bytes. A handler
returns its HTTP response together with the list of external calls it made, in
order. So "nothing is called before a gate" is stated as an empty call list.

The code is shaped like the source:

- Straight-line handlers are functions.
- The substitution loop, the folder-pairing loop and the status poll are methods with
  `while`/`for` loops. Each is proved equal to a recursive specification, and the
  properties are proved about that specification.
- The Instagram handler is a method over a `Disk` object whose set of files it changes.

Modules, one per source file or shared vocabulary:

- Common, Json, Http: shared vocabulary.
- Template: `routes/v1-content/utils.js` and `routes/content-image/renderPromptFromTemplate.js`.
- Ideas: the idea routes' shared parts.
- GenerateIdea, CreateIdea.
- Content: the content routes' shared parts.
- CreateContent, PostContent.
- S3Service: `services/s3.service.js`.
- ContentImage.
- ListContentImages.
- PostInstagram.

Two behaviours of the code are worth naming:

- A thrown hashtag or image-prompt call aborts the request with a 500. Only the
  hashtag JSON parse is tolerant.
- A failed unlink of the temporary Instagram file is swallowed, and the file stays.

## Model

| member | source | states |
|---|---|---|
| Common.NatToDecimal | routes/v1-content/content-image.route.js:190 | `Date.now()` in text: one or more decimal digits, with no leading zero |
| Common.DecimalRoundTrip | routes/v1-content/content-image.route.js:190 | the decimal rendering of a number reads back as that number |
| Common.IntToDecimal | routes/v1-content/utils.js:34 | `String(n)`: for n >= 0, digits denoting n; for n < 0, a minus sign followed by digits denoting -n |
| Common.Hex | routes/v1-content/content-image.route.js:190 | `toString("hex")` gives two lower-case hexadecimal digits per byte |
| Common.HexRoundTrip | routes/v1-content/content-image.route.js:190 | hexadecimal text decodes back to the bytes it came from |
| Http.Resolve | routes/create-content/create-content.route.js:93-101 | persona and sentiment precedence: the request value, else the environment, else the constant; non-empty when the constant is |
| Http.MessageText | routes/create-content/create-content.route.js:148 | `choices?.[0]?.message?.content \|\| ""`: the content when present, else "" |
| Template.Coerce | routes/v1-content/utils.js:34 | `values[key] \|\| ""`: empty exactly for falsy values; text unchanged; a non-zero number in decimal |
| Template.SubstituteAll | routes/v1-content/utils.js:32-36 | the `for` loop over the keys gives the key-by-key global replacement, in key order |
| Template.ReplaceAll | routes/v1-content/utils.js:34 | `replace(new RegExp("{{key}}", "g"), value)` scanning left to right; its laws are ReplaceAllByItself and the lemmas below |
| Template.ReplaceAllByItself | routes/v1-content/utils.js:34 | replacing a non-empty pattern by itself gives back the text unchanged |
| Template.Substituted | routes/v1-content/utils.js:33-35 | the key loop as a recursive definition; its laws are the lemmas below and SelfValuesUnchanged |
| Template.SelfValuesUnchanged | routes/v1-content/utils.js:33-35 | passes whose values are their own placeholders leave any text unchanged |
| Template.PlaceholderRendersToValue | routes/v1-content/utils.js:33-35 | with plain, distinct keys and brace-free values, a placeholder on its own renders to exactly its coerced value |
| Template.RenderPromptFromTemplate | routes/v1-content/utils.js:27-37 | an error iff the template file is missing, naming template and id; otherwise the rendered file; with no values, the file verbatim |
| Template.RenderFixedTemplate | routes/content-image/renderPromptFromTemplate.js:13-20 | the fixed prompt template rendered by the same loop; with no values it comes back unchanged |
| Template.ReplaceAllAbsent | routes/v1-content/utils.js:34 | where the pattern does not occur, a global replace changes nothing |
| Template.ReplaceAllConcat | routes/v1-content/utils.js:34 | a global replace distributes over a concatenation when no occurrence straddles the seam |
| Template.PlaceholderShape | routes/v1-content/utils.js:34 | `{{key}}` is two braces, a brace-free identifier, two braces |
| Template.ReplaceAllAroundPlaceholder | routes/v1-content/utils.js:33-35 | one pass replaces a placeholder iff it is the pass's own key; the text on either side is replaced independently |
| Template.UnknownPlaceholderSurvives | routes/v1-content/utils.js:33-35 | a placeholder whose name is not a key survives every pass verbatim |
| Template.KnownPlaceholderReplaced | routes/v1-content/utils.js:33-35 | the j-th key's placeholder becomes the j-th value; earlier passes leave it alone and later passes see the value |
| Template.BraceFreeUnchanged | routes/v1-content/utils.js:32-36 | a template without `{` renders to itself, whatever the values |
| Template.ChainedSubstitution | routes/v1-content/utils.js:33-35 | passes are sequential: a value holding a later key's placeholder is substituted again |
| Template.EveryOccurrenceReplaced | routes/v1-content/utils.js:34 | the `g` flag: brace-free pieces separated by any number of placeholders of the key render to the same pieces separated by the value |
| Ideas.CurrentDate | routes/generate-idea/generate-idea.route.js:99 | `split("T")[0]`: the longest prefix without a 'T', followed by a 'T' when shorter than the input |
| Ideas.CountOr | routes/generate-idea/generate-idea.route.js:93 | an absent or zero count becomes 5; otherwise it is kept |
| Ideas.ResolveIdea | routes/generate-idea/generate-idea.route.js:90-99 | every field falls back to its default when falsy; persona and sentiment consult the environment first; every field is non-empty or non-zero |
| Ideas.PlaceholderValues | routes/v1-content/create-idea.route.js:116-123 | the keys platform, topic, count, persona, sentiment and current_date, in that order, each paired with its resolved field; count is passed as a number |
| Ideas.IdeaModel | routes/generate-idea/generate-idea.route.js:119-121 | GENERATE_IDEA_MODEL when set, else the fixed default model; never empty |
| Ideas.Trim | routes/v1-content/create-idea.route.js:192 | `trim()` drops exactly the leading and trailing white space |
| Ideas.TrimUnique | routes/v1-content/create-idea.route.js:192 | white space, a trimmed core and white space trim to that core |
| Ideas.TrimIdempotent | routes/v1-content/create-idea.route.js:192 | trimming twice is trimming once |
| Ideas.FenceMatch | routes/v1-content/create-idea.route.js:189 | the start of the fenced match and of its closer |
| Ideas.FenceMatchSound | routes/generate-idea/generate-idea.route.js:159 | what FenceMatch finds is the leftmost match with the nearest closer, as the lazy regular expression reports |
| Ideas.FenceMatchComplete | routes/generate-idea/generate-idea.route.js:159 | when the regular expression matches, FenceMatch finds that same match |
| Ideas.FenceMatchNone | routes/generate-idea/generate-idea.route.js:159 | FenceMatch finds nothing iff the regular expression matches nowhere |
| Ideas.FenceCapture | routes/generate-idea/generate-idea.route.js:159-160 | `match[1]`; characterized by FenceCaptureIsGroup |
| Ideas.FenceCaptureIsGroup | routes/generate-idea/generate-idea.route.js:159-160 | `match[1]` is the text between the opener and the closer of the regular expression's match, and absent iff it matches nowhere |
| Ideas.ParseIdeas | routes/generate-idea/generate-idea.route.js:146-177 | the reply as JSON (a non-array wrapped), else the trimmed non-empty fenced body as JSON, else `[{headline: content}]` |
| Ideas.FencedReply | routes/generate-idea/generate-idea.route.js:158-166 | a non-JSON reply holding one fenced block yields the ideas parsed from its trimmed body |
| Ideas.AskForIdeas | routes/generate-idea/generate-idea.route.js:130-185 | exactly one chat call; 200 iff it returns, with the parsed ideas; a throw is a 500 carrying the route's failure text and the message |
| Ideas.EmptyReplyIsEmptyHeadline | routes/generate-idea/generate-idea.route.js:144-175 | an absent or empty reply is sent as the single headline "" |
| GenerateIdea.Handle | routes/generate-idea/generate-idea.route.js:89-186 | no OPENAI_API_KEY is a 500 with no call; otherwise one call with the compiled prompt; status is 200 or 500 |
| CreateIdea.IdeaPrompt | routes/v1-content/create-idea.route.js:115-129 | the prompt is the rendered template followed by the fixed structure instruction |
| CreateIdea.IdeaPromptInjective | routes/v1-content/create-idea.route.js:115-129 | the rendered template is recoverable from the prompt |
| CreateIdea.Handle | routes/v1-content/create-idea.route.js:90-217 | unknown id is a 404 before anything else; a missing template is a 500 naming it before the key check; no key is a 500 with no call; otherwise one call |
| CreateIdea.CountPlaceholderRendered | routes/v1-content/create-idea.route.js:106-123 | `{{count}}` renders to the decimal count, which is 5 for an absent or zero count |
| Content.ContentPersona | routes/create-content/create-content.route.js:93-97 | request persona, else DEFAULT_PERSONA, else the farmer persona |
| Content.ContentSentiment | routes/create-content/create-content.route.js:98-101 | request sentiment, else DEFAULT_SENTIMENT, else the cheerful sentiment |
| Content.ContentModel | routes/create-content/create-content.route.js:116 | OPENAI_MODEL_NAME when set, else gpt-3.5-turbo |
| Content.MissingPromptResponse | routes/create-content/create-content.route.js:103-108 | a 400 with "Missing required field: prompt" and the request body handed to `send` |
| Content.HashtagPrompt | routes/create-content/create-content.route.js:151 | the fixed instruction, a "Content:" header, then the post verbatim |
| Content.HashtagPromptRoundTrip | routes/create-content/create-content.route.js:151 | the post is recovered from its hashtag prompt |
| Content.HashtagPromptInjective | routes/create-content/create-content.route.js:151 | distinct posts give distinct hashtag prompts |
| Content.ParseHashtags | routes/create-content/create-content.route.js:171-180 | `JSON.parse(content \|\| "[]")`, with `[]` when the parse fails |
| Content.DraftWithHashtags | routes/create-content/create-content.route.js:135-180 | the post call, then the hashtag call on the post's text; either throw ends the draft with its message |
| CreateContent.Handle | routes/create-content/create-content.route.js:86-190 | a missing prompt is a 400 echoing the body; no key is a 500; a call happens iff both checks pass; a throw is 500 "Failed to contact OpenAI" |
| CreateContent.MessageFlowsToHashtags | routes/create-content/create-content.route.js:148-181 | on success, the message sent back is the first reply, and the hashtag call used exactly it |
| PostContent.WithImagePrompt | routes/v1-content/post-content.route.js:186-208 | post-image.md rendered from the post; a missing template or a throw is a 500; otherwise all three results are sent |
| PostContent.Handle | routes/v1-content/post-content.route.js:86-218 | 404, then 400, then a missing post-content.md as 500, then the key check, then the draft and the third step; at most three calls |
| PostContent.SuccessDataFlow | routes/v1-content/post-content.route.js:156-208 | on success, three calls in order; the hashtag and image prompts are both built from the returned message |
| S3Service.ObjectUrl | services/s3.service.js:28 | bucket-and-region prefix followed by the key; an unset bucket or region prints "undefined" |
| S3Service.ObjectUrlInjective | services/s3.service.js:28 | within one bucket and region, distinct keys give distinct URLs |
| S3Service.PutCommand | services/s3.service.js:17-27 | the command carries bucket, key, body and type; the ACL defaults to public-read |
| S3Service.UploadToS3 | services/s3.service.js:17-29 | a failure propagates; success returns the URL built from bucket, region and key, never from the reply |
| S3Service.FolderListParams | services/s3.service.js:31-39 | delimiter "/", the limit as MaxKeys, and a continuation token iff the cursor is truthy |
| S3Service.PageOf | services/s3.service.js:42-46 | folders are the common prefixes or []; nextCursor only when truncated; total is KeyCount or 0 |
| S3Service.ListImageFolders | services/s3.service.js:31-47 | one listing command; its failure propagates, otherwise its page |
| S3Service.EntriesOf | services/s3.service.js:56-59 | one entry per key, in order, each with its URL |
| S3Service.ListImagesInFolder | services/s3.service.js:49-60 | the folder's objects in order with their URLs, or none without Contents; failure propagates |
| ContentImage.SizeFor | routes/v1-content/content-image.route.js:154-159 | exactly square, portrait and landscape have dimensions, each its own |
| ContentImage.SizeForInjective | routes/v1-content/content-image.route.js:154-159 | different sizes map to different dimensions |
| ContentImage.PromptValues | routes/v1-content/content-image.route.js:135-141 | the keys subject, style, lighting, mood and resolution, in that order; each is the request's value when truthy, else subject the message, style "Fun cartoonish", lighting "natural lighting", mood "warm and inviting", resolution "high resolution" |
| ContentImage.FolderName | routes/v1-content/content-image.route.js:190 | `v1-content-<id>-` … `-<hex of the random bytes>` |
| ContentImage.FolderNameShape | routes/v1-content/content-image.route.js:190-191 | with 8 random bytes, the folder ends in 16 hexadecimal digits and never in "/" |
| ContentImage.FolderNameDistinct | routes/v1-content/content-image.route.js:190 | the same id at another millisecond or with other random bytes gets another folder |
| ContentImage.Produce | routes/v1-content/content-image.route.js:174-229 | generate, download the generated URL, upload the downloaded bytes, render their thumbnail, upload it; a throw at any stage is 500 "Failed to generate image" with its message and the calls made so far; 200 iff all five return, with both URLs and the folder |
| ContentImage.Handle | routes/v1-content/content-image.route.js:107-229 | 404, 400 for no message, 500 for a missing template, 500 for no image key (before the size), 400 for a bad size, with no call before these |
| ContentImage.AbsentSizeIsSquare | routes/v1-content/content-image.route.js:116-159 | an absent size generates a 1024x1024 image |
| ListContentImages.FindSuffix | routes/content-image/list-content-images.route.js:87-88 | the first entry whose key has the suffix, or none has it |
| ListContentImages.HasS3Credentials | routes/content-image/list-content-images.route.js:64-68 | the credential gate: all four AWS variables truthy; the bucket and region are then set |
| ListContentImages.StripTrailingSlash | routes/content-image/list-content-images.route.js:93 | one trailing "/" removed, if there is one |
| ListContentImages.Paired | routes/content-image/list-content-images.route.js:86-95 | an entry iff some key ends in original.png and some in thumbnail.png, with the first such URLs |
| ListContentImages.Collect | routes/content-image/list-content-images.route.js:84-96 | at most one listing per folder; on success, exactly one per folder |
| ListContentImages.CollectStopsAtFailure | routes/content-image/list-content-images.route.js:84-96 | after a failed listing, no further folder is looked at |
| ListContentImages.PairImages | routes/content-image/list-content-images.route.js:84-96 | the `for…of` loop computes Collect |
| ListContentImages.CollectListsInOrder | routes/content-image/list-content-images.route.js:85-86 | the listings are of the folders, in folder order |
| ListContentImages.CollectSucceeds | routes/content-image/list-content-images.route.js:84-96 | the loop succeeds iff every folder's listing succeeds |
| ListContentImages.CollectAppend | routes/content-image/list-content-images.route.js:84-96 | the entries of two folder lists in sequence are the entries of each, concatenated in order |
| ListContentImages.CollectExactlyPaired | routes/content-image/list-content-images.route.js:85-95 | every folder with both files contributes its entry, and every entry comes from such a folder |
| ListContentImages.ListResponse | routes/content-image/list-content-images.route.js:62-110 | no credentials is a 500 with no call; the folder page is listed first, then every folder until one fails; a throw from either is 500 "Failed to list S3 images" with its message; with credentials, 200 iff the page and every listing return, carrying the paired images with nextCursor and total unchanged |
| ListContentImages.Handle | routes/content-image/list-content-images.route.js:62-110 | the handler computes ListResponse |
| PostInstagram.MissingFrom | routes/post-instagram/post-instagram.route.js:236 | a name is listed iff it is required and its variable is unset or empty; never more names than were required |
| PostInstagram.MissingFromNoRepeats | routes/post-instagram/post-instagram.route.js:236 | when no name is required twice, no missing name is listed twice |
| PostInstagram.MissingFromAppend | routes/post-instagram/post-instagram.route.js:236 | `filter` keeps order: filtering a concatenation is the concatenation of the filtered parts |
| PostInstagram.MissingVarsListed | routes/post-instagram/post-instagram.route.js:231-243 | in all four cases, exactly the unset variables are listed, the token before the account; one missing variable is reported alone |
| PostInstagram.MissingVars | routes/post-instagram/post-instagram.route.js:231-237 | none is missing iff both Instagram variables are set |
| PostInstagram.MissingBothInOrder | routes/post-instagram/post-instagram.route.js:231-243 | with both missing, the details list the token, then the account, joined by ", " |
| PostInstagram.TempPath | routes/post-instagram/post-instagram.route.js:35 | `<tempDir>/instagram_<ms>.jpg` |
| PostInstagram.TempPathDistinct | routes/post-instagram/post-instagram.route.js:35 | different milliseconds give different temporary files |
| PostInstagram.Downloaded | routes/post-instagram/post-instagram.route.js:17-54 | fetch, re-encode, write; the path is returned iff all three succeed; a failure of any of them is "Failed to download image: " followed by its message |
| PostInstagram.DownloadImage | routes/post-instagram/post-instagram.route.js:17-54 | computes Downloaded; the file is on disk afterwards iff the download succeeded |
| PostInstagram.PollFrom | routes/post-instagram/post-instagram.route.js:90-106 | the poll from check k: every check before the last answered IN_PROGRESS; the last is IN_PROGRESS only as the tenth |
| PostInstagram.Poll | routes/post-instagram/post-instagram.route.js:86-106 | from the IN_PROGRESS start: one to ten checks; the outcome is the last reply |
| PostInstagram.PollStopsAtFirstSettled | routes/post-instagram/post-instagram.route.js:90-106 | the number of checks is the first reply other than IN_PROGRESS, or ten |
| PostInstagram.PollStatus | routes/post-instagram/post-instagram.route.js:86-106 | the `while` loop with its attempt counter computes Poll, one status request per attempt |
| PostInstagram.Uploaded | routes/post-instagram/post-instagram.route.js:61-117 | credentials, then the container, then the poll; the container id iff the last status is FINISHED; a thrown call is "Failed to upload to Instagram: " and its message; any other settled status s is that prefix, "Media processing failed with status: " and s |
| PostInstagram.StillInProgressFails | routes/post-instagram/post-instagram.route.js:86-110 | ten IN_PROGRESS replies fail with "Media processing failed with status: IN_PROGRESS" after ten checks |
| PostInstagram.UploadImageToInstagram | routes/post-instagram/post-instagram.route.js:61-117 | the method computes Uploaded |
| PostInstagram.Permalink | routes/post-instagram/post-instagram.route.js:150-151 | `https://www.instagram.com/p/<postId>/` |
| PostInstagram.PermalinkRoundTrip | routes/post-instagram/post-instagram.route.js:151 | the post id is recovered from its permalink |
| PostInstagram.PublishToInstagram | routes/post-instagram/post-instagram.route.js:125-163 | caption update, then publication; the post id comes from the API and the permalink from the id; either call's failure is "Failed to publish to Instagram: " and its message |
| PostInstagram.Attempt | routes/post-instagram/post-instagram.route.js:249-271 | download first; the first stage that fails ends it with 500 "Failed to post to Instagram" whose details are that stage's message; 200 iff all three stages return, with the post id and its permalink |
| PostInstagram.CleanedUp | routes/post-instagram/post-instagram.route.js:272-281 | the `finally` block: only the temporary file may go, and it stays iff it existed and its unlink threw |
| PostInstagram.PostToInstagram | routes/post-instagram/post-instagram.route.js:222-283 | missing credentials give a 500 listing them, with no call and no file change; otherwise the attempt |
| PostInstagram.Handle | routes/post-instagram/post-instagram.route.js:222-283 | the handler's response and remaining files are those of PostToInstagram |
| PostInstagram.TempFileCleanedUp | routes/post-instagram/post-instagram.route.js:246-281 | no other file is touched; the temporary file is gone afterwards unless its removal failed |
| PostInstagram.PublishedTrace | routes/post-instagram/post-instagram.route.js:249-263 | a published post made every call in order, with one to ten checks, the last answering FINISHED; its permalink is built from its id |
| PostInstagram.FailureNamesItsStage | routes/post-instagram/post-instagram.route.js:265-271 | past the gate, every failure is a 500 whose details begin with the failing stage's prefix |
| PostInstagram.AtMostTenChecks | routes/post-instagram/post-instagram.route.js:88-90 | status checks only occupy positions 2 to 11 of the call list, so there are at most ten |

## Left out

- External services are oracles: the chat and image services, axios downloads, the S3 SDK and the Graph API. Their internal behaviour, retries and time-outs are not modelled.
- `JSON.parse` is an abstract partial function. There is no JSON grammar, and numbers are integers only.
- Handlebars, as used by `/generate-idea` and `/create-content`, is an opaque function of the values. Its conditionals are not visible.
- Image processing with sharp is an oracle on bytes: the 1080×1080 JPEG at quality 90 and the 256×256 PNG thumbnail. Floating-point geometry is not modelled.
- Template.ReplaceAll: keys are assumed to be plain identifiers and values to be free of `$`. A key is interpolated unescaped into a RegExp, and `String.replace` expands `$&` and `$1` in a value. Neither quirk is modelled.
- Common.IntToDecimal: numbers are unbounded integers. JavaScript's `String(count)` switches to exponent notation from 1e21, and integers above 2^53 lose precision. The request schema gives `count` no maximum, so this matters only for such huge counts.
- Template.Coerce: `NaN` and booleans are not among the modelled values.
- ContentImage.SizeFor: a size naming an `Object.prototype` property would read an inherited member of `sizeMap`. Such sizes are treated as unknown.
- Fastify response schemas are not modelled. The 400 schemas of `/create-content` and post-content declare only `error`, so the serializer drops the `received` field that MissingPromptResponse carries.
- Fastify schema validation is not modelled: required fields, types, `format: uri`, `minLength` and `maxLength`. Bodies are modelled as already validated. Absent fields are `None`.
- A missing request body is not modelled. `/create-content` and post-content destructure `request.body` without a fallback and would throw.
- The `fs.watchFile` hot reload of compiled templates is not modelled: the compiled template is a parameter.
- `checkIpExists` and template reads are oracles over the intellectual-property folders. Read errors other than absence are not modelled.
- PostInstagram.Downloaded: a failed `mkdirSync` of the temporary directory is not modelled, and a failed write leaves no file behind.
- Time and randomness are inputs: `Date.now`, `new Date().toISOString()` and `crypto.randomBytes`. The 2-second sleep between status checks is left out: only the number of checks is modelled.
- PostInstagram.Uploaded: a container or post id absent from the API reply, which would print as "undefined", is not modelled. The ids are strings.
- S3Service.PageOf: the JSON difference between an absent and a null `NextContinuationToken` is not kept. Both are `None`.
- The access token is sent with every Graph API call but is not part of the recorded calls.
- Logging, route registration, the server bootstrap and the tests are not part of this model.
