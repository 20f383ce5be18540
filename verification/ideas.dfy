/**
 * What the two idea routes share: the defaults applied to an idea request, and the
 * reading of the model's reply as a list of ideas (JSON first, then a fenced
 * ```json block, then the raw text as a single headline).
 */
module Ideas {
  import opened Common
  import opened Json
  import opened Http
  import Template

  /** The body of an idea request; a missing body has every field absent. */
  datatype IdeaRequest = IdeaRequest(
    platform: Option<string>,
    topic: Option<string>,
    count: Option<int>,
    persona: Option<string>,
    sentiment: Option<string>)

  /** The values an idea prompt is rendered from, after defaults. */
  datatype IdeaValues = IdeaValues(
    platform: string,
    topic: string,
    count: int,
    persona: string,
    sentiment: string,
    currentDate: string)

  const DefaultPlatform := "Instagram"
  const DefaultTopic := "general interest"
  const DefaultCount := 5
  const DefaultIdeaPersona := "A creative social media strategist"
  const DefaultIdeaSentiment := "Upbeat and engaging"
  const IdeaModelVar := "GENERATE_IDEA_MODEL"
  const DefaultIdeaModel := "deepseek/deepseek-chat-v3-0324:free"

  /** `new Date().toISOString().split("T")[0]`: the text before the first 'T'. */
  function CurrentDate(iso: string): (r: string)
    ensures StartsWith(iso, r)
    ensures forall i :: 0 <= i < |r| ==> r[i] != 'T'
    ensures |r| < |iso| ==> iso[|r|] == 'T'
  {
    if iso == [] || iso[0] == 'T' then "" else [iso[0]] + CurrentDate(iso[1..])
  }

  /** `if (!count) count = 5`: zero or absent counts become five. */
  function CountOr(count: Option<int>): (r: int)
    ensures r != 0
    ensures count.Some? && count.value != 0 ==> r == count.value
    ensures count.None? || count.value == 0 ==> r == DefaultCount
  {
    if count.Some? && count.value != 0 then count.value else DefaultCount
  }

  /**
   * The defaults of both idea routes: every field is replaced by its default when
   * falsy, and persona and sentiment consult the environment before their constants.
   */
  function ResolveIdea(req: IdeaRequest, env: Env, isoNow: string): (r: IdeaValues)
    ensures r.platform != "" && r.topic != "" && r.count != 0 && r.persona != "" && r.sentiment != ""
    ensures r.platform == Or(req.platform, DefaultPlatform)
    ensures r.topic == Or(req.topic, DefaultTopic)
    ensures r.count == CountOr(req.count)
    ensures r.persona == Resolve(req.persona, env, DefaultPersonaVar, DefaultIdeaPersona)
    ensures r.sentiment == Resolve(req.sentiment, env, DefaultSentimentVar, DefaultIdeaSentiment)
    ensures r.currentDate == CurrentDate(isoNow)
  {
    IdeaValues(
      Or(req.platform, DefaultPlatform),
      Or(req.topic, DefaultTopic),
      CountOr(req.count),
      Resolve(req.persona, env, DefaultPersonaVar, DefaultIdeaPersona),
      Resolve(req.sentiment, env, DefaultSentimentVar, DefaultIdeaSentiment),
      CurrentDate(isoNow))
  }

  /** The values object handed to the placeholder renderer, keys in source order. */
  function PlaceholderValues(v: IdeaValues): (r: seq<(string, Template.Value)>)
    ensures Template.PlainKeys(r) && Template.DistinctKeys(r)
    ensures |r| == 6
    ensures r[0] == ("platform", Template.Text(v.platform))
    ensures r[1] == ("topic", Template.Text(v.topic))
    ensures r[2] == ("count", Template.Number(v.count))
    ensures r[3] == ("persona", Template.Text(v.persona))
    ensures r[4] == ("sentiment", Template.Text(v.sentiment))
    ensures r[5] == ("current_date", Template.Text(v.currentDate))
  {
    [ ("platform", Template.Text(v.platform)),
      ("topic", Template.Text(v.topic)),
      ("count", Template.Number(v.count)),
      ("persona", Template.Text(v.persona)),
      ("sentiment", Template.Text(v.sentiment)),
      ("current_date", Template.Text(v.currentDate)) ]
  }

  /** The model the idea routes ask. */
  function IdeaModel(env: Env): (r: string)
    ensures r != ""
    ensures EnvSet(env, IdeaModelVar) ==> r == env[IdeaModelVar]
    ensures !EnvSet(env, IdeaModelVar) ==> r == DefaultIdeaModel
  {
    EnvOr(env, IdeaModelVar, DefaultIdeaModel)
  }

  // ------------------------------------------------------------ String.trim

  /** The characters `String.prototype.trim` removes: white space and line terminators. */
  predicate IsJsSpace(c: char) {
    c == '\t' || c == '\n' || c == '\U{000B}' || c == '\U{000C}' || c == '\r' || c == ' '
    || c == '\U{00A0}' || c == '\U{1680}' || ('\U{2000}' <= c <= '\U{200A}')
    || c == '\U{2028}' || c == '\U{2029}' || c == '\U{202F}' || c == '\U{205F}'
    || c == '\U{3000}' || c == '\U{FEFF}'
  }

  predicate AllSpace(s: string) {
    forall i :: 0 <= i < |s| ==> IsJsSpace(s[i])
  }

  /** A text with no white space at either end. */
  predicate Trimmed(s: string) {
    s == [] || (!IsJsSpace(s[0]) && !IsJsSpace(s[|s| - 1]))
  }

  /** The number of white-space characters `s` begins with. */
  function LeadingSpaces(s: string): (n: nat)
    ensures n <= |s|
    ensures forall i :: 0 <= i < n ==> IsJsSpace(s[i])
    ensures n < |s| ==> !IsJsSpace(s[n])
  {
    if s != [] && IsJsSpace(s[0]) then 1 + LeadingSpaces(s[1..]) else 0
  }

  /** The number of white-space characters `s` ends with. */
  function TrailingSpaces(s: string): (n: nat)
    ensures n <= |s|
    ensures forall i :: |s| - n <= i < |s| ==> IsJsSpace(s[i])
    ensures n < |s| ==> !IsJsSpace(s[|s| - n - 1])
  {
    if s != [] && IsJsSpace(s[|s| - 1]) then 1 + TrailingSpaces(s[..|s| - 1]) else 0
  }

  /** `s.trim()`. */
  function Trim(s: string): (r: string)
    ensures Trimmed(r)
  {
    var t := s[LeadingSpaces(s)..];
    t[..|t| - TrailingSpaces(t)]
  }

  /**
   * Trim is characterised by its result: a text made of white space, a trimmed
   * core and white space trims to that core.
   */
  lemma TrimUnique(a: string, m: string, b: string)
    requires AllSpace(a) && AllSpace(b) && Trimmed(m)
    ensures Trim(a + m + b) == m
  {
    var s := a + m + b;
    if m == [] {
      assert s == (a + b) + [];
      LeadingOf(a + b, []);
    } else {
      assert s == a + (m + b);
      LeadingOf(a, m + b);
      assert s[|a|..] == m + b;
      TrailingOf(m, b);
      assert (m + b)[..|m|] == m;
    }
  }

  lemma {:induction false} LeadingOf(a: string, t: string)
    requires AllSpace(a) && (t == [] || !IsJsSpace(t[0]))
    ensures LeadingSpaces(a + t) == |a|
    decreases |a|
  {
    if a != [] {
      assert (a + t)[1..] == a[1..] + t;
      LeadingOf(a[1..], t);
    } else {
      assert a + t == t;
    }
  }

  lemma {:induction false} TrailingOf(t: string, b: string)
    requires AllSpace(b) && (t == [] || !IsJsSpace(t[|t| - 1]))
    ensures TrailingSpaces(t + b) == |b|
    decreases |b|
  {
    if b != [] {
      assert (t + b)[..|t + b| - 1] == t + b[..|b| - 1];
      TrailingOf(t, b[..|b| - 1]);
    } else {
      assert t + b == t;
    }
  }

  /** Trimming twice is trimming once. */
  lemma TrimIdempotent(s: string)
    ensures Trim(Trim(s)) == Trim(s)
  {
    var r := Trim(s);
    TrimUnique([], r, []);
    assert [] + r + [] == r;
  }

  // ---------------------------------------------- the /```json([\s\S]*?)```/i match

  /** "```json" at position i, the four letters in either case. */
  predicate OpenerAt(s: string, i: nat) {
    i + 7 <= |s|
    && s[i] == '`' && s[i + 1] == '`' && s[i + 2] == '`'
    && (s[i + 3] == 'j' || s[i + 3] == 'J')
    && (s[i + 4] == 's' || s[i + 4] == 'S')
    && (s[i + 5] == 'o' || s[i + 5] == 'O')
    && (s[i + 6] == 'n' || s[i + 6] == 'N')
  }

  /** "```" at position j. */
  predicate CloserAt(s: string, j: nat) {
    j + 3 <= |s| && s[j] == '`' && s[j + 1] == '`' && s[j + 2] == '`'
  }

  /** The regular expression can match starting at i: an opener with a closer after it. */
  ghost predicate MatchesAt(s: string, i: nat) {
    OpenerAt(s, i) && exists j: nat :: i + 7 <= j && CloserAt(s, j)
  }

  /**
   * The match `String.prototype.match` reports: the leftmost start at which the
   * expression matches, and, the group being lazy, the nearest closer after it.
   */
  ghost predicate RegexMatch(s: string, i: nat, j: nat) {
    OpenerAt(s, i) && i + 7 <= j && CloserAt(s, j)
    && (forall k: nat :: i + 7 <= k < j ==> !CloserAt(s, k))
    && (forall k: nat :: k < i ==> !MatchesAt(s, k))
  }

  function FirstOpener(s: string, from: nat): (r: Option<nat>)
    ensures r.Some? ==> from <= r.value && OpenerAt(s, r.value)
    ensures r.Some? ==> forall k: nat :: from <= k < r.value ==> !OpenerAt(s, k)
    ensures r.None? ==> forall k: nat :: from <= k ==> !OpenerAt(s, k)
    decreases |s| - from
  {
    if from + 7 > |s| then None
    else if OpenerAt(s, from) then Some(from)
    else FirstOpener(s, from + 1)
  }

  function FirstCloser(s: string, from: nat): (r: Option<nat>)
    ensures r.Some? ==> from <= r.value && CloserAt(s, r.value)
    ensures r.Some? ==> forall k: nat :: from <= k < r.value ==> !CloserAt(s, k)
    ensures r.None? ==> forall k: nat :: from <= k ==> !CloserAt(s, k)
    decreases |s| - from
  {
    if from + 3 > |s| then None
    else if CloserAt(s, from) then Some(from)
    else FirstCloser(s, from + 1)
  }

  /**
   * Where the fenced match begins and where its closer begins. Only the first opener
   * needs trying: a later opener has no closer after it that the first one lacks.
   */
  function FenceMatch(s: string): (r: Option<(nat, nat)>)
    ensures r.Some? ==> r.value.0 + 7 <= r.value.1 <= |s| - 3
  {
    match FirstOpener(s, 0)
    case None => None
    case Some(i) =>
      match FirstCloser(s, i + 7)
      case None => None
      case Some(j) => Some((i, j))
  }

  /** `match[1]` of the fenced match, when there is one. */
  function FenceCapture(s: string): Option<string> {
    match FenceMatch(s)
    case None => None
    case Some((i, j)) => Some(s[i + 7..j])
  }

  /**
   * `match[1]` is the text between the opener and the closer of the match the
   * regular expression reports, and there is none exactly when it matches nowhere.
   */
  lemma FenceCaptureIsGroup(s: string)
    ensures FenceCapture(s).None? <==> forall k: nat :: !MatchesAt(s, k)
    ensures FenceCapture(s).Some? ==>
      exists i: nat, j: nat :: RegexMatch(s, i, j) && FenceCapture(s).value == s[i + 7..j]
  {
    FenceMatchSound(s);
    FenceMatchNone(s);
  }

  /** FenceMatch finds exactly the match the regular expression reports. */
  lemma FenceMatchSound(s: string)
    ensures FenceMatch(s).Some? ==> RegexMatch(s, FenceMatch(s).value.0, FenceMatch(s).value.1)
  {
    if FenceMatch(s).Some? {
      var (i, j) := FenceMatch(s).value;
      forall k: nat | k < i ensures !MatchesAt(s, k) {
        assert !OpenerAt(s, k);
      }
    }
  }

  /** When the regular expression matches, FenceMatch finds that match. */
  lemma FenceMatchComplete(s: string, i: nat, j: nat)
    requires RegexMatch(s, i, j)
    ensures FenceMatch(s) == Some((i, j))
  {
    var o := FirstOpener(s, 0);
    assert o.Some?;
    var i0 := o.value;
    if i0 < i {
      // the first opener has a closer after it: the one that closes the match at i
      OpenerWithCloserMatches(s, i0, j);
      assert false;
    }
    assert i0 == i;
    var c := FirstCloser(s, i + 7);
    assert c.Some?;
    assert c.value == j;
  }

  lemma OpenerWithCloserMatches(s: string, i: nat, j: nat)
    requires OpenerAt(s, i) && i + 7 <= j && CloserAt(s, j)
    ensures MatchesAt(s, i)
  {
  }

  /** The regular expression fails exactly when FenceMatch finds nothing. */
  lemma FenceMatchNone(s: string)
    ensures FenceMatch(s).None? <==> forall k: nat :: !MatchesAt(s, k)
  {
    if FenceMatch(s).None? {
      forall k: nat ensures !MatchesAt(s, k) {
        var o := FirstOpener(s, 0);
        if o.Some? && OpenerAt(s, k) {
          var i0 := o.value;
          assert i0 <= k;
          forall j: nat | k + 7 <= j ensures !CloserAt(s, j) {
            assert i0 + 7 <= j;
          }
        }
      }
    } else {
      FenceMatchSound(s);
      var (i, j) := FenceMatch(s).value;
      assert MatchesAt(s, i) by {
        assert CloserAt(s, j);
      }
    }
  }

  // --------------------------------------------------------- reading the reply

  /** `{ headline: content }`. */
  function Headline(content: string): Json {
    Object([("headline", Str(content))])
  }

  /**
   * The ideas in a reply: the reply parsed as JSON; failing that, the trimmed
   * non-empty capture of a fenced block parsed as JSON; failing that, the reply as
   * the one headline. A parsed value that is not an array is wrapped in one.
   */
  function ParseIdeas(content: string, parse: Parser): (ideas: seq<Json>)
    ensures parse(content).Some? ==> ideas == AsList(parse(content).value)
    ensures parse(content).None? && !Truthy(FenceCapture(content)) ==> ideas == [Headline(content)]
    ensures parse(content).None? && Truthy(FenceCapture(content)) && parse(Trim(FenceCapture(content).value)).None?
      ==> ideas == [Headline(content)]
    ensures parse(content).None? && Truthy(FenceCapture(content)) && parse(Trim(FenceCapture(content).value)).Some?
      ==> ideas == AsList(parse(Trim(FenceCapture(content).value)).value)
  {
    match parse(content)
    case Some(v) => AsList(v)
    case None =>
      var capture := FenceCapture(content);
      if Truthy(capture) then
        match parse(Trim(capture.value))
        case Some(v) => AsList(v)
        case None => [Headline(content)]
      else [Headline(content)]
  }

  predicate NoBacktick(s: string) {
    forall i :: 0 <= i < |s| ==> s[i] != '`'
  }

  /**
   * A reply that is not JSON but holds one fenced block — prose without backticks,
   * "```json", a non-empty body without backticks, "```", anything — yields the
   * ideas parsed from the trimmed body.
   */
  lemma FencedReply(pre: string, tag: string, body: string, post: string, parse: Parser)
    requires NoBacktick(pre) && NoBacktick(body) && body != []
    requires tag == "```json" || tag == "```JSON" || tag == "```Json"
    requires parse(pre + tag + body + "```" + post).None?
    ensures ParseIdeas(pre + tag + body + "```" + post, parse)
         == (match parse(Trim(body)) case Some(v) => AsList(v) case None => [Headline(pre + tag + body + "```" + post)])
  {
    var s := pre + tag + body + "```" + post;
    var i, j := |pre|, |pre| + 7 + |body|;
    assert s[i..i + 7] == tag;
    assert OpenerAt(s, i);
    assert s[j..j + 3] == "```";
    assert CloserAt(s, j);
    forall k: nat | i + 7 <= k < j ensures !CloserAt(s, k) {
      assert s[k] == body[k - i - 7];
    }
    forall k: nat | k < i ensures !MatchesAt(s, k) {
      assert s[k] == pre[k];
    }
    FenceMatchComplete(s, i, j);
    assert s[i + 7..j] == body;
  }

  // ------------------------------------------------------------ the model call

  /**
   * The model call of both idea routes, once the prompt is built and the key is
   * present: one call; a throw becomes a 500 carrying the route's failure text and
   * the thrown message; otherwise the reply is read as ideas and sent with 200.
   */
  function AskForIdeas(model: string, prompt: string, chat: ChatOracle, parse: Parser, failure: string): (h: Handled)
    ensures h.effects == [Chat(model, prompt)]
    ensures h.response.status == 200 <==> chat(0, prompt).Returned?
    ensures chat(0, prompt).Threw? ==> h.response == Response(500, ErrorDetails(failure, chat(0, prompt).message))
    ensures chat(0, prompt).Returned? ==>
      h.response.body == Ideas(ParseIdeas(MessageText(chat(0, prompt).value), parse))
  {
    match chat(0, prompt)
    case Threw(m) => Handled(Response(500, ErrorDetails(failure, m)), [Chat(model, prompt)])
    case Returned(content) => Handled(Response(200, Ideas(ParseIdeas(MessageText(content), parse))), [Chat(model, prompt)])
  }

  /**
   * A reply with no usable content reads as the single headline "": an absent or
   * empty content is "", which does not parse and holds no fenced block.
   */
  lemma EmptyReplyIsEmptyHeadline(model: string, prompt: string, chat: ChatOracle, parse: Parser, failure: string)
    requires chat(0, prompt) == Returned(None) || chat(0, prompt) == Returned(Some(""))
    requires parse("").None?
    ensures AskForIdeas(model, prompt, chat, parse, failure).response == Response(200, Ideas([Headline("")]))
  {
    assert FirstOpener("", 0).None?;
  }
}
