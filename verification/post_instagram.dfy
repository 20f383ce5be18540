/**
 * POST /post-instagram: download an image to a temporary file, create an Instagram
 * media container for it, poll the container's status at most ten times, set the
 * caption and publish; the temporary file is removed on every way out.
 */
module PostInstagram {
  import opened Common
  import opened Http

  const TokenVar := "INSTAGRAM_ACCESS_TOKEN"
  const AccountVar := "INSTAGRAM_BUSINESS_ACCOUNT_ID"
  const RequiredVars := [TokenVar, AccountVar]
  const CredentialsNotConfigured := "Instagram credentials not configured"
  const MissingVarsPrefix := "Missing environment variables: "
  const DownloadPrefix := "Failed to download image: "
  const UploadPrefix := "Failed to upload to Instagram: "
  const PublishPrefix := "Failed to publish to Instagram: "
  const ProcessingFailed := "Media processing failed with status: "
  const PostFailed := "Failed to post to Instagram"
  const PublishedMessage := "Post published successfully"
  const TemporaryCaption := "Temporary caption"
  const PermalinkPrefix := "https://www.instagram.com/p/"
  const InProgress := "IN_PROGRESS"
  const Finished := "FINISHED"
  const MaxAttempts := 10

  /** The replies to the status checks of one container, the k-th check (from 0) at k. */
  type StatusReplies = nat -> Reply<Option<string>>

  /**
   * The outside world of one request: the directory of temporary files, the clock in
   * milliseconds, the image fetch, the JPEG re-encoding, the file write, the Graph
   * API calls (container creation, status checks, caption update, publication;
   * a status reply is `status_code`, None when absent) and the file removal.
   */
  datatype InstagramIo = InstagramIo(
    tempDir: string,
    nowMs: nat,
    fetch: string -> Reply<Bytes>,
    process: Bytes -> Reply<Bytes>,
    write: (string, Bytes) -> Reply<()>,
    createContainer: (string, string, string) -> Reply<string>,
    status: string -> StatusReplies,
    updateCaption: (string, string) -> Reply<()>,
    publish: (string, string) -> Reply<string>,
    unlink: string -> Reply<()>)

  /** The files on disk; the handler adds its temporary file and removes it again. */
  class Disk {
    var files: set<string>

    constructor (files: set<string>)
      ensures this.files == files
    {
      this.files := files;
    }

    predicate Exists(path: string)
      reads this
    {
      path in files
    }
  }

  /** The outcome of one stage and the external calls it made. */
  datatype Staged<T> = Staged(result: Reply<T>, effects: seq<Effect>)

  /** What the handler sends and the files it leaves behind. */
  datatype Run = Run(handled: Handled, files: set<string>)

  // ---------------------------------------------------------------- credentials

  /** `names.filter(n => !process.env[n])`. */
  function MissingFrom(names: seq<string>, env: Env): (r: seq<string>)
    ensures |r| <= |names|
    ensures forall v :: v in r <==> v in names && !EnvSet(env, v)
  {
    if names == [] then []
    else (if EnvSet(env, names[0]) then [] else [names[0]]) + MissingFrom(names[1..], env)
  }

  /** No name occurs twice. */
  predicate NoDuplicates(names: seq<string>) {
    forall i, j :: 0 <= i < j < |names| ==> names[i] != names[j]
  }

  /** Names listed once are reported at most once. */
  lemma {:induction false} MissingFromNoRepeats(names: seq<string>, env: Env)
    requires NoDuplicates(names)
    ensures NoDuplicates(MissingFrom(names, env))
    decreases |names|
  {
    if names != [] {
      var tail := names[1..];
      assert NoDuplicates(tail) by {
        forall i, j | 0 <= i < j < |tail| ensures tail[i] != tail[j] {
          assert tail[i] == names[i + 1] && tail[j] == names[j + 1];
        }
      }
      var rest := MissingFrom(tail, env);
      MissingFromNoRepeats(tail, env);
      assert names[0] !in tail;
      assert names[0] !in rest;
      var r := MissingFrom(names, env);
      if !EnvSet(env, names[0]) {
        assert r == [names[0]] + rest;
        forall i, j | 0 <= i < j < |r| ensures r[i] != r[j] {
          if i == 0 {
            assert r[j] == rest[j - 1] && rest[j - 1] in rest;
          } else {
            assert r[i] == rest[i - 1] && r[j] == rest[j - 1];
          }
        }
      }
    }
  }

  /** `filter` keeps the order of the names: filtering a concatenation filters each part. */
  lemma {:induction false} MissingFromAppend(a: seq<string>, b: seq<string>, env: Env)
    ensures MissingFrom(a + b, env) == MissingFrom(a, env) + MissingFrom(b, env)
    decreases |a|
  {
    if a == [] {
      assert a + b == b;
    } else {
      assert (a + b)[1..] == a[1..] + b;
      MissingFromAppend(a[1..], b, env);
    }
  }

  /** The required variables that are unset or empty; none exactly when both are set. */
  function MissingVars(env: Env): (r: seq<string>)
    ensures r == [] <==> EnvSet(env, TokenVar) && EnvSet(env, AccountVar)
  {
    var r := MissingFrom(RequiredVars, env);
    assert r != [] ==> r[0] in r;
    r
  }

  /**
   * In each of the four cases the details list exactly the unset variables, the
   * token before the account.
   */
  lemma MissingVarsListed(env: Env)
    ensures MissingVars(env) ==
      (if EnvSet(env, TokenVar) then [] else [TokenVar])
      + (if EnvSet(env, AccountVar) then [] else [AccountVar])
    ensures !EnvSet(env, TokenVar) && EnvSet(env, AccountVar) ==> Join(MissingVars(env), ", ") == TokenVar
    ensures EnvSet(env, TokenVar) && !EnvSet(env, AccountVar) ==> Join(MissingVars(env), ", ") == AccountVar
  {
    assert RequiredVars == [TokenVar] + [AccountVar];
    MissingFromAppend([TokenVar], [AccountVar], env);
    assert [TokenVar][1..] == [];
    assert [AccountVar][1..] == [];
  }

  /** Both variables missing are listed in their declared order. */
  lemma MissingBothInOrder(env: Env)
    requires !EnvSet(env, TokenVar) && !EnvSet(env, AccountVar)
    ensures MissingVars(env) == [TokenVar, AccountVar]
    ensures Join(MissingVars(env), ", ") == TokenVar + ", " + AccountVar
  {
    assert RequiredVars[1..] == [AccountVar];
    assert RequiredVars[1..][1..] == [];
    assert [TokenVar, AccountVar][1..] == [AccountVar];
    assert Join([TokenVar, AccountVar], ", ") == TokenVar + ", " + AccountVar;
  }

  function CredentialsMissing(missing: seq<string>): Response {
    Response(500, PublishFailed(false, CredentialsNotConfigured, MissingVarsPrefix + Join(missing, ", ")))
  }

  function Failed(details: string): Response {
    Response(500, PublishFailed(false, PostFailed, details))
  }

  // ---------------------------------------------------------------- download

  /** `path.join(tempDir, "instagram_" + Date.now() + ".jpg")`. */
  function TempPath(tempDir: string, nowMs: nat): (r: string)
    ensures StartsWith(r, tempDir + "/instagram_") && EndsWith(r, ".jpg")
  {
    tempDir + "/instagram_" + NatToDecimal(nowMs) + ".jpg"
  }

  /** Downloads at different milliseconds write different files. */
  lemma TempPathDistinct(tempDir: string, ms1: nat, ms2: nat)
    requires TempPath(tempDir, ms1) == TempPath(tempDir, ms2)
    ensures ms1 == ms2
  {
    var p := tempDir + "/instagram_";
    var d1, d2 := NatToDecimal(ms1), NatToDecimal(ms2);
    var t := TempPath(tempDir, ms1);
    assert t == p + d1 + ".jpg";
    assert t == p + d2 + ".jpg";
    assert |d1| == |d2|;
    assert d1 == t[|p|..|p| + |d1|] == d2;
    DecimalRoundTrip(ms1);
    DecimalRoundTrip(ms2);
  }

  /**
   * `downloadImage`: fetch, re-encode, write the temporary file. Any failure is
   * reported with the download prefix; on success the result is the file's path.
   */
  function Downloaded(url: string, io: InstagramIo): (r: Staged<string>)
    ensures r.effects == [Download(url)]
    ensures r.result.Returned? <==>
      io.fetch(url).Returned? && io.process(io.fetch(url).value).Returned?
      && io.write(TempPath(io.tempDir, io.nowMs), io.process(io.fetch(url).value).value).Returned?
    ensures r.result.Returned? ==> r.result.value == TempPath(io.tempDir, io.nowMs)
    ensures io.fetch(url).Threw? ==> r.result == Threw(DownloadPrefix + io.fetch(url).message)
    ensures io.fetch(url).Returned? && io.process(io.fetch(url).value).Threw? ==>
      r.result == Threw(DownloadPrefix + io.process(io.fetch(url).value).message)
    ensures io.fetch(url).Returned? && io.process(io.fetch(url).value).Returned? ==>
      var w := io.write(TempPath(io.tempDir, io.nowMs), io.process(io.fetch(url).value).value);
      w.Threw? ==> r.result == Threw(DownloadPrefix + w.message)
    ensures r.result.Threw? ==> StartsWith(r.result.message, DownloadPrefix)
  {
    var e := [Download(url)];
    match io.fetch(url)
    case Threw(m) => Staged(Threw(DownloadPrefix + m), e)
    case Returned(data) =>
      match io.process(data)
      case Threw(m) => Staged(Threw(DownloadPrefix + m), e)
      case Returned(jpeg) =>
        var path := TempPath(io.tempDir, io.nowMs);
        match io.write(path, jpeg)
        case Threw(m) => Staged(Threw(DownloadPrefix + m), e)
        case Returned(_) => Staged(Returned(path), e)
  }

  /** `downloadImage` on the disk: the file exists afterwards exactly when the download succeeded. */
  method DownloadImage(disk: Disk, url: string, io: InstagramIo) returns (r: Staged<string>)
    modifies disk
    ensures r == Downloaded(url, io)
    ensures r.result.Returned? ==> disk.files == old(disk.files) + {r.result.value}
    ensures r.result.Threw? ==> disk.files == old(disk.files)
  {
    var effects := [Download(url)];
    var response := io.fetch(url);
    if response.Threw? {
      return Staged(Threw(DownloadPrefix + response.message), effects);
    }
    var processed := io.process(response.value);
    if processed.Threw? {
      return Staged(Threw(DownloadPrefix + processed.message), effects);
    }
    var tempFilePath := TempPath(io.tempDir, io.nowMs);
    var written := io.write(tempFilePath, processed.value);
    if written.Threw? {
      return Staged(Threw(DownloadPrefix + written.message), effects);
    }
    disk.files := disk.files + {tempFilePath};
    r := Staged(Returned(tempFilePath), effects);
  }

  // ---------------------------------------------------------------- status poll

  /** How the poll ended: the last status reply, and how many checks were made. */
  datatype PollResult = PollResult(outcome: Reply<Option<string>>, checks: nat)

  /**
   * The poll from check k on: ask, and ask again only while the answer is
   * IN_PROGRESS and fewer than ten checks were made; a failed check ends it.
   */
  function PollFrom(status: StatusReplies, k: nat): (r: PollResult)
    requires k < MaxAttempts
    ensures k < r.checks <= MaxAttempts
    ensures forall j :: k <= j < r.checks - 1 ==> status(j) == Returned(Some(InProgress))
    ensures r.outcome == status(r.checks - 1)
    ensures r.outcome == Returned(Some(InProgress)) ==> r.checks == MaxAttempts
    decreases MaxAttempts - k
  {
    match status(k)
    case Threw(m) => PollResult(Threw(m), k + 1)
    case Returned(s) =>
      if s == Some(InProgress) && k + 1 < MaxAttempts then PollFrom(status, k + 1)
      else PollResult(Returned(s), k + 1)
  }

  /**
   * The poll starts at IN_PROGRESS, so there is at least one check and at most ten;
   * every check but the last answered IN_PROGRESS, and the last is IN_PROGRESS only
   * when it was the tenth.
   */
  function Poll(status: StatusReplies): (r: PollResult)
    ensures 1 <= r.checks <= MaxAttempts
    ensures forall j :: 0 <= j < r.checks - 1 ==> status(j) == Returned(Some(InProgress))
    ensures r.outcome == status(r.checks - 1)
    ensures r.outcome == Returned(Some(InProgress)) ==> r.checks == MaxAttempts
  {
    PollFrom(status, 0)
  }

  /**
   * The number of checks is fixed by the replies: it is the first check that did
   * not answer IN_PROGRESS, or ten.
   */
  lemma PollStopsAtFirstSettled(status: StatusReplies, n: nat)
    requires 1 <= n <= MaxAttempts
    requires forall j :: 0 <= j < n - 1 ==> status(j) == Returned(Some(InProgress))
    requires status(n - 1) != Returned(Some(InProgress)) || n == MaxAttempts
    ensures Poll(status).checks == n
    ensures Poll(status).outcome == status(n - 1)
  {
  }

  /** `Array(n).fill` of the status request of one container. */
  function Checks(containerId: string, n: nat): (r: seq<Effect>)
    ensures |r| == n && forall i :: 0 <= i < n ==> r[i] == CheckStatus(containerId)
  {
    seq(n, _ => CheckStatus(containerId))
  }

  /** The status loop of `uploadImageToInstagram`, with its attempt counter. */
  method PollStatus(containerId: string, status: StatusReplies) returns (r: PollResult, effects: seq<Effect>)
    ensures r == Poll(status)
    ensures effects == Checks(containerId, r.checks)
  {
    var mediaStatus := Some(InProgress);
    var attempts := 0;
    effects := [];
    while mediaStatus == Some(InProgress) && attempts < MaxAttempts
      invariant 0 <= attempts <= MaxAttempts
      invariant effects == Checks(containerId, attempts)
      invariant attempts == 0 ==> mediaStatus == Some(InProgress)
      invariant mediaStatus == Some(InProgress) && attempts < MaxAttempts ==> Poll(status) == PollFrom(status, attempts)
      invariant attempts > 0 && !(mediaStatus == Some(InProgress) && attempts < MaxAttempts) ==>
        Poll(status) == PollResult(Returned(mediaStatus), attempts)
      decreases MaxAttempts - attempts
    {
      var reply := status(attempts);
      effects := effects + [CheckStatus(containerId)];
      if reply.Threw? {
        return PollResult(Threw(reply.message), attempts + 1), effects;
      }
      mediaStatus := reply.value;
      attempts := attempts + 1;
    }
    r := PollResult(Returned(mediaStatus), attempts);
  }

  // ---------------------------------------------------------------- upload

  /**
   * `uploadImageToInstagram`: both credentials, then the container for the file,
   * then the poll; the container id only when the last status is FINISHED. Every
   * failure carries the upload prefix.
   */
  function Uploaded(path: string, env: Env, io: InstagramIo): (r: Staged<string>)
    ensures !EnvSet(env, TokenVar) || !EnvSet(env, AccountVar) ==>
      r == Staged(Threw(UploadPrefix + CredentialsNotConfigured), [])
    ensures EnvSet(env, TokenVar) && EnvSet(env, AccountVar) ==>
      2 <= |r.effects| + 1 <= MaxAttempts + 2
      && r.effects[0] == CreateContainer(env[AccountVar], "file://" + path, TemporaryCaption)
    ensures r.result.Returned? <==>
      EnvSet(env, TokenVar) && EnvSet(env, AccountVar)
      && io.createContainer(env[AccountVar], "file://" + path, TemporaryCaption).Returned?
      && Poll(io.status(io.createContainer(env[AccountVar], "file://" + path, TemporaryCaption).value)).outcome
         == Returned(Some(Finished))
    ensures r.result.Returned? ==>
      var id := io.createContainer(env[AccountVar], "file://" + path, TemporaryCaption).value;
      r.result.value == id
      && r.effects == [CreateContainer(env[AccountVar], "file://" + path, TemporaryCaption)]
                      + Checks(id, Poll(io.status(id)).checks)
    // the container request throws
    ensures EnvSet(env, TokenVar) && EnvSet(env, AccountVar) ==>
      var created := io.createContainer(env[AccountVar], "file://" + path, TemporaryCaption);
      created.Threw? ==> r.result == Threw(UploadPrefix + created.message)
    // a status request throws, or the poll settles on a status other than FINISHED
    ensures EnvSet(env, TokenVar) && EnvSet(env, AccountVar) ==>
      var created := io.createContainer(env[AccountVar], "file://" + path, TemporaryCaption);
      created.Returned? ==>
        var outcome := Poll(io.status(created.value)).outcome;
        (outcome.Threw? ==> r.result == Threw(UploadPrefix + outcome.message))
        && (outcome.Returned? && outcome.value != Some(Finished) ==>
              r.result == Threw(UploadPrefix + ProcessingFailed + JsText(outcome.value)))
    ensures r.result.Threw? ==> StartsWith(r.result.message, UploadPrefix)
  {
    if !EnvSet(env, TokenVar) || !EnvSet(env, AccountVar) then
      Staged(Threw(UploadPrefix + CredentialsNotConfigured), [])
    else
      var account := env[AccountVar];
      var imageUrl := "file://" + path;
      var e := [CreateContainer(account, imageUrl, TemporaryCaption)];
      match io.createContainer(account, imageUrl, TemporaryCaption)
      case Threw(m) => Staged(Threw(UploadPrefix + m), e)
      case Returned(id) =>
        var p := Poll(io.status(id));
        var e' := e + Checks(id, p.checks);
        match p.outcome
        case Threw(m) => Staged(Threw(UploadPrefix + m), e')
        case Returned(s) =>
          if s == Some(Finished) then Staged(Returned(id), e')
          else Staged(Threw(UploadPrefix + ProcessingFailed + JsText(s)), e')
  }

  /** A container still IN_PROGRESS after ten checks is reported as a failure naming that status. */
  lemma StillInProgressFails(path: string, env: Env, io: InstagramIo)
    requires EnvSet(env, TokenVar) && EnvSet(env, AccountVar)
    requires io.createContainer(env[AccountVar], "file://" + path, TemporaryCaption).Returned?
    requires forall j :: 0 <= j < MaxAttempts ==>
      io.status(io.createContainer(env[AccountVar], "file://" + path, TemporaryCaption).value)(j)
      == Returned(Some(InProgress))
    ensures Uploaded(path, env, io).result == Threw(UploadPrefix + ProcessingFailed + InProgress)
    ensures |Uploaded(path, env, io).effects| == 1 + MaxAttempts
  {
    var id := io.createContainer(env[AccountVar], "file://" + path, TemporaryCaption).value;
    PollStopsAtFirstSettled(io.status(id), MaxAttempts);
  }

  /** `uploadImageToInstagram`. */
  method UploadImageToInstagram(imagePath: string, env: Env, io: InstagramIo) returns (r: Staged<string>)
    ensures r == Uploaded(imagePath, env, io)
  {
    if !EnvSet(env, TokenVar) || !EnvSet(env, AccountVar) {
      return Staged(Threw(UploadPrefix + CredentialsNotConfigured), []);
    }
    var businessAccountId := env[AccountVar];
    var imageUrl := "file://" + imagePath;
    var effects := [CreateContainer(businessAccountId, imageUrl, TemporaryCaption)];
    var created := io.createContainer(businessAccountId, imageUrl, TemporaryCaption);
    if created.Threw? {
      return Staged(Threw(UploadPrefix + created.message), effects);
    }
    var mediaContainerId := created.value;
    var poll, checks := PollStatus(mediaContainerId, io.status(mediaContainerId));
    effects := effects + checks;
    if poll.outcome.Threw? {
      return Staged(Threw(UploadPrefix + poll.outcome.message), effects);
    }
    var mediaStatus := poll.outcome.value;
    if mediaStatus != Some(Finished) {
      return Staged(Threw(UploadPrefix + ProcessingFailed + JsText(mediaStatus)), effects);
    }
    r := Staged(Returned(mediaContainerId), effects);
  }

  // ---------------------------------------------------------------- publish

  /** `https://www.instagram.com/p/${postId}/`. */
  function Permalink(postId: string): (r: string)
    ensures StartsWith(r, PermalinkPrefix) && EndsWith(r, "/")
    ensures |r| == |PermalinkPrefix| + |postId| + 1
  {
    PermalinkPrefix + postId + "/"
  }

  /** The post id a permalink names. */
  function PostIdOf(permalink: string): string
    requires StartsWith(permalink, PermalinkPrefix) && EndsWith(permalink, "/")
    requires |permalink| > |PermalinkPrefix|
  {
    permalink[|PermalinkPrefix|..|permalink| - 1]
  }

  lemma PermalinkRoundTrip(postId: string)
    ensures PostIdOf(Permalink(postId)) == postId
  {
    var r := Permalink(postId);
    assert r[|PermalinkPrefix|..|r| - 1] == postId;
  }

  /**
   * `publishToInstagram`: set the caption, then publish the container; the post id
   * comes from the API and the permalink is built from it. Failures carry the
   * publish prefix.
   */
  function PublishToInstagram(containerId: string, caption: string, env: Env, io: InstagramIo): (r: Staged<(string, string)>)
    ensures 1 <= |r.effects| <= 2 && r.effects[0] == UpdateCaption(containerId, caption)
    ensures io.updateCaption(containerId, caption).Threw? ==>
      r == Staged(Threw(PublishPrefix + io.updateCaption(containerId, caption).message), [UpdateCaption(containerId, caption)])
    ensures r.result.Returned? <==>
      io.updateCaption(containerId, caption).Returned?
      && io.publish(JsText(EnvVar(env, AccountVar)), containerId).Returned?
    ensures r.result.Returned? ==>
      var postId := io.publish(JsText(EnvVar(env, AccountVar)), containerId).value;
      r.result.value == (postId, Permalink(postId))
      && r.effects == [UpdateCaption(containerId, caption), PublishContainer(JsText(EnvVar(env, AccountVar)), containerId)]
    ensures io.updateCaption(containerId, caption).Returned? ==>
      var published := io.publish(JsText(EnvVar(env, AccountVar)), containerId);
      published.Threw? ==> r.result == Threw(PublishPrefix + published.message)
    ensures r.result.Threw? ==> StartsWith(r.result.message, PublishPrefix)
  {
    var e := [UpdateCaption(containerId, caption)];
    match io.updateCaption(containerId, caption)
    case Threw(m) => Staged(Threw(PublishPrefix + m), e)
    case Returned(_) =>
      var account := JsText(EnvVar(env, AccountVar));
      var e' := e + [PublishContainer(account, containerId)];
      match io.publish(account, containerId)
      case Threw(m) => Staged(Threw(PublishPrefix + m), e')
      case Returned(postId) => Staged(Returned((postId, Permalink(postId))), e')
  }

  // ---------------------------------------------------------------- handler

  /** The `try` block: download, upload, publish; the first failure is a 500 with its message. */
  function Attempt(description: string, imageUrl: string, env: Env, io: InstagramIo): (h: Handled)
    ensures h.response.status in {200, 500}
    ensures |h.effects| >= 1 && h.effects[0] == Download(imageUrl)
    ensures h.response.status == 500 ==>
      h.response.body.PublishFailed? && !h.response.body.success && h.response.body.error == PostFailed
    // the first stage that throws ends the attempt with its message as the details
    ensures var d := Downloaded(imageUrl, io);
      (d.result.Threw? ==> h == Handled(Failed(d.result.message), d.effects))
      && (d.result.Returned? ==>
            var u := Uploaded(d.result.value, env, io);
            (u.result.Threw? ==> h == Handled(Failed(u.result.message), d.effects + u.effects))
            && (u.result.Returned? ==>
                  var p := PublishToInstagram(u.result.value, description, env, io);
                  h.effects == d.effects + u.effects + p.effects
                  && (p.result.Threw? ==> h.response == Failed(p.result.message))
                  && (p.result.Returned? ==>
                        h.response == Response(200, Published(true, PublishedMessage, p.result.value.0,
                                                              Permalink(p.result.value.0))))))
    // published exactly when all three stages return
    ensures h.response.status == 200 <==>
      var d := Downloaded(imageUrl, io);
      d.result.Returned?
      && Uploaded(d.result.value, env, io).result.Returned?
      && PublishToInstagram(Uploaded(d.result.value, env, io).result.value, description, env, io).result.Returned?
  {
    var d := Downloaded(imageUrl, io);
    match d.result
    case Threw(m) => Handled(Failed(m), d.effects)
    case Returned(path) =>
      var u := Uploaded(path, env, io);
      match u.result
      case Threw(m) => Handled(Failed(m), d.effects + u.effects)
      case Returned(id) =>
        var p := PublishToInstagram(id, description, env, io);
        var effects := d.effects + u.effects + p.effects;
        match p.result
        case Threw(m) => Handled(Failed(m), effects)
        case Returned(post) => Handled(Response(200, Published(true, PublishedMessage, post.0, post.1)), effects)
  }

  /** The `finally` block: remove the file if it is there; a failed removal is ignored. */
  function CleanedUp(files: set<string>, path: string, io: InstagramIo): (r: set<string>)
    ensures r <= files && files - r <= {path}
    ensures path in r <==> path in files && io.unlink(path).Threw?
  {
    if path in files && io.unlink(path).Returned? then files - {path} else files
  }

  /** The whole route: the credential gate, then the attempt, then the cleanup. */
  function PostToInstagram(description: string, imageUrl: string, env: Env, io: InstagramIo, files: set<string>): (r: Run)
    ensures MissingVars(env) != [] ==> r == Run(Handled(CredentialsMissing(MissingVars(env)), []), files)
    ensures MissingVars(env) == [] ==> r.handled == Attempt(description, imageUrl, env, io)
  {
    var missing := MissingVars(env);
    if |missing| > 0 then Run(Handled(CredentialsMissing(missing), []), files)
    else
      var d := Downloaded(imageUrl, io);
      var h := Attempt(description, imageUrl, env, io);
      match d.result
      case Threw(_) => Run(h, files)
      case Returned(path) => Run(h, CleanedUp(files + {path}, path, io))
  }

  /** The handler. */
  method Handle(disk: Disk, description: string, imageUrl: string, env: Env, io: InstagramIo) returns (h: Handled)
    modifies disk
    ensures Run(h, disk.files) == PostToInstagram(description, imageUrl, env, io, old(disk.files))
  {
    var missingVars := MissingVars(env);
    if |missingVars| > 0 {
      return Handled(CredentialsMissing(missingVars), []);
    }
    var tempImagePath: Option<string> := None;
    var d := DownloadImage(disk, imageUrl, io);
    if d.result.Threw? {
      h := Handled(Failed(d.result.message), d.effects);
    } else {
      tempImagePath := Some(d.result.value);
      var u := UploadImageToInstagram(d.result.value, env, io);
      if u.result.Threw? {
        h := Handled(Failed(u.result.message), d.effects + u.effects);
      } else {
        var p := PublishToInstagram(u.result.value, description, env, io);
        var effects := d.effects + u.effects + p.effects;
        if p.result.Threw? {
          h := Handled(Failed(p.result.message), effects);
        } else {
          var post := p.result.value;
          h := Handled(Response(200, Published(true, PublishedMessage, post.0, post.1)), effects);
        }
      }
    }
    if Truthy(tempImagePath) && disk.Exists(tempImagePath.value) {
      var removed := io.unlink(tempImagePath.value);
      if removed.Returned? {
        disk.files := disk.files - {tempImagePath.value};
      }
    }
  }

  // ---------------------------------------------------------------- properties

  /**
   * The temporary file does not outlive the request unless its removal failed, and
   * no other file is touched.
   */
  lemma TempFileCleanedUp(description: string, imageUrl: string, env: Env, io: InstagramIo, files: set<string>)
    ensures var r := PostToInstagram(description, imageUrl, env, io, files);
      var path := TempPath(io.tempDir, io.nowMs);
      (forall q :: q != path ==> (q in r.files <==> q in files))
      && (MissingVars(env) != [] || Downloaded(imageUrl, io).result.Threw? ==> r.files == files)
      && (MissingVars(env) == [] && Downloaded(imageUrl, io).result.Returned? ==>
            (io.unlink(path).Returned? ==> path !in r.files)
            && (io.unlink(path).Threw? ==> path in r.files))
  {
  }

  /**
   * A published post went through every call in order: the download, the
   * container, one to ten status checks of which the last said FINISHED, the
   * caption, the publication; its permalink is built from its id.
   */
  lemma {:induction false} PublishedTrace(description: string, imageUrl: string, env: Env, io: InstagramIo, files: set<string>)
    requires PostToInstagram(description, imageUrl, env, io, files).handled.response.status == 200
    ensures var h := PostToInstagram(description, imageUrl, env, io, files).handled;
      var path := TempPath(io.tempDir, io.nowMs);
      var account := env[AccountVar];
      var id := io.createContainer(account, "file://" + path, TemporaryCaption).value;
      var n := Poll(io.status(id)).checks;
      EnvSet(env, TokenVar) && EnvSet(env, AccountVar)
      && 1 <= n <= MaxAttempts
      && io.status(id)(n - 1) == Returned(Some(Finished))
      && h.effects == [Download(imageUrl), CreateContainer(account, "file://" + path, TemporaryCaption)]
                      + Checks(id, n) + [UpdateCaption(id, description), PublishContainer(account, id)]
      && h.response.body.Published? && h.response.body.success
      && h.response.body.permalink == Permalink(h.response.body.postId)
  {
    var path := TempPath(io.tempDir, io.nowMs);
    var d := Downloaded(imageUrl, io);
    var u := Uploaded(path, env, io);
    var id := u.result.value;
    var p := PublishToInstagram(id, description, env, io);
    assert EnvVar(env, AccountVar) == Some(env[AccountVar]);
    var account := env[AccountVar];
    var c := [CreateContainer(account, "file://" + path, TemporaryCaption)];
    var checks := Checks(id, Poll(io.status(id)).checks);
    var tail := [UpdateCaption(id, description), PublishContainer(account, id)];
    assert d.effects + (c + checks) + tail == [Download(imageUrl)] + c + checks + tail;
  }

  /**
   * Past the credential gate every failure is a 500 whose details start with the
   * prefix of the stage that failed.
   */
  lemma FailureNamesItsStage(description: string, imageUrl: string, env: Env, io: InstagramIo, files: set<string>)
    requires MissingVars(env) == []
    requires PostToInstagram(description, imageUrl, env, io, files).handled.response.status != 200
    ensures var b := PostToInstagram(description, imageUrl, env, io, files).handled.response.body;
      b.PublishFailed? && !b.success && b.error == PostFailed
      && (StartsWith(b.details, DownloadPrefix) || StartsWith(b.details, UploadPrefix) || StartsWith(b.details, PublishPrefix))
  {
  }

  /**
   * No request checks the container's status more than ten times: the checks sit
   * between the container creation and the caption update, at positions 2 to 11.
   */
  lemma AtMostTenChecks(description: string, imageUrl: string, env: Env, io: InstagramIo, files: set<string>)
    ensures var h := PostToInstagram(description, imageUrl, env, io, files).handled;
      forall i :: 0 <= i < |h.effects| && h.effects[i].CheckStatus? ==> 2 <= i < 2 + MaxAttempts
  {
    if MissingVars(env) == [] {
      AttemptChecksPlaced(description, imageUrl, env, io);
    }
  }

  lemma AttemptChecksPlaced(description: string, imageUrl: string, env: Env, io: InstagramIo)
    ensures var e := Attempt(description, imageUrl, env, io).effects;
      forall i :: 0 <= i < |e| && e[i].CheckStatus? ==> 2 <= i < 2 + MaxAttempts
  {
    var e := Attempt(description, imageUrl, env, io).effects;
    var d := Downloaded(imageUrl, io);
    if d.result.Returned? {
      var u := Uploaded(d.result.value, env, io);
      var tail: seq<Effect> :=
        if u.result.Returned? then PublishToInstagram(u.result.value, description, env, io).effects else [];
      assert e == [Download(imageUrl)] + u.effects + tail;
      assert forall k :: 0 <= k < |tail| ==> !tail[k].CheckStatus?;
      UploadChecksPlaced(d.result.value, env, io);
      EffectsAround(imageUrl, u.effects, tail);
    }
  }

  /** The upload's status checks follow its container creation, at most ten of them. */
  lemma UploadChecksPlaced(path: string, env: Env, io: InstagramIo)
    ensures var e := Uploaded(path, env, io).effects;
      |e| <= 1 + MaxAttempts && forall i :: 0 <= i < |e| && e[i].CheckStatus? ==> 1 <= i
  {
  }

  lemma EffectsAround(url: string, u: seq<Effect>, tail: seq<Effect>)
    requires |u| <= 1 + MaxAttempts
    requires forall i :: 0 <= i < |u| && u[i].CheckStatus? ==> 1 <= i
    requires forall k :: 0 <= k < |tail| ==> !tail[k].CheckStatus?
    ensures var e := [Download(url)] + u + tail;
      forall i :: 0 <= i < |e| && e[i].CheckStatus? ==> 2 <= i < 2 + MaxAttempts
  {
    var e := [Download(url)] + u + tail;
    assert forall k :: 0 <= k < |tail| ==> e[1 + |u| + k] == tail[k];
    forall i | 0 <= i < |e| && e[i].CheckStatus? ensures 2 <= i < 2 + MaxAttempts {
      if 1 <= i < 1 + |u| {
        assert e[i] == u[i - 1];
      }
    }
  }
}
