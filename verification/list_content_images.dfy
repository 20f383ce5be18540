/**
 * GET /content-image/list: one page of image folders, each reported only when it
 * holds both an original and a thumbnail, in folder order.
 */
module ListContentImages {
  import opened Common
  import opened Http
  import opened S3Service

  const MissingCredentials := "S3 credentials missing in environment."
  const FailedToList := "Failed to list S3 images"
  const OriginalSuffix := "original.png"
  const ThumbnailSuffix := "thumbnail.png"

  /** The query string: an optional cursor and an optional page size. */
  datatype ListQuery = ListQuery(cursor: Option<string>, limit: Option<int>)

  /** All four S3 variables are set. */
  function HasS3Credentials(env: Env): (r: bool)
    ensures r ==> EnvVar(env, "S3_BUCKET").Some? && EnvVar(env, RegionVar).Some?
  {
    EnvSet(env, "AWS_ACCESS_KEY_ID") && EnvSet(env, "AWS_SECRET_ACCESS_KEY")
    && EnvSet(env, "AWS_REGION") && EnvSet(env, "S3_BUCKET")
  }

  /** `files.findIndex(f => f.key.endsWith(suffix))`, None for -1. */
  function FindSuffix(files: seq<ObjectEntry>, suffix: string): (r: Option<nat>)
    ensures r.Some? ==> r.value < |files| && EndsWith(files[r.value].key, suffix)
    ensures r.Some? ==> forall j :: 0 <= j < r.value ==> !EndsWith(files[j].key, suffix)
    ensures r.None? ==> forall j :: 0 <= j < |files| ==> !EndsWith(files[j].key, suffix)
  {
    if files == [] then None
    else if EndsWith(files[0].key, suffix) then Some(0)
    else
      match FindSuffix(files[1..], suffix)
      case None => None
      case Some(k) => Some(k + 1)
  }

  /** `folder.replace(/\/$/, "")`: one trailing slash removed, if there is one. */
  function StripTrailingSlash(folder: string): (r: string)
    ensures EndsWith(folder, "/") ==> r + "/" == folder
    ensures !EndsWith(folder, "/") ==> r == folder
  {
    if EndsWith(folder, "/") then folder[..|folder| - 1] else folder
  }

  /**
   * The entry for a folder: present exactly when some key ends in original.png and
   * some key ends in thumbnail.png, with the URLs of the first such keys.
   */
  function Paired(folder: string, files: seq<ObjectEntry>): (r: Option<ImageEntry>)
    ensures r.Some? <==>
      (exists i :: 0 <= i < |files| && EndsWith(files[i].key, OriginalSuffix))
      && (exists i :: 0 <= i < |files| && EndsWith(files[i].key, ThumbnailSuffix))
    ensures r.Some? ==>
      r.value == ImageEntry(files[FindSuffix(files, OriginalSuffix).value].url,
                            files[FindSuffix(files, ThumbnailSuffix).value].url,
                            StripTrailingSlash(folder))
  {
    match (FindSuffix(files, OriginalSuffix), FindSuffix(files, ThumbnailSuffix))
    case (Some(o), Some(t)) => Some(ImageEntry(files[o].url, files[t].url, StripTrailingSlash(folder)))
    case _ => None
  }

  /** One folder: its listing, then its entry if it has both files. */
  function FolderImage(s3: S3, env: Env, bucket: Option<string>, folder: string): Reply<Option<ImageEntry>> {
    match ListImagesInFolder(s3, env, bucket, folder)
    case Threw(m) => Threw(m)
    case Returned(files) => Returned(Paired(folder, files))
  }

  /** The outcome of looking at one folder, as a function of the folder. */
  type Finder = string -> Reply<Option<ImageEntry>>

  function FinderOf(s3: S3, env: Env, bucket: Option<string>): Finder {
    folder => FolderImage(s3, env, bucket, folder)
  }

  function Listing(bucket: Option<string>, folder: string): Effect {
    ListObjects(FolderObjectsParams(bucket, folder))
  }

  function OptionToSeq(o: Option<ImageEntry>): seq<ImageEntry> {
    if o.Some? then [o.value] else []
  }

  /** The outcome of the pairing loop and the listings it made. */
  datatype Collected = Collected(result: Reply<seq<ImageEntry>>, effects: seq<Effect>)

  /**
   * One turn of the pairing loop: after a failure nothing happens; otherwise the
   * folder is listed and its entry, if any, appended.
   */
  function Step(c: Collected, find: Finder, bucket: Option<string>, folder: string): Collected {
    if c.result.Threw? then c
    else
      var effects := c.effects + [Listing(bucket, folder)];
      match find(folder)
      case Threw(m) => Collected(Threw(m), effects)
      case Returned(o) => Collected(Returned(c.result.value + OptionToSeq(o)), effects)
  }

  /** The pairing loop over `folders`: one Step per folder, in order. */
  function Collect(find: Finder, bucket: Option<string>, folders: seq<string>): (c: Collected)
    ensures |c.effects| <= |folders|
    ensures c.result.Returned? ==> |c.effects| == |folders| && |c.result.value| <= |folders|
    decreases |folders|
  {
    if folders == [] then Collected(Returned([]), [])
    else Step(Collect(find, bucket, folders[..|folders| - 1]), find, bucket, folders[|folders| - 1])
  }

  lemma CollectPrefix(find: Finder, bucket: Option<string>, folders: seq<string>, i: nat)
    requires i < |folders|
    ensures Collect(find, bucket, folders[..i + 1]) == Step(Collect(find, bucket, folders[..i]), find, bucket, folders[i])
  {
    var p := folders[..i + 1];
    assert p[..|p| - 1] == folders[..i];
    assert p[|p| - 1] == folders[i];
  }

  /** Once the loop has failed on a prefix of the folders, the rest is never looked at. */
  lemma {:induction false} CollectStopsAtFailure(find: Finder, bucket: Option<string>, folders: seq<string>, k: nat)
    requires k <= |folders| && Collect(find, bucket, folders[..k]).result.Threw?
    ensures Collect(find, bucket, folders) == Collect(find, bucket, folders[..k])
    decreases |folders|
  {
    if k == |folders| {
      assert folders[..k] == folders;
    } else {
      var init := folders[..|folders| - 1];
      assert init[..k] == folders[..k];
      CollectStopsAtFailure(find, bucket, init, k);
    }
  }

  /** The pairing loop: for each folder, list it, and push its entry when it has one. */
  method PairImages(s3: S3, env: Env, bucket: Option<string>, folders: seq<string>) returns (c: Collected)
    ensures c == Collect(FinderOf(s3, env, bucket), bucket, folders)
  {
    var find := FinderOf(s3, env, bucket);
    var images: seq<ImageEntry> := [];
    var effects: seq<Effect> := [];
    var i := 0;
    while i < |folders|
      invariant 0 <= i <= |folders|
      invariant Collect(find, bucket, folders[..i]) == Collected(Returned(images), effects)
    {
      var folder := folders[i];
      CollectPrefix(find, bucket, folders, i);
      effects := effects + [Listing(bucket, folder)];
      var found := find(folder);
      if found.Threw? {
        CollectStopsAtFailure(find, bucket, folders, i + 1);
        return Collected(Threw(found.message), effects);
      }
      images := images + OptionToSeq(found.value);
      i := i + 1;
    }
    assert folders[..i] == folders;
    c := Collected(Returned(images), effects);
  }

  /** The loop lists the folders in order, one listing each, stopping at the first failure. */
  lemma {:induction false} CollectListsInOrder(find: Finder, bucket: Option<string>, folders: seq<string>)
    ensures var c := Collect(find, bucket, folders);
      forall i :: 0 <= i < |c.effects| ==> c.effects[i] == Listing(bucket, folders[i])
    decreases |folders|
  {
    if folders != [] {
      var init := folders[..|folders| - 1];
      CollectListsInOrder(find, bucket, init);
      assert forall i :: 0 <= i < |init| ==> init[i] == folders[i];
    }
  }

  /** The loop succeeds exactly when every folder's listing succeeds. */
  lemma {:induction false} CollectSucceeds(find: Finder, bucket: Option<string>, folders: seq<string>)
    ensures Collect(find, bucket, folders).result.Returned?
        <==> forall i :: 0 <= i < |folders| ==> find(folders[i]).Returned?
    decreases |folders|
  {
    if folders != [] {
      var init := folders[..|folders| - 1];
      CollectSucceeds(find, bucket, init);
      assert forall i :: 0 <= i < |init| ==> init[i] == folders[i];
    }
  }

  lemma CollectSnoc(find: Finder, bucket: Option<string>, xs: seq<string>, x: string)
    ensures Collect(find, bucket, xs + [x]) == Step(Collect(find, bucket, xs), find, bucket, x)
  {
    var ys := xs + [x];
    assert ys[..|ys| - 1] == xs;
  }

  /** A Step after a prefix of entries appends to them what it appends on its own. */
  lemma StepAfter(prefix: seq<ImageEntry>, c: Collected, effects: seq<Effect>, find: Finder, bucket: Option<string>, folder: string)
    requires c.result.Returned? && Step(c, find, bucket, folder).result.Returned?
    ensures Step(Collected(Returned(prefix + c.result.value), effects), find, bucket, folder).result
         == Returned(prefix + Step(c, find, bucket, folder).result.value)
  {
    var o := OptionToSeq(find(folder).value);
    assert (prefix + c.result.value) + o == prefix + (c.result.value + o);
  }

  /** The entries of a concatenation of folder lists are the entries of each, in order. */
  lemma {:induction false} CollectAppend(find: Finder, bucket: Option<string>, a: seq<string>, b: seq<string>)
    requires Collect(find, bucket, a).result.Returned? && Collect(find, bucket, b).result.Returned?
    ensures Collect(find, bucket, a + b).result
         == Returned(Collect(find, bucket, a).result.value + Collect(find, bucket, b).result.value)
    decreases |b|
  {
    var ca := Collect(find, bucket, a);
    if b == [] {
      assert a + b == a;
      assert ca.result.value + [] == ca.result.value;
    } else {
      var init, last := b[..|b| - 1], b[|b| - 1];
      assert b == init + [last];
      CollectSnoc(find, bucket, init, last);
      CollectAppend(find, bucket, a, init);
      assert a + b == (a + init) + [last];
      CollectSnoc(find, bucket, a + init, last);
      StepAfter(ca.result.value, Collect(find, bucket, init), Collect(find, bucket, a + init).effects, find, bucket, last);
    }
  }

  /**
   * Every folder that yields an entry contributes that entry, and every reported
   * entry comes from some folder that yields it.
   */
  lemma {:induction false} CollectExactlyPaired(find: Finder, bucket: Option<string>, folders: seq<string>)
    requires Collect(find, bucket, folders).result.Returned?
    ensures var images := Collect(find, bucket, folders).result.value;
      (forall i :: 0 <= i < |folders| && find(folders[i]).Returned? && find(folders[i]).value.Some?
         ==> find(folders[i]).value.value in images)
      && (forall e :: e in images ==> exists i :: 0 <= i < |folders| && find(folders[i]) == Returned(Some(e)))
    decreases |folders|
  {
    if folders != [] {
      var init := folders[..|folders| - 1];
      CollectExactlyPaired(find, bucket, init);
      assert forall i :: 0 <= i < |init| ==> init[i] == folders[i];
    }
  }

  /** The whole route as a function of the environment, the query and S3. */
  function ListResponse(env: Env, query: ListQuery, s3: S3): (h: Handled)
    ensures !HasS3Credentials(env) ==> h == Handled(Response(500, Error(MissingCredentials)), [])
    ensures HasS3Credentials(env) ==>
      var limit := if query.limit.Some? then query.limit.value else DefaultFolderLimit;
      |h.effects| >= 1
      && h.effects[0] == ListObjects(FolderListParams(EnvVar(env, "S3_BUCKET"), None, limit, query.cursor))
    ensures h.response.status == 200 ==>
      var limit := if query.limit.Some? then query.limit.value else DefaultFolderLimit;
      var page := ListImageFolders(s3, EnvVar(env, "S3_BUCKET"), None, limit, query.cursor);
      page.Returned? && Collect(FinderOf(s3, env, EnvVar(env, "S3_BUCKET")), EnvVar(env, "S3_BUCKET"), page.value.folders).result.Returned?
      && h.response.body == ImageList(Collect(FinderOf(s3, env, EnvVar(env, "S3_BUCKET")), EnvVar(env, "S3_BUCKET"), page.value.folders).result.value,
                                      page.value.nextCursor, page.value.total)
    ensures h.response.status in {200, 500}
    // with credentials: a throw from the folder page or from a folder listing is a
    // 500 carrying its message; otherwise a 200 with the paired images
    ensures HasS3Credentials(env) ==>
      var limit := if query.limit.Some? then query.limit.value else DefaultFolderLimit;
      var bucket := EnvVar(env, "S3_BUCKET");
      var first := [ListObjects(FolderListParams(bucket, None, limit, query.cursor))];
      var page := ListImageFolders(s3, bucket, None, limit, query.cursor);
      (page.Threw? ==> h == Handled(Response(500, ErrorDetails(FailedToList, page.message)), first))
      && (page.Returned? ==>
            var c := Collect(FinderOf(s3, env, bucket), bucket, page.value.folders);
            h.effects == first + c.effects
            && (c.result.Threw? ==> h.response == Response(500, ErrorDetails(FailedToList, c.result.message)))
            && (c.result.Returned? ==> h.response.status == 200))
  {
    if !HasS3Credentials(env) then Handled(Response(500, Error(MissingCredentials)), [])
    else
      var limit := if query.limit.Some? then query.limit.value else DefaultFolderLimit;
      var bucket := EnvVar(env, "S3_BUCKET");
      var first := [ListObjects(FolderListParams(bucket, None, limit, query.cursor))];
      match ListImageFolders(s3, bucket, None, limit, query.cursor)
      case Threw(m) => Handled(Response(500, ErrorDetails(FailedToList, m)), first)
      case Returned(page) =>
        var c := Collect(FinderOf(s3, env, bucket), bucket, page.folders);
        match c.result
        case Threw(m) => Handled(Response(500, ErrorDetails(FailedToList, m)), first + c.effects)
        case Returned(images) => Handled(Response(200, ImageList(images, page.nextCursor, page.total)), first + c.effects)
  }

  /** The handler: the credential gate, the folder page, then the pairing loop. */
  method Handle(env: Env, query: ListQuery, s3: S3) returns (h: Handled)
    ensures h == ListResponse(env, query, s3)
  {
    if !HasS3Credentials(env) {
      return Handled(Response(500, Error(MissingCredentials)), []);
    }
    var limit := if query.limit.Some? then query.limit.value else DefaultFolderLimit;
    var bucket := EnvVar(env, "S3_BUCKET");
    var first := [ListObjects(FolderListParams(bucket, None, limit, query.cursor))];
    var page := ListImageFolders(s3, bucket, None, limit, query.cursor);
    if page.Threw? {
      return Handled(Response(500, ErrorDetails(FailedToList, page.message)), first);
    }
    var c := PairImages(s3, env, bucket, page.value.folders);
    if c.result.Threw? {
      return Handled(Response(500, ErrorDetails(FailedToList, c.result.message)), first + c.effects);
    }
    h := Handled(Response(200, ImageList(c.result.value, page.value.nextCursor, page.value.total)), first + c.effects);
  }
}
