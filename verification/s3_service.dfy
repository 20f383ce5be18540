/**
 * The S3 helpers: uploading an object and returning its public URL, listing the
 * "folders" (common prefixes) of a bucket a page at a time, and listing the objects
 * of one folder with their URLs. The S3 client is an oracle per command.
 */
module S3Service {
  import opened Common
  import opened Http

  const RegionVar := "AWS_REGION"
  const DefaultAcl := "public-read"
  const FolderDelimiter := "/"
  const DefaultFolderLimit := 20
  const FolderObjectLimit := 10

  /** The reply to a ListObjectsV2 command; absent fields are None. */
  datatype ListOutput = ListOutput(
    commonPrefixes: Option<seq<string>>,
    isTruncated: bool,
    nextContinuationToken: Option<string>,
    keyCount: Option<int>,
    contents: Option<seq<string>>)

  /** The S3 client: the outcome of each command. */
  datatype S3 = S3(put: PutRequest -> Reply<()>, list: ListParams -> Reply<ListOutput>)

  /** The part of an object's URL before its key. */
  function UrlPrefix(bucket: Option<string>, region: Option<string>): string {
    "https://" + JsText(bucket) + ".s3." + JsText(region) + ".amazonaws.com/"
  }

  /**
   * `https://${bucket}.s3.${AWS_REGION}.amazonaws.com/${key}`; an unset bucket or
   * region is spelled "undefined", as template literals do.
   */
  function ObjectUrl(bucket: Option<string>, region: Option<string>, key: string): (r: string)
    ensures StartsWith(r, UrlPrefix(bucket, region))
    ensures |r| == |UrlPrefix(bucket, region)| + |key|
    ensures r[|UrlPrefix(bucket, region)|..] == key
  {
    UrlPrefix(bucket, region) + key
  }

  /** Within one bucket and region, distinct keys have distinct URLs. */
  lemma ObjectUrlInjective(bucket: Option<string>, region: Option<string>, k1: string, k2: string)
    requires ObjectUrl(bucket, region, k1) == ObjectUrl(bucket, region, k2)
    ensures k1 == k2
  {
  }

  /** The PutObject command of `uploadToS3`; an omitted ACL is "public-read". */
  function PutCommand(bucket: Option<string>, key: string, body: Bytes, contentType: string, acl: Option<string>): (r: PutRequest)
    ensures r.bucket == bucket && r.key == key && r.body == body && r.contentType == contentType
    ensures acl.None? ==> r.acl == DefaultAcl
    ensures acl.Some? ==> r.acl == acl.value
  {
    PutRequest(bucket, key, body, contentType, if acl.Some? then acl.value else DefaultAcl)
  }

  /**
   * `uploadToS3`: the command's failure propagates; on success the URL is built from
   * the bucket, the region in the environment and the key, never from the reply.
   */
  function UploadToS3(s3: S3, env: Env, put: PutRequest): (r: Reply<string>)
    ensures s3.put(put).Threw? ==> r == Threw(s3.put(put).message)
    ensures s3.put(put).Returned? ==> r == Returned(ObjectUrl(put.bucket, EnvVar(env, RegionVar), put.key))
  {
    match s3.put(put)
    case Threw(m) => Threw(m)
    case Returned(_) => Returned(ObjectUrl(put.bucket, EnvVar(env, RegionVar), put.key))
  }

  /** The ListObjectsV2 command of `listImageFolders`. */
  function FolderListParams(bucket: Option<string>, prefix: Option<string>, limit: int, cursor: Option<string>): (p: ListParams)
    ensures p.bucket == bucket && p.maxKeys == limit && p.delimiter == Some(FolderDelimiter)
    ensures p.prefix == (if prefix.Some? then prefix.value else "")
    ensures p.continuationToken.Some? <==> Truthy(cursor)
    ensures p.continuationToken.Some? ==> p.continuationToken == cursor
  {
    ListParams(bucket, if prefix.Some? then prefix.value else "", Some(FolderDelimiter), limit,
               if Truthy(cursor) then cursor else None)
  }

  /** One page of folders. */
  datatype FolderPage = FolderPage(folders: seq<string>, nextCursor: Option<string>, total: int)

  /**
   * The page a listing reply describes: its common prefixes (none when absent), a
   * next cursor only when the listing is truncated, and KeyCount (0 when absent).
   */
  function PageOf(out: ListOutput): (r: FolderPage)
    ensures out.commonPrefixes.Some? ==> r.folders == out.commonPrefixes.value
    ensures out.commonPrefixes.None? ==> r.folders == []
    ensures r.nextCursor.Some? ==> out.isTruncated && r.nextCursor == out.nextContinuationToken
    ensures out.isTruncated ==> r.nextCursor == out.nextContinuationToken
    ensures r.total == 0 <==> out.keyCount.None? || out.keyCount.value == 0
    ensures out.keyCount.Some? ==> r.total == out.keyCount.value
  {
    FolderPage(
      if out.commonPrefixes.Some? then out.commonPrefixes.value else [],
      if out.isTruncated then out.nextContinuationToken else None,
      if out.keyCount.Some? then out.keyCount.value else 0)
  }

  /** `listImageFolders`: one ListObjectsV2 command, its failure propagated. */
  function ListImageFolders(s3: S3, bucket: Option<string>, prefix: Option<string>, limit: int, cursor: Option<string>): (r: Reply<FolderPage>)
    ensures var out := s3.list(FolderListParams(bucket, prefix, limit, cursor));
      (out.Threw? ==> r == Threw(out.message)) && (out.Returned? ==> r == Returned(PageOf(out.value)))
  {
    match s3.list(FolderListParams(bucket, prefix, limit, cursor))
    case Threw(m) => Threw(m)
    case Returned(out) => Returned(PageOf(out))
  }

  /** An object of a folder and its URL. */
  datatype ObjectEntry = ObjectEntry(key: string, url: string)

  /** The ListObjectsV2 command of `listImagesInFolder`: the folder as prefix, ten keys. */
  function FolderObjectsParams(bucket: Option<string>, folder: string): ListParams {
    ListParams(bucket, folder, None, FolderObjectLimit, None)
  }

  /** `(data.Contents || []).map(obj => ({ key, url }))`. */
  function EntriesOf(bucket: Option<string>, region: Option<string>, keys: seq<string>): (r: seq<ObjectEntry>)
    ensures |r| == |keys|
    ensures forall i :: 0 <= i < |keys| ==> r[i] == ObjectEntry(keys[i], ObjectUrl(bucket, region, keys[i]))
  {
    if keys == [] then [] else [ObjectEntry(keys[0], ObjectUrl(bucket, region, keys[0]))] + EntriesOf(bucket, region, keys[1..])
  }

  /**
   * `listImagesInFolder`: each listed object in order with its URL, none when the
   * reply has no Contents; the command's failure propagates.
   */
  function ListImagesInFolder(s3: S3, env: Env, bucket: Option<string>, folder: string): (r: Reply<seq<ObjectEntry>>)
    ensures var out := s3.list(FolderObjectsParams(bucket, folder));
      (out.Threw? ==> r == Threw(out.message))
      && (out.Returned? && out.value.contents.None? ==> r == Returned([]))
      && (out.Returned? && out.value.contents.Some? ==>
            r.Returned? && |r.value| == |out.value.contents.value|
            && forall i :: 0 <= i < |r.value| ==>
                 r.value[i].key == out.value.contents.value[i]
                 && r.value[i].url == ObjectUrl(bucket, EnvVar(env, RegionVar), r.value[i].key))
  {
    match s3.list(FolderObjectsParams(bucket, folder))
    case Threw(m) => Threw(m)
    case Returned(out) =>
      Returned(EntriesOf(bucket, EnvVar(env, RegionVar), if out.contents.Some? then out.contents.value else []))
  }
}
