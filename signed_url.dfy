/** `getSignedUrl`: turn a stored `gs://bucket/path` reference into a request
    for a read-only signed URL on the configured bucket. The storage client
    itself is outside the model; the model produces the request it is given. */
module SignedUrl {
  import opened Common
  import opened Strings

  /** Fifteen minutes, in milliseconds. */
  const ExpiryMs: int := 15 * 60 * 1000

  /** The destructuring `[, , bucketName, ...pathParts]` joined back into a path. */
  datatype ParsedUrl = ParsedUrl(bucketName: Option<string>, filePath: string)

  /** What is asked of the storage client: a signed URL for `file` in `bucket`. */
  datatype SignRequest = SignRequest(bucket: string, file: string, action: string, expires: int)

  /** The reference the uploaders store: `` `gs://${bucket.name}/${blob.name}` ``. */
  function GsUrl(bucketName: string, blobName: string): string
  {
    "gs://" + bucketName + "/" + blobName
  }

  function ParseGsUrl(gsUrl: string): ParsedUrl
  {
    var parts := Split(gsUrl, '/');
    ParsedUrl(
      if |parts| > 2 then Some(parts[2]) else None,
      Join(if |parts| > 3 then parts[3..] else [], '/'))
  }

  /** The request `getSignedUrl(gsUrl)` makes at time `now` (milliseconds). */
  function SignedUrlRequest(configuredBucket: string, gsUrl: string, now: int): (r: SignRequest)
    ensures r.bucket == configuredBucket && r.action == "read"
    ensures r.expires - now == 900000
    ensures r.file == ParseGsUrl(gsUrl).filePath
  {
    SignRequest(configuredBucket, ParseGsUrl(gsUrl).filePath, "read", now + ExpiryMs)
  }

  /** Splitting a join of separator-free parts gives the parts back. */
  lemma {:induction false} SplitJoin(ps: seq<string>, sep: char)
    requires |ps| >= 1
    requires forall k :: 0 <= k < |ps| ==> sep !in ps[k]
    ensures Split(Join(ps, sep), sep) == ps
    decreases |ps|
  {
    if |ps| == 1 {
      SplitNoSeparator(ps[0], sep);
    } else {
      SplitJoin(ps[1..], sep);
      SplitPrefix(ps[0], sep, Join(ps[1..], sep));
      assert ps == [ps[0]] + ps[1..];
    }
  }

  /** The file path consists of exactly the `/`-separated segments after the
      third, in order: splitting it again yields them. */
  lemma FilePathSegments(gsUrl: string)
    ensures var parts := Split(gsUrl, '/');
            |parts| > 3 ==> Split(ParseGsUrl(gsUrl).filePath, '/') == parts[3..]
    ensures |Split(gsUrl, '/')| <= 3 ==> ParseGsUrl(gsUrl).filePath == ""
  {
    var parts := Split(gsUrl, '/');
    if |parts| > 3 {
      SplitJoin(parts[3..], '/');
    }
  }

  /** Parsing what the uploaders store recovers the blob name, provided the
      bucket name has no `/`. */
  lemma ParseRoundTrip(bucketName: string, blobName: string)
    requires '/' !in bucketName
    ensures ParseGsUrl(GsUrl(bucketName, blobName)) == ParsedUrl(Some(bucketName), blobName)
  {
    var url := GsUrl(bucketName, blobName);
    assert url == "gs:" + ['/'] + ("" + ['/'] + (bucketName + ['/'] + blobName));
    SplitPrefix(bucketName, '/', blobName);
    SplitPrefix("", '/', bucketName + ['/'] + blobName);
    SplitPrefix("gs:", '/', "" + ['/'] + (bucketName + ['/'] + blobName));
    var parts := Split(url, '/');
    assert parts == ["gs:", "", bucketName] + Split(blobName, '/');
    assert parts[3..] == Split(blobName, '/');
    JoinSplit(blobName, '/');
  }

  /** The bucket named in the URL plays no part: two references that differ
      only in their bucket segment produce the same request. */
  lemma BucketNameIgnored(configuredBucket: string, b1: string, b2: string, blobName: string, now: int)
    requires '/' !in b1 && '/' !in b2
    ensures SignedUrlRequest(configuredBucket, GsUrl(b1, blobName), now)
         == SignedUrlRequest(configuredBucket, GsUrl(b2, blobName), now)
    ensures SignedUrlRequest(configuredBucket, GsUrl(b1, blobName), now).file == blobName
  {
    ParseRoundTrip(b1, blobName);
    ParseRoundTrip(b2, blobName);
  }
}
