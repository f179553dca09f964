/** alppb's S3 administration: the bucket's region, and download and
    deletion of the build artifact at a default key. */
module AlppbS3 {
  import opened Wrappers
  import opened Aws

  /** Where CodeBuild puts `alppb.zip` for the project `alppbBuilder`. */
  const DEFAULT_KEY := "alppbBuilder/alppb.zip"
  const DEFAULT_LOCAL_PATH := "alppb.zip"
  /** The region S3 means when a bucket has no location constraint. */
  const US_EAST_1 := "us-east-1"

  /** Copies the object to `localPath`; the bucket is left as it is. */
  method DownloadArtifact(acct: Account, bucket: string, key: string := DEFAULT_KEY, localPath: string := DEFAULT_LOCAL_PATH)
    returns (o: Outcome<ApiError>)
    modifies acct`localFiles, acct`calls
    ensures acct.calls == old(acct.calls) + [Call.DownloadFile(ObjectRef(bucket, key), localPath)]
    ensures ObjectRef(bucket, key) in acct.objects ==>
      o == Pass && acct.localFiles == old(acct.localFiles)[localPath := acct.objects[ObjectRef(bucket, key)]]
    ensures ObjectRef(bucket, key) !in acct.objects ==>
      o == Fail(NoSuchKey(ObjectRef(bucket, key))) && acct.localFiles == old(acct.localFiles)
  {
    o := acct.DownloadFile(bucket, key, localPath);
  }

  /** Removes the one object at (bucket, key); every other object stays. */
  method DeleteArtifact(acct: Account, bucket: string, key: string := DEFAULT_KEY) returns (o: Outcome<ApiError>)
    modifies acct`objects, acct`calls
    ensures acct.calls == old(acct.calls) + [Call.DeleteObject(ObjectRef(bucket, key))]
    ensures bucket in acct.buckets ==> o == Pass && acct.objects == old(acct.objects) - {ObjectRef(bucket, key)}
    ensures bucket !in acct.buckets ==> o == Fail(NoSuchBucket(bucket)) && acct.objects == old(acct.objects)
  {
    o := acct.DeleteObject(bucket, key);
  }

  /** The region a location constraint names; no constraint means us-east-1. */
  function LocationRegion(location: Option<string>): string {
    if location.None? then US_EAST_1 else location.value
  }

  /** The bucket's region: its location constraint, or us-east-1 when it has
      none.  A lookup error propagates. */
  method BucketRegion(acct: Account, bucket: string) returns (r: Result<string, ApiError>)
    ensures bucket !in acct.buckets <==> r == Failure(NoSuchBucket(bucket))
    ensures bucket in acct.buckets ==> r == Success(LocationRegion(acct.buckets[bucket]))
    ensures bucket in acct.buckets && acct.buckets[bucket] == None ==> r == Success(US_EAST_1)
    ensures bucket in acct.buckets && acct.buckets[bucket].Some? ==> r == Success(acct.buckets[bucket].value)
  {
    var response := acct.GetBucketLocation(bucket);
    if response.Failure? {
      return Failure(response.error);
    }
    r := Success(LocationRegion(response.value));
  }
}
