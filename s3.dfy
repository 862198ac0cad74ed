/**
 * The S3 helpers (backend/src/utils/s3.ts): object keys for uploads, the
 * public URL of an object and the reverse mapping from URL to key. The
 * bucket name comes from the environment and is a parameter here; signing
 * and sending requests to S3 are not modelled, only the requests' contents.
 */
module S3 {
  import opened Wrappers
  import Strings

  const BucketNotSet := "S3_BUCKET_NAME environment variable is not set"
  const DefaultFolder := "products"

  /** `bucketName` is truthy: the variable is set and not empty. */
  predicate BucketSet(bucket: Option<string>) {
    Strings.Truthy(bucket)
  }

  /** `https://${bucketName}.s3.amazonaws.com/` */
  function BaseUrl(bucket: string): string {
    "https://" + bucket + ".s3.amazonaws.com/"
  }

  /** The PutObject request an upload URL is signed for. */
  datatype PutObject = PutObject(bucket: string, key: string, contentType: string)

  /** `fileType.split('/')[1] || ''`: the MIME subtype, or "" when there is none. */
  function FileExtension(fileType: string): (ext: string)
    ensures '/' !in ext
  {
    var parts := Strings.Split(fileType, '/');
    if |parts| >= 2 then parts[1] else ""
  }

  /**
   * The request behind `getPresignedUploadUrl(fileType, folder)`: the key is
   * `<folder>/<uuid>.<extension>`; an omitted folder is `products`.
   */
  function UploadRequest(bucket: Option<string>, fileType: string, folder: Option<string>, uuid: string)
    : (r: Result<PutObject, string>)
    ensures r.Err? <==> !BucketSet(bucket)
    ensures r.Err? ==> r.error == BucketNotSet
    ensures r.Ok? ==> r.value.bucket == bucket.value && r.value.contentType == fileType
    ensures r.Ok? ==> Strings.StartsWith(r.value.key, folder.GetOr(DefaultFolder) + "/")
  {
    if !BucketSet(bucket) then Err(BucketNotSet)
    else
      var dir := folder.GetOr(DefaultFolder);
      var key := dir + "/" + uuid + "." + FileExtension(fileType);
      assert key[..|dir + "/"|] == dir + "/";
      Ok(PutObject(bucket.value, key, fileType))
  }

  /** `image/png` gives the extension `png`; a type without a `/` gives "". */
  lemma Extensions(sub: string, rest: string, plain: string)
    requires '/' !in sub && '/' !in plain
    ensures FileExtension("image/" + sub) == sub
    ensures FileExtension(plain) == ""
  {
    assert "image/" + sub == "image" + ['/'] + sub;
    Strings.SplitAtFirst("image", '/', sub);
    Strings.SplitWithoutSeparator(sub, '/');
    Strings.SplitWithoutSeparator(plain, '/');
  }

  /**
   * The upload key is `<folder>/<uuid>.<extension>`, and splitting it on `/`
   * gives back the folder when neither folder nor uuid contains a `/`.
   */
  lemma UploadKeyParts(bucket: Option<string>, fileType: string, folder: Option<string>, uuid: string)
    requires BucketSet(bucket)
    requires '/' !in folder.GetOr(DefaultFolder) && '/' !in uuid
    ensures var key := UploadRequest(bucket, fileType, folder, uuid).value.key;
      Strings.Split(key, '/') == [folder.GetOr(DefaultFolder), uuid + "." + FileExtension(fileType)]
  {
    var dir := folder.GetOr(DefaultFolder);
    var file := uuid + "." + FileExtension(fileType);
    assert '/' !in uuid + ".";
    assert '/' !in file;
    var key := UploadRequest(bucket, fileType, folder, uuid).value.key;
    assert key == dir + ['/'] + file;
    Strings.SplitAtFirst(dir, '/', file);
    Strings.SplitWithoutSeparator(file, '/');
  }

  /** `getObjectUrl(key)` */
  function ObjectUrl(bucket: Option<string>, key: string): (r: Result<string, string>)
    ensures r.Err? <==> !BucketSet(bucket)
    ensures r.Ok? ==> Strings.StartsWith(r.value, BaseUrl(bucket.value))
  {
    if !BucketSet(bucket) then Err(BucketNotSet)
    else
      var url := BaseUrl(bucket.value) + key;
      assert url[..|BaseUrl(bucket.value)|] == BaseUrl(bucket.value);
      Ok(url)
  }

  /** `extractKeyFromUrl(url)`: the part after the bucket's base URL, or the URL itself. */
  function ExtractKey(bucket: Option<string>, url: string): (r: Result<string, string>)
    ensures r.Err? <==> !BucketSet(bucket)
    ensures r.Ok? && Strings.StartsWith(url, BaseUrl(bucket.value)) ==> BaseUrl(bucket.value) + r.value == url
    ensures r.Ok? && !Strings.StartsWith(url, BaseUrl(bucket.value)) ==> r.value == url
  {
    if !BucketSet(bucket) then Err(BucketNotSet)
    else
      var baseUrl := BaseUrl(bucket.value);
      if Strings.StartsWith(url, baseUrl) then
        assert baseUrl + url[|baseUrl|..] == url;
        Ok(url[|baseUrl|..])
      else Ok(url)
  }

  /** The key of an object's URL is the object's key. */
  lemma KeyOfObjectUrl(bucket: Option<string>, key: string)
    requires BucketSet(bucket)
    ensures ExtractKey(bucket, ObjectUrl(bucket, key).value) == Ok(key)
  {
    var url := ObjectUrl(bucket, key).value;
    assert url[|BaseUrl(bucket.value)|..] == key;
  }

  /** A URL of the bucket is the object URL of its key. */
  lemma ObjectUrlOfKey(bucket: Option<string>, url: string)
    requires BucketSet(bucket) && Strings.StartsWith(url, BaseUrl(bucket.value))
    ensures ObjectUrl(bucket, ExtractKey(bucket, url).value) == Ok(url)
  {
  }

  /** An uploaded object's URL leads back to the key it was uploaded under. */
  lemma UploadRoundTrip(bucket: Option<string>, fileType: string, folder: Option<string>, uuid: string)
    requires BucketSet(bucket)
    ensures var key := UploadRequest(bucket, fileType, folder, uuid).value.key;
      ExtractKey(bucket, ObjectUrl(bucket, key).value) == Ok(key)
  {
    KeyOfObjectUrl(bucket, UploadRequest(bucket, fileType, folder, uuid).value.key);
  }

  /** The DeleteObject request `deleteObject(key)` sends: bucket and key. */
  function DeleteRequest(bucket: Option<string>, key: string): (r: Result<(string, string), string>)
    ensures r.Err? <==> !BucketSet(bucket)
    ensures r.Ok? ==> r.value == (bucket.value, key)
  {
    if !BucketSet(bucket) then Err(BucketNotSet) else Ok((bucket.value, key))
  }
}
