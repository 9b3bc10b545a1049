// The storage settings and the object keys and URLs of an upload
// (models/storage.py). The S3 client itself is an oracle: whether it could be
// created and whether an upload or delete succeeded are inputs.
module Storage {
  import opened Wrappers
  import Text

  /** A validated `StorageConfig`: the fields are assigned once, in the
      constructor, and never changed afterwards. */
  datatype StorageConfig = StorageConfig(
    endpoint: string,
    accessKey: string,
    secretKey: string,
    bucketName: string,
    publicUrl: string,
    debugUrl: string,
    regionName: string)

  /** `HTTPException(status_code, detail)`. */
  datatype HttpError = HttpError(status: int, detail: string)

  /** What `delete_file` raises: its own `HTTPException`, or the storage
      client's exception passed through unchanged. */
  datatype DeleteFailure = Http(error: HttpError) | Reraised(clientError: string)

  const InvalidEndpoint := "Invalid endpoint URL. Must start with http:// or https://"
  const NotInitialized := "Storage not initialized"
  const UploadFailed := "Failed to upload file"
  const OctetStream := "application/octet-stream"

  /** `endpoint.startswith(("http://", "https://"))`. */
  predicate HasHttpScheme(endpoint: string) {
    Text.StartsWith(endpoint, "http://") || Text.StartsWith(endpoint, "https://")
  }

  predicate NoTrailingSlash(s: string) {
    s == [] || s[|s| - 1] != '/'
  }

  /** What every configuration built by `MakeStorageConfig` satisfies. */
  predicate ValidConfig(c: StorageConfig) {
    NoTrailingSlash(c.endpoint) && NoTrailingSlash(c.publicUrl) && NoTrailingSlash(c.debugUrl)
    && c.regionName != []
  }

  /** `StorageConfig.__init__`: a `ValueError` unless the endpoint is an http(s)
      URL; otherwise the three URLs lose every trailing `/` and a missing or
      empty region becomes `"auto"`. */
  function MakeStorageConfig(endpoint: string, accessKey: string, secretKey: string, bucketName: string,
                             publicUrl: string, debugUrl: string, regionName: Option<string>): (r: Result<StorageConfig, string>)
    ensures r.Failure? <==> !HasHttpScheme(endpoint)
    ensures r.Failure? ==> r.error == InvalidEndpoint
    ensures r.Success? ==> ValidConfig(r.value)
    ensures r.Success? ==>
      r.value.accessKey == accessKey && r.value.secretKey == secretKey && r.value.bucketName == bucketName
    ensures r.Success? ==>
      TrailingSlashes(endpoint, r.value.endpoint) && TrailingSlashes(publicUrl, r.value.publicUrl)
      && TrailingSlashes(debugUrl, r.value.debugUrl)
    ensures r.Success? && (regionName.None? || regionName.value == []) ==> r.value.regionName == "auto"
    ensures r.Success? && regionName.Some? && regionName.value != [] ==> r.value.regionName == regionName.value
  {
    if !HasHttpScheme(endpoint) then Failure(InvalidEndpoint)
    else
      var region := if regionName.None? || regionName.value == [] then "auto" else regionName.value;
      Success(StorageConfig(Text.RStrip(endpoint, '/'), accessKey, secretKey, bucketName,
                            Text.RStrip(publicUrl, '/'), Text.RStrip(debugUrl, '/'), region))
  }

  /** `s` is `t` followed by nothing but slashes. */
  predicate TrailingSlashes(s: string, t: string) {
    |t| <= |s| && s[..|t|] == t && forall i :: |t| <= i < |s| ==> s[i] == '/'
  }

  /** An endpoint with anything but slashes after its scheme keeps its scheme
      when stripped. (A bare `"https://"` passes validation and is stored as
      `"https:"`.) */
  lemma StrippedEndpointKeepsScheme(endpoint: string, scheme: string, i: nat)
    requires scheme == "http://" || scheme == "https://"
    requires Text.StartsWith(endpoint, scheme)
    requires |scheme| <= i < |endpoint| && endpoint[i] != '/'
    ensures Text.StartsWith(Text.RStrip(endpoint, '/'), scheme)
    ensures HasHttpScheme(Text.RStrip(endpoint, '/'))
  {
    var r := Text.RStrip(endpoint, '/');
    assert i < |r|;
    assert r[..|scheme|] == endpoint[..|scheme|];
  }

  /** Building a configuration again from a stored one gives the same
      configuration, as long as its endpoint still carries its scheme. */
  lemma ConfigRebuildStable(c: StorageConfig)
    requires ValidConfig(c) && HasHttpScheme(c.endpoint)
    ensures MakeStorageConfig(c.endpoint, c.accessKey, c.secretKey, c.bucketName,
                              c.publicUrl, c.debugUrl, Some(c.regionName)) == Success(c)
  {
    assert Text.RStrip(c.endpoint, '/') == c.endpoint;
    assert Text.RStrip(c.publicUrl, '/') == c.publicUrl;
    assert Text.RStrip(c.debugUrl, '/') == c.debugUrl;
  }

  /** Validating a configuration's own output is a no-op: stripping is idempotent. */
  lemma MakeStorageConfigIdempotent(endpoint: string, accessKey: string, secretKey: string, bucketName: string,
                                    publicUrl: string, debugUrl: string, regionName: Option<string>, i: nat)
    requires HasHttpScheme(endpoint)
    requires 7 <= i < |endpoint| && endpoint[i] != '/'
    ensures var c := MakeStorageConfig(endpoint, accessKey, secretKey, bucketName, publicUrl, debugUrl, regionName).value;
      MakeStorageConfig(c.endpoint, c.accessKey, c.secretKey, c.bucketName, c.publicUrl, c.debugUrl, Some(c.regionName))
        == Success(c)
  {
    var scheme := if Text.StartsWith(endpoint, "https://") then "https://" else "http://";
    StrippedEndpointKeepsScheme(endpoint, scheme, i);
    var c := MakeStorageConfig(endpoint, accessKey, secretKey, bucketName, publicUrl, debugUrl, regionName).value;
    ConfigRebuildStable(c);
  }

  /** The object key: `prefix/uuid-filename` for a unique name, else
      `prefix/filename`. `uuid` is the text of the `uuid4()` drawn for the call. */
  function ObjectKey(prefix: string, filename: string, uniqueName: bool, uuid: string): (r: string)
    ensures Text.StartsWith(r, prefix + "/")
    ensures |r| >= |filename| && r[|r| - |filename|..] == filename
    ensures !uniqueName ==> |r| == |prefix| + 1 + |filename|
    ensures uniqueName ==> |r| == |prefix| + |uuid| + 2 + |filename| && r[|prefix| + 1 + |uuid|] == '-'
    ensures uniqueName ==> r[|prefix| + 1..|prefix| + 1 + |uuid|] == uuid
  {
    if uniqueName then prefix + "/" + uuid + "-" + filename else prefix + "/" + filename
  }

  /** Two unique uploads with different UUIDs of the same length (every
      `uuid4()` renders as 36 characters) never share a key. */
  lemma {:induction false} UniqueKeysDiffer(prefix: string, f1: string, f2: string, u1: string, u2: string)
    requires |u1| == |u2| && u1 != u2
    ensures ObjectKey(prefix, f1, true, u1) != ObjectKey(prefix, f2, true, u2)
  {
    var k1 := ObjectKey(prefix, f1, true, u1);
    var k2 := ObjectKey(prefix, f2, true, u2);
    var n := |prefix| + 1;
    assert k1[n..n + |u1|] == u1;
    assert k2[n..n + |u2|] == u2;
  }

  /** The four strings `upload_file` returns. */
  datatype UploadUrls = UploadUrls(publicUrl: string, endpointUrl: string, debugUrl: string, key: string)

  /** `f"{base}/{key}"`. */
  function UrlFor(base: string, key: string): string {
    base + "/" + key
  }

  /** The URLs of a stored object under the configuration's three bases. */
  function UrlsFor(c: StorageConfig, key: string): (r: UploadUrls)
    ensures r.key == key
    ensures Text.StartsWith(r.publicUrl, c.publicUrl + "/") && r.publicUrl[|c.publicUrl| + 1..] == key
    ensures Text.StartsWith(r.endpointUrl, c.endpoint + "/" + c.bucketName + "/")
      && r.endpointUrl[|c.endpoint| + |c.bucketName| + 2..] == key
    ensures Text.StartsWith(r.debugUrl, c.debugUrl + "/") && r.debugUrl[|c.debugUrl| + 1..] == key
  {
    UploadUrls(UrlFor(c.publicUrl, key), UrlFor(c.endpoint + "/" + c.bucketName, key), UrlFor(c.debugUrl, key), key)
  }

  /** `_get_content_type`: the guessed MIME type, or `application/octet-stream`
      when there is none (or it is empty). */
  function ContentType(guessed: Option<string>): (r: string)
    ensures r != []
    ensures guessed.Some? && guessed.value != [] ==> r == guessed.value
    ensures guessed.None? || guessed.value == [] ==> r == OctetStream
  {
    if guessed.Some? && guessed.value != [] then guessed.value else OctetStream
  }

  /** `StorageManager`: a configuration plus the S3 client, which is present
      unless creating it failed or the manager was closed. */
  class StorageManager {
    const config: StorageConfig
    var clientReady: bool

    /** `__init__` and `_initialize_client`: `clientCreated` says whether
        `boto3.client(...)` returned a client or raised. */
    constructor (config: StorageConfig, clientCreated: bool)
      ensures this.config == config && clientReady == clientCreated
    {
      this.config := config;
      clientReady := clientCreated;
    }

    /** The result of `upload_file` for a manager whose client is (or is not)
        ready, when the transfer does (or does not) succeed. */
    static function UploadResult(c: StorageConfig, ready: bool, transferOk: bool,
                                 filename: string, prefix: string, uniqueName: bool, uuid: string): (r: Result<UploadUrls, HttpError>)
      ensures !ready ==> r == Failure(HttpError(500, NotInitialized))
      ensures ready && !transferOk ==> r == Failure(HttpError(500, UploadFailed))
      ensures r.Success? <==> ready && transferOk
      ensures r.Success? ==>
        r.value.key == ObjectKey(prefix, filename, uniqueName, uuid)
        && r.value.publicUrl == c.publicUrl + "/" + r.value.key
        && r.value.endpointUrl == c.endpoint + "/" + c.bucketName + "/" + r.value.key
        && r.value.debugUrl == c.debugUrl + "/" + r.value.key
    {
      if !ready then Failure(HttpError(500, NotInitialized))
      else if !transferOk then Failure(HttpError(500, UploadFailed))
      else Success(UrlsFor(c, ObjectKey(prefix, filename, uniqueName, uuid)))
    }

    /** `upload_file`: `transferOk` is whether `upload_fileobj` returned. */
    method UploadFile(filename: string, prefix: string, uniqueName: bool, uuid: string, transferOk: bool)
      returns (r: Result<UploadUrls, HttpError>)
      ensures r == UploadResult(config, clientReady, transferOk, filename, prefix, uniqueName, uuid)
    {
      if !clientReady {
        return Failure(HttpError(500, NotInitialized));
      }
      var key := ObjectKey(prefix, filename, uniqueName, uuid);
      if !transferOk {
        return Failure(HttpError(500, UploadFailed));
      }
      r := Success(UrlsFor(config, key));
    }

    /** `delete_file`: fails with 500 without a client; otherwise whatever
        `delete_object` raised (`clientError`) is logged and re-raised as is. */
    method DeleteFile(filename: string, clientError: Option<string>) returns (r: Result<(), DeleteFailure>)
      ensures !clientReady ==> r == Failure(Http(HttpError(500, NotInitialized)))
      ensures clientReady && clientError.Some? ==> r == Failure(Reraised(clientError.value))
      ensures r.Success? <==> clientReady && clientError.None?
    {
      if !clientReady {
        return Failure(Http(HttpError(500, NotInitialized)));
      }
      if clientError.Some? {
        return Failure(Reraised(clientError.value));
      }
      r := Success(());
    }

    /** `__aexit__`: the client is dropped, so every later upload fails. */
    method Close()
      modifies this
      ensures !clientReady
    {
      clientReady := false;
    }
  }
}
