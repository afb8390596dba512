/** The object storage client: files are copied into a local cache directory
    that mirrors the bucket, and each upload is named by an object URI. */
module ObjectStore {
  import opened Basics
  import opened Paths

  const DefaultScheme := "s3"
  const DefaultCacheDir := "./object_store_cache"

  class ObjectStorageClient {
    const bucket: string
    const endpoint: Option<string>
    const scheme: string
    const basePath: Path
    /** The cache: each destination path and the local file last copied there. */
    var copies: map<Path, Path>

    /** An empty or missing base path falls back to the default cache
        directory; a missing scheme to `s3`. */
    constructor (bucket: string, basePath: Option<string>, endpoint: Option<string>, scheme: Option<string>)
      ensures this.bucket == bucket && this.endpoint == endpoint
      ensures this.scheme == scheme.GetOr(DefaultScheme)
      ensures this.basePath == PathOf(if NonEmpty(basePath) then basePath.value else DefaultCacheDir)
      ensures copies == map[]
    {
      this.bucket := bucket;
      this.endpoint := endpoint;
      this.scheme := scheme.GetOr(DefaultScheme);
      this.basePath := PathOf(if NonEmpty(basePath) then basePath.value else DefaultCacheDir);
      copies := map[];
    }

    /** `scheme://bucket/key`, naming the object in its bucket. */
    function BaseUri(objectKey: string): string
    {
      scheme + "://" + bucket + "/" + objectKey
    }

    /** The URI handed back for an upload: the bucket URI of the key, with the
        endpoint appended as a query when one is configured. */
    function ObjectUri(objectKey: string): (u: string)
      ensures BaseUri(objectKey) <= u
      ensures !NonEmpty(endpoint) <==> u == BaseUri(objectKey)
      ensures NonEmpty(endpoint) ==> u[|BaseUri(objectKey)|..] == "?endpoint=" + endpoint.value
    {
      if NonEmpty(endpoint) then BaseUri(objectKey) + "?endpoint=" + endpoint.value
      else BaseUri(objectKey)
    }

    /** `resolve_local_path`: where the cache holds an object. A relative key
        lands under the base path; an absolute key replaces it. */
    function ResolveLocalPath(objectKey: string): (p: Path)
      ensures !PathOf(objectKey).absolute ==>
        p.absolute == basePath.absolute && basePath.parts <= p.parts
        && p.parts[|basePath.parts|..] == PathOf(objectKey).parts
      ensures PathOf(objectKey).absolute ==> p == PathOf(objectKey)
    {
      Join(basePath, objectKey)
    }

    /** `put_file`: copy the local file to the object's cache path and hand
        back the object URI. */
    method PutFile(localPath: Path, objectKey: string) returns (uri: string)
      modifies this
      ensures uri == ObjectUri(objectKey)
      ensures copies == old(copies)[ResolveLocalPath(objectKey) := localPath]
    {
      copies := copies[ResolveLocalPath(objectKey) := localPath];
      if NonEmpty(endpoint) {
        uri := scheme + "://" + bucket + "/" + objectKey + "?endpoint=" + endpoint.value;
      } else {
        uri := scheme + "://" + bucket + "/" + objectKey;
      }
    }
  }
}
