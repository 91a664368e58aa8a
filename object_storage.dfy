/**
 * The MinIO object store that holds resumes. The MinIO client itself is not part of
 * this model: whether the server accepts an upload is the `reachable` parameter.
 */
module ObjectStorage {
  import opened Wrappers
  import opened Effects

  type Blob = seq<bv8>

  datatype StorageError = UploadFailed

  class ObjectStore {
    const secure: bool
    const endpoint: string
    const bucket: string
    const log: EffectLog
    /** The objects of the bucket, by object name. */
    var objects: map<string, Blob>

    constructor (secure: bool, endpoint: string, bucket: string, log: EffectLog)
      ensures this.secure == secure && this.endpoint == endpoint && this.bucket == bucket
      ensures this.log == log && objects == map[]
    {
      this.secure, this.endpoint, this.bucket, this.log := secure, endpoint, bucket, log;
      objects := map[];
    }

    /** The prefix every object URL shares: `<protocol>://<endpoint>/<bucket>/`. */
    function BaseUrl(): string {
      (if secure then "https" else "http") + "://" + endpoint + "/" + bucket + "/"
    }

    /** `get_file_url`: the base URL followed by the object name. */
    function FileUrl(objectName: string): (url: string)
      ensures |url| == |BaseUrl()| + |objectName|
      ensures url[..|BaseUrl()|] == BaseUrl() && url[|BaseUrl()|..] == objectName
    {
      BaseUrl() + objectName
    }

    /** Distinct object names have distinct URLs. */
    lemma FileUrlInjective(a: string, b: string)
      ensures FileUrl(a) == FileUrl(b) ==> a == b
    {
    }

    /**
     * `upload_file`: writes the object and returns its URL; when the server
     * refuses, raises and stores nothing.
     */
    method UploadFile(file: Blob, objectName: string, reachable: bool) returns (r: Result<string, StorageError>)
      modifies this, log
      ensures reachable ==> r == Success(FileUrl(objectName))
      ensures reachable ==> objects == old(objects)[objectName := file]
      ensures reachable ==> log.events == old(log.events) + [Uploaded(objectName, FileUrl(objectName))]
      ensures !reachable ==> r == Failure(UploadFailed)
      ensures !reachable ==> objects == old(objects) && log.events == old(log.events)
    {
      if !reachable {
        return Failure(UploadFailed);
      }
      objects := objects[objectName := file];
      var url := FileUrl(objectName);
      log.events := log.events + [Uploaded(objectName, url)];
      r := Success(url);
    }
  }
}
