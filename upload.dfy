/**
 * uploadHousingImage: the storage path of a housing image and the outcome
 * of the upload. The storage service, the random UUID and the public-URL
 * lookup are outside the model: the UUID is a parameter and the service's
 * reply is a parameter.
 */
module Upload {
  import opened Wrappers
  import opened Text

  /** A browser `File`, of which only the name is used. */
  datatype File = File(name: string)

  /**
   * `file.name.split('.').pop() || 'jpg'`: the text after the last '.',
   * falling back to "jpg" when that text is empty.
   */
  function ImageExtension(name: string): (ext: string)
    ensures ext != [] && '.' !in ext
    ensures name == [] || name[|name| - 1] == '.' ==> ext == "jpg"
    ensures name != [] && '.' !in name ==> ext == name
    ensures name != [] && name[|name| - 1] != '.' ==> IsExtensionOf(name, ext)
  {
    var after := AfterLastDot(name);
    AfterLastDotIsExtension(name, after);
    if after == [] then "jpg" else after
  }

  /** `${providerId}/${uuid}.${ext}` */
  function ImagePath(providerId: string, uuid: string, name: string): (path: string)
    ensures StartsWith(path, providerId + "/")
    ensures EndsWith(path, "." + ImageExtension(name))
    ensures AfterLastDot(path) == ImageExtension(name)
  {
    var ext := ImageExtension(name);
    JoinedPathShape(providerId, uuid, ext);
    providerId + "/" + uuid + "." + ext
  }

  lemma JoinedPathShape(dir: string, base: string, ext: string)
    requires '.' !in ext
    ensures StartsWith(dir + "/" + base + "." + ext, dir + "/")
    ensures EndsWith(dir + "/" + base + "." + ext, "." + ext)
    ensures AfterLastDot(dir + "/" + base + "." + ext) == ext
  {
    var head := dir + "/" + base;
    assert StartsWith(head + "." + ext, dir + "/") by {
      assert (head + "." + ext)[..|dir| + 1] == head[..|dir| + 1];
    }
    DotJoinHasExtension(head, ext);
  }

  /** What the storage service answers: the public URL of the stored object, or an error. */
  datatype StorageReply = Stored(publicUrl: string) | StorageFailed(message: Option<string>)

  /** The path the upload is sent to, and the URL or the thrown error. */
  datatype UploadAttempt = UploadAttempt(path: string, result: Result<string, Option<string>>)

  /** uploadHousingImage: a storage error is thrown and no URL is returned. */
  function UploadHousingImage(file: File, providerId: string, uuid: string, reply: StorageReply): (a: UploadAttempt)
    ensures a.path == ImagePath(providerId, uuid, file.name)
    ensures a.result.Failure? <==> reply.StorageFailed?
    ensures reply.StorageFailed? ==> a.result == Failure(reply.message)
    ensures reply.Stored? ==> a.result == Success(reply.publicUrl)
  {
    var path := ImagePath(providerId, uuid, file.name);
    match reply
    case StorageFailed(message) => UploadAttempt(path, Failure(message))
    case Stored(url) => UploadAttempt(path, Success(url))
  }
}
