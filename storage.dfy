/**
 * The storage drivers. Each driver class of the service is one `DriverKind`:
 * the filesystem driver and the mediated S3 driver stream bytes through the
 * service (`extern` is false); the S3 "extern" driver only presigns requests the
 * client then sends to the bucket itself (`extern` is true). The directory, or
 * the bucket, is the map `objects` from object key to bytes; the boto3 presign
 * calls are oracles that map a request to what the S3 client would answer.
 */
module Storage {
  import opened Wrappers

  newtype byte = b: int | 0 <= b < 256

  datatype DriverKind = FileSystem | S3Extern | S3

  /** A configuration value: a string, or a driver class (the `storage_driver` entry). */
  datatype ConfigValue = Str(s: string) | DriverClass(kind: DriverKind)

  /** The configuration dictionary. Start-up and the driver it constructs share one instance. */
  class Config {
    var entries: map<string, ConfigValue>

    constructor (entries: map<string, ConfigValue>)
      ensures this.entries == entries
    {
      this.entries := entries;
    }
  }

  /** Values of a presigned-post response: strings, and the nested `fields` dictionary. */
  datatype Json = JText(s: string) | JObject(members: map<string, string>)

  datatype PresignOp = PostObject | GetObject

  /** What is asked of the S3 client: operation, bucket, object key and validity in seconds. */
  datatype PresignRequest = PresignRequest(op: PresignOp, bucket: string, key: string, expiresIn: nat)

  /** `ExpiresIn=60` on both presign calls. */
  const PresignValidity: nat := 60

  /** What `get` hands back: the object's bytes, or a download URL. */
  datatype Fetched = Bytes(data: seq<byte>) | Link(url: string)

  /** The `extern` property: only the presigning S3 driver leaves the transfer to the client. */
  function Extern(kind: DriverKind): (r: bool)
    ensures r <==> kind == S3Extern
    ensures kind == FileSystem || kind == S3 ==> !r
  {
    match kind
    // the filesystem driver inherits StorageDriver.extern
    case FileSystem => false
    case S3Extern => true
    case S3 => false
  }

  const S3ConfigKeys: set<string> := {"S3_ACCESS_KEY", "S3_SECRET_KEY", "S3_REGION", "S3_ENDPOINT", "S3_BUCKET"}

  /** `required_config()`: the configuration keys a driver needs and their defaults. */
  function RequiredConfig(kind: DriverKind): (r: map<string, ConfigValue>)
    ensures kind == FileSystem ==> r.Keys == {"file_location"} && r["file_location"] == Str("files")
    ensures kind != FileSystem ==> r.Keys == S3ConfigKeys && r["S3_BUCKET"] == Str("file_transfer")
    ensures kind != FileSystem ==> forall k :: k in r && k != "S3_BUCKET" ==> r[k] == Str("")
  {
    match kind
    case FileSystem => map["file_location" := Str("files")]
    case _ =>
      map["S3_ACCESS_KEY" := Str(""), "S3_SECRET_KEY" := Str(""), "S3_REGION" := Str(""),
          "S3_ENDPOINT" := Str(""), "S3_BUCKET" := Str("file_transfer")]
  }

  /**
   * Whether `config['storage_driver'](config)` returns a driver. The S3 constructors
   * look up the connection keys and then the bucket; `reachable` says whether the
   * client session opens and the bucket listing names the configured bucket.
   */
  predicate Constructs(kind: DriverKind, entries: map<string, ConfigValue>, reachable: bool) {
    kind == FileSystem ||
    (reachable && "S3_REGION" in entries && "S3_ENDPOINT" in entries && "S3_ACCESS_KEY" in entries
     && "S3_SECRET_KEY" in entries && "S3_BUCKET" in entries && entries["S3_BUCKET"].Str?)
  }

  /** The shape of a presigned-post response: a `fields` dictionary, none of whose form fields is itself named `fields`. */
  predicate IsPresignedPost(response: map<string, Json>) {
    "fields" in response && response["fields"].JObject? && "fields" !in response["fields"].members
  }

  /**
   * The upload descriptor: every form field lifted to the top level with its value,
   * the `fields` entry gone, and every other entry (such as `url`) kept unless a
   * form field of the same name replaces it.
   */
  function Flattened(response: map<string, Json>): (r: map<string, Json>)
    requires IsPresignedPost(response)
    ensures "fields" !in r
    ensures r.Keys == response.Keys - {"fields"} + response["fields"].members.Keys
    ensures forall k :: k in response["fields"].members ==> r[k] == JText(response["fields"].members[k])
    ensures forall k :: k in response && k != "fields" && k !in response["fields"].members ==> r[k] == response[k]
  {
    var fields := response["fields"].members;
    (response - {"fields"}) + map k | k in fields :: JText(fields[k])
  }

  /** The loop of `S3StorageDriverExtern.store` that copies the form fields up and drops `fields`. */
  method FlattenFields(response: map<string, Json>) returns (r: map<string, Json>)
    requires IsPresignedPost(response)
    ensures r == Flattened(response)
  {
    var fields := response["fields"].members;
    r := response;
    var pending := fields.Keys;
    while pending != {}
      invariant pending <= fields.Keys
      invariant r.Keys == response.Keys + (fields.Keys - pending)
      invariant forall k :: k in fields.Keys - pending ==> r[k] == JText(fields[k])
      invariant forall k :: k in response && k !in fields.Keys - pending ==> r[k] == response[k]
      decreases pending
    {
      var k :| k in pending;
      r := r[k := JText(fields[k])];
      pending := pending - {k};
    }
    r := r - {"fields"};
  }

  /** The bytes of `chunks`, in order. */
  function Concat(chunks: seq<seq<byte>>): seq<byte>
    decreases |chunks|
  {
    if chunks == [] then [] else Concat(chunks[..|chunks| - 1]) + chunks[|chunks| - 1]
  }

  /** The position of the first empty read; the stream counts as exhausted after its last listed read. */
  function FirstEmpty(buffers: seq<seq<byte>>): (n: nat)
    ensures n <= |buffers|
    ensures forall i :: 0 <= i < n ==> buffers[i] != []
    ensures n < |buffers| ==> buffers[n] == []
    decreases |buffers|
  {
    if buffers == [] || buffers[0] == [] then 0 else 1 + FirstEmpty(buffers[1..])
  }

  /** What a read-until-empty copy writes when successive `read()` calls return `buffers`. */
  function Copied(buffers: seq<seq<byte>>): seq<byte> {
    Concat(buffers[..FirstEmpty(buffers)])
  }

  /** An independent reading of the copy: the first read's bytes, then the copy of the rest, up to an empty read. */
  function Drained(buffers: seq<seq<byte>>): seq<byte>
    decreases |buffers|
  {
    if buffers == [] || buffers[0] == [] then [] else buffers[0] + Drained(buffers[1..])
  }

  lemma {:induction false} ConcatCons(head: seq<byte>, rest: seq<seq<byte>>)
    ensures Concat([head] + rest) == head + Concat(rest)
    decreases |rest|
  {
    if rest != [] {
      var front := rest[..|rest| - 1];
      assert ([head] + rest)[..|rest|] == [head] + front;
      ConcatCons(head, front);
    }
  }

  /** The bytes stored are the non-empty reads before the first empty one, in order. */
  lemma {:induction false} CopiedIsDrained(buffers: seq<seq<byte>>)
    ensures Copied(buffers) == Drained(buffers)
    decreases |buffers|
  {
    if buffers != [] && buffers[0] != [] {
      CopiedIsDrained(buffers[1..]);
      var n := FirstEmpty(buffers);
      assert buffers[..n] == [buffers[0]] + buffers[1..][..n - 1];
      ConcatCons(buffers[0], buffers[1..][..n - 1]);
    }
  }

  class Driver {
    const kind: DriverKind
    /** The dictionary the driver was constructed with; start-up adds defaults to it afterwards. */
    const config: Config
    /** The files of the directory `file_location`, or the objects of the bucket `S3_BUCKET`. */
    var objects: map<string, seq<byte>>

    /** The configuration the driver's operations look up is present. */
    predicate Ready()
      reads this, config
    {
      match kind
      case FileSystem => "file_location" in config.entries
      case _ => "S3_BUCKET" in config.entries && config.entries["S3_BUCKET"].Str?
    }

    function Bucket(): string
      requires kind != FileSystem && Ready()
      reads this, config
    {
      config.entries["S3_BUCKET"].s
    }

    constructor (kind: DriverKind, config: Config, objects: map<string, seq<byte>>)
      ensures this.kind == kind && this.config == config && this.objects == objects
    {
      this.kind := kind;
      this.config := config;
      this.objects := objects;
    }

    /** `FileSystemStorageDriver.store`: opens the file afresh and appends each read until a read comes back empty. */
    method StoreFile(id: string, buffers: seq<seq<byte>>)
      modifies this
      ensures objects == old(objects)[id := Copied(buffers)]
    {
      objects := objects[id := []];
      var i := 0;
      while true
        invariant 0 <= i <= FirstEmpty(buffers)
        invariant objects == old(objects)[id := Concat(buffers[..i])]
        decreases |buffers| - i
      {
        var buf := if i < |buffers| then buffers[i] else [];
        if buf == [] {
          break;
        }
        assert buffers[..i + 1][..i] == buffers[..i];
        objects := objects[id := objects[id] + buf];
        i := i + 1;
      }
    }

    /**
     * `store(id, file)`: a mediated driver stores what it reads from the stream under `id`;
     * the extern driver stores nothing and returns the flattened presigned post for `id`.
     */
    method Store(id: string, file: seq<seq<byte>>, presignPost: PresignRequest -> map<string, Json>)
      returns (descriptor: Option<map<string, Json>>)
      requires Ready()
      requires kind == S3Extern ==> IsPresignedPost(presignPost(PresignRequest(PostObject, Bucket(), id, PresignValidity)))
      modifies this
      ensures kind == S3Extern ==>
        objects == old(objects) &&
        descriptor == Some(Flattened(presignPost(PresignRequest(PostObject, Bucket(), id, PresignValidity))))
      ensures kind != S3Extern ==> descriptor == None && objects == old(objects)[id := Copied(file)]
    {
      match kind
      case FileSystem =>
        StoreFile(id, file);
        descriptor := None;
      case S3 =>
        // upload_fileobj reads the stream until it is exhausted
        objects := objects[id := Copied(file)];
        descriptor := None;
      case S3Extern =>
        var d := FlattenFields(presignPost(PresignRequest(PostObject, Bucket(), id, PresignValidity)));
        descriptor := Some(d);
    }

    /**
     * `get(id)`: the bytes of a stored object (nothing when the file or object is missing,
     * where the driver raises), or for the extern driver the presigned download URL.
     */
    method Get(id: string, presignUrl: PresignRequest -> string) returns (r: Option<Fetched>)
      requires Ready()
      ensures kind == S3Extern ==> r == Some(Link(presignUrl(PresignRequest(GetObject, Bucket(), id, PresignValidity))))
      ensures kind != S3Extern ==> (r.Some? <==> id in objects)
      ensures kind != S3Extern && r.Some? ==> r.value == Bytes(objects[id])
    {
      if kind == S3Extern {
        r := Some(Link(presignUrl(PresignRequest(GetObject, Bucket(), id, PresignValidity))));
      } else if id in objects {
        r := Some(Bytes(objects[id]));
      } else {
        r := None;
      }
    }

    /**
     * `delete(id)`: removes the object. `os.remove` raises for a missing file (`ok` is
     * false); S3's `delete_object` succeeds whether or not the object exists.
     */
    method Delete(id: string) returns (ok: bool)
      requires Ready()
      modifies this
      ensures ok <==> !(kind == FileSystem && id !in old(objects))
      ensures objects == old(objects) - {id}
    {
      ok := !(kind == FileSystem && id !in objects);
      objects := objects - {id};
    }
  }

  /** `config['storage_driver'](config)` for a driver class: a new driver, or null when the constructor raises. */
  method Construct(kind: DriverKind, config: Config, reachable: bool, existing: map<string, seq<byte>>)
    returns (s: Driver?)
    ensures s == null <==> !Constructs(kind, config.entries, reachable)
    ensures s != null ==> fresh(s) && s.kind == kind && s.config == config && s.objects == existing
  {
    if Constructs(kind, config.entries, reachable) {
      s := new Driver(kind, config, existing);
    } else {
      s := null;
    }
  }
}
