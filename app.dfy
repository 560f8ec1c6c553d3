/**
 * The request handlers of `FileTransferApp`: identifier reservation and upload
 * bookkeeping in the metadata index, and download resolution with single-range
 * responses. Bottle's routing and templates are not modelled; each handler takes
 * the parts of the request it reads and returns the response it produces.
 */
module App {
  import opened Wrappers
  import opened Strings
  import opened MetadataIndex
  import opened Storage

  datatype Body =
    | TextBody(text: string)
    | ByteBody(data: seq<byte>)
    | UrlBody(url: string)
    | JsonBody(json: map<string, Json>)

  datatype Response =
    /** The `file.html` page for a live identifier. */
    | Page(fileName: string, id: string, extern: bool)
    | Error(status: nat, message: string)
    | Reply(status: nat, headers: map<string, string>, body: Body)

  const NotFound := Error(404, "File does not exist!")
  /** `abort()` with no arguments. */
  const WrongMode := Error(500, "Unknown Error.")
  /** An exception escaping a handler, which Bottle answers with a server error. */
  const InternalError := Error(500, "Internal Server Error")
  const RangeNotSatisfiable := Error(416, "Requested Range Not Satisfiable")

  /** The multipart `file` part of an upload request: its name, type, declared length and the buffers `read()` returns. */
  datatype Upload = Upload(filename: string, contentType: string, contentLength: nat, buffers: seq<seq<byte>>)

  /** One pair produced by the range parser: `offset` included, `end` excluded. */
  datatype ByteRange = ByteRange(offset: nat, end: nat)

  /**
   * How a value read back from the index becomes a header value: Bottle's header
   * conversion decodes stored text and turns a missing value (`None`) into the empty
   * string.
   */
  function Render(v: Option<Value>): string {
    match v
    case None => ""
    case Some(Text(s)) => s
    case Some(Count(n)) => NatToString(n)
  }

  /** Some candidate identifier is free: the random source eventually produces an unused hash. */
  predicate HasFreeCandidate(entries: map<Key, Entry>, now: int, candidates: seq<Key>) {
    exists j :: 0 <= j < |candidates| && !IsLive(entries, now, candidates[j])
  }

  /** The position of the first candidate, from `from` on, whose key holds no live value. */
  function FirstFree(entries: map<Key, Entry>, now: int, candidates: seq<Key>, from: nat): (i: nat)
    requires from <= |candidates|
    requires exists j :: from <= j < |candidates| && !IsLive(entries, now, candidates[j])
    ensures from <= i < |candidates|
    ensures !IsLive(entries, now, candidates[i])
    ensures forall j :: from <= j < i ==> IsLive(entries, now, candidates[j])
    decreases |candidates| - from
  {
    if !IsLive(entries, now, candidates[from]) then from
    else FirstFree(entries, now, candidates, from + 1)
  }

  /** A candidate preceded only by live keys and itself free is the one `FirstFree` picks. */
  lemma {:induction false} FirstFreeIsFirst(entries: map<Key, Entry>, now: int, candidates: seq<Key>, from: nat, i: nat)
    requires from <= i < |candidates|
    requires forall j :: from <= j < i ==> IsLive(entries, now, candidates[j])
    requires !IsLive(entries, now, candidates[i])
    ensures FirstFree(entries, now, candidates, from) == i
    decreases i - from
  {
    if from < i {
      FirstFreeIsFirst(entries, now, candidates, from + 1, i);
    }
  }

  /** The headers of a mediated download before any range is applied. */
  function DownloadHeaders(fileName: string, contentType: string, contentLength: string): map<string, string> {
    map["Content-Disposition" := "attachment; filename=\"" + fileName + "\"",
        "Content-Type" := contentType,
        "Content-Length" := contentLength,
        "Accept-Ranges" := "bytes"]
  }

  /** `"bytes %d-%d/%d" % (offset, end - 1, clen)`. */
  function ContentRange(offset: nat, end: nat, total: nat): string {
    "bytes " + NatToString(offset) + "-" + IntToString(end - 1) + "/" + NatToString(total)
  }

  /** `_file_iter_range(body, offset, count)`: up to `count` bytes from `offset`, stopping at the end of the object. */
  function Slice(data: seq<byte>, offset: nat, count: int): (r: seq<byte>)
    ensures |r| <= if count < 0 then 0 else count
    ensures 0 <= count && offset + count <= |data| ==> r == data[offset..offset + count]
    ensures 0 < count && offset <= |data| < offset + count ==> r == data[offset..]
    ensures |data| <= offset ==> r == []
  {
    var from := if offset < |data| then offset else |data|;
    var to := if count <= 0 then from else if offset + count < |data| then offset + count else |data|;
    data[from..to]
  }

  /**
   * The Range branch of the mediated download: 416 when no range parsed, a server
   * error when the stored length is not a number, otherwise 206 for the first range.
   */
  method PartialReply(headers: map<string, string>, body: seq<byte>, ranges: seq<ByteRange>, clen: Option<Value>)
    returns (r: Response)
    ensures ranges == [] ==> r == RangeNotSatisfiable
    ensures ranges != [] && !(clen.Some? && clen.value.Count?) ==> r == InternalError
    ensures ranges != [] && clen.Some? && clen.value.Count? ==>
      var o, e := ranges[0].offset, ranges[0].end;
      r == Reply(206, headers["Content-Range" := ContentRange(o, e, clen.value.n)]["Content-Length" := IntToString(e - o)],
                 ByteBody(Slice(body, o, e - o)))
  {
    if ranges == [] {
      return RangeNotSatisfiable;
    }
    if !(clen.Some? && clen.value.Count?) {
      // "%d" % clen raises for anything but a number
      return InternalError;
    }
    var offset, end := ranges[0].offset, ranges[0].end;
    var h := headers["Content-Range" := ContentRange(offset, end, clen.value.n)];
    h := h["Content-Length" := IntToString(end as int - offset as int)];
    var partial := Slice(body, offset, end as int - offset as int);
    r := Reply(206, h, ByteBody(partial));
  }

  class FileTransferApp {
    const index: Redis
    const storage: Driver

    constructor (index: Redis, storage: Driver)
      ensures this.index == index && this.storage == storage
    {
      this.index := index;
      this.storage := storage;
    }

    ghost predicate Valid()
      reads this, storage, storage.config
    {
      storage.Ready()
    }

    /**
     * Draws candidates until `SET h name EX 600 NX` succeeds: the identifier is the
     * first candidate whose key held no live value, and no live key is overwritten.
     */
    method ReserveId(name: Value, candidates: seq<Key>) returns (id: Key)
      requires HasFreeCandidate(index.entries, index.now, candidates)
      modifies index
      ensures id == candidates[FirstFree(old(index.entries), old(index.now), candidates, 0)]
      ensures !IsLive(old(index.entries), old(index.now), id)
      ensures index.now == old(index.now)
      ensures index.entries == old(index.entries)[id := Entry(name, index.now + PrimaryTtl)]
      ensures forall k :: IsLive(old(index.entries), old(index.now), k) ==>
        k in index.entries && index.entries[k] == old(index.entries)[k]
    {
      ghost var entries0, now0 := index.entries, index.now;
      ghost var target := FirstFree(entries0, now0, candidates, 0);
      var i := 0;
      id := candidates[0];
      var stored := index.SetIfAbsent(id, name, PrimaryTtl);
      while !stored
        invariant 0 <= i <= target && id == candidates[i]
        invariant index.now == now0
        invariant forall j :: 0 <= j < i ==> IsLive(entries0, now0, candidates[j])
        invariant stored <==> !IsLive(entries0, now0, id)
        invariant index.entries == if stored then entries0[id := Entry(name, now0 + PrimaryTtl)] else entries0
        decreases target - i
      {
        i := i + 1;
        id := candidates[i];
        stored := index.SetIfAbsent(id, name, PrimaryTtl);
      }
      FirstFreeIsFirst(entries0, now0, candidates, 0, i);
    }

    /** `GET /f/<id>`: the file page while the identifier is live, 404 otherwise. */
    method FileHandler(id: string) returns (r: Response)
      ensures IsLive(index.entries, index.now, id) ==>
        r == Page(Render(Some(index.entries[id].value)), id, Extern(storage.kind))
      ensures !IsLive(index.entries, index.now, id) ==> r == NotFound
    {
      var fileName := index.Get(id);
      if fileName.Some? {
        r := Page(Render(fileName), id, Extern(storage.kind));
      } else {
        r := NotFound;
      }
    }

    /**
     * `GET /u?name=...` (extern driver only): reserves an identifier under the given
     * name, or `name` when it is empty, and returns the driver's upload descriptor.
     */
    method GetUploadUrl(name: Option<string>, candidates: seq<Key>, presignPost: PresignRequest -> map<string, Json>)
      returns (r: Response)
      requires Valid()
      requires Extern(storage.kind) && name.Some? ==> HasFreeCandidate(index.entries, index.now, candidates)
      requires Extern(storage.kind) ==> forall q :: IsPresignedPost(presignPost(q))
      modifies index, storage
      ensures index.now == old(index.now) && storage.objects == old(storage.objects)
      ensures !Extern(storage.kind) || name.None? ==> index.entries == old(index.entries)
      ensures !Extern(storage.kind) ==> r == WrongMode
      ensures Extern(storage.kind) && name.None? ==> r == InternalError
      ensures Extern(storage.kind) && name.Some? ==>
        var id := candidates[FirstFree(old(index.entries), old(index.now), candidates, 0)];
        var fileName := if name.value == "" then "name" else name.value;
        && index.entries == old(index.entries)[id := Entry(Text(fileName), index.now + PrimaryTtl)]
        && r == Reply(200, map[], JsonBody(Flattened(presignPost(
             PresignRequest(PostObject, storage.Bucket(), id, PresignValidity)))))
    {
      if !Extern(storage.kind) {
        return WrongMode;
      }
      if name.None? {
        // request.query['name'] raises KeyError
        return InternalError;
      }
      var fileName := if name.value != "" then name.value else "name";
      var id := ReserveId(Text(fileName), candidates);
      var descriptor := storage.Store(id, [], presignPost);
      r := Reply(200, map[], JsonBody(descriptor.value));
    }

    /**
     * `POST /u` (mediated drivers only): reserves an identifier under the file's name,
     * stores its type and length for 610 seconds, stores its bytes under the
     * identifier and answers with the identifier.
     */
    method UploadHandler(file: Option<Upload>, candidates: seq<Key>) returns (r: Response)
      requires Valid()
      requires !Extern(storage.kind) ==> HasFreeCandidate(index.entries, index.now, candidates)
      modifies index, storage
      ensures index.now == old(index.now)
      ensures Extern(storage.kind) ==>
        r == WrongMode && index.entries == old(index.entries) && storage.objects == old(storage.objects)
      ensures !Extern(storage.kind) ==>
        var id := candidates[FirstFree(old(index.entries), old(index.now), candidates, 0)];
        var t := old(index.now);
        match file
        case None =>
          // f.content_type on None raises after the reservation
          && r == InternalError
          && index.entries == old(index.entries)[id := Entry(Text("name"), t + PrimaryTtl)]
          && storage.objects == old(storage.objects)
        case Some(f) =>
          && r == Reply(200, map[], TextBody(id))
          && index.entries == old(index.entries)[id := Entry(Text(f.filename), t + PrimaryTtl)]
                                                [id + "-t" := Entry(Text(f.contentType), t + SecondaryTtl)]
                                                [id + "-l" := Entry(Count(f.contentLength), t + SecondaryTtl)]
          && storage.objects == old(storage.objects)[id := Copied(f.buffers)]
    {
      if Extern(storage.kind) {
        return WrongMode;
      }
      var fileName := if file.Some? then file.value.filename else "name";
      var id := ReserveId(Text(fileName), candidates);
      if file.None? {
        return InternalError;
      }
      var f := file.value;
      index.Set(id + "-t", Text(f.contentType), SecondaryTtl);
      index.Set(id + "-l", Count(f.contentLength), SecondaryTtl);
      var _ := storage.Store(id, f.buffers, q => map[]);
      r := Reply(200, map[], TextBody(id));
    }

    /**
     * `GET /f/d/<id>`: 404 unless the identifier is live; the presigned URL for the
     * extern driver; otherwise the object with its headers, or with a Range header
     * the first parsed range (206) or 416 when no range parsed.
     */
    method FileDownloadHandler(id: string, range: Option<seq<ByteRange>>, presignUrl: PresignRequest -> string)
      returns (r: Response)
      requires Valid()
      ensures !IsLive(index.entries, index.now, id) ==> r == NotFound
      ensures IsLive(index.entries, index.now, id) && Extern(storage.kind) ==>
        r == Reply(200, map[], UrlBody(presignUrl(PresignRequest(GetObject, storage.Bucket(), id, PresignValidity))))
      ensures IsLive(index.entries, index.now, id) && !Extern(storage.kind) && id !in storage.objects ==>
        r == InternalError
      ensures IsLive(index.entries, index.now, id) && !Extern(storage.kind) && id in storage.objects ==>
        var data := storage.objects[id];
        var clen := Lookup(index.entries, index.now, id + "-l");
        var headers := DownloadHeaders(Render(Some(index.entries[id].value)),
                                       Render(Lookup(index.entries, index.now, id + "-t")), Render(clen));
        match range
        case None => r == Reply(200, headers, ByteBody(data))
        case Some(ranges) =>
          if ranges == [] then r == RangeNotSatisfiable
          else if !(clen.Some? && clen.value.Count?) then r == InternalError
          else
            var o, e := ranges[0].offset, ranges[0].end;
            r == Reply(206, headers["Content-Range" := ContentRange(o, e, clen.value.n)]
                                   ["Content-Length" := IntToString(e - o)],
                       ByteBody(Slice(data, o, e - o)))
    {
      var fileName := index.Get(id);
      if fileName.None? {
        return NotFound;
      }
      if Extern(storage.kind) {
        var link := storage.Get(id, presignUrl);
        return Reply(200, map[], UrlBody(link.value.url));
      }
      var headers: map<string, string> := map[];
      headers := headers["Content-Disposition" := "attachment; filename=\"" + Render(fileName) + "\""];
      var contentType := index.Get(id + "-t");
      headers := headers["Content-Type" := Render(contentType)];
      var clen := index.Get(id + "-l");
      headers := headers["Content-Length" := Render(clen)];
      var fetched := storage.Get(id, presignUrl);
      if fetched.None? {
        // open() or get_object raises for a missing object
        return InternalError;
      }
      var body := fetched.value.data;
      headers := headers["Accept-Ranges" := "bytes"];
      assert headers == DownloadHeaders(Render(fileName), Render(contentType), Render(clen));
      if range.Some? {
        r := PartialReply(headers, body, range.value, clen);
        return;
      }
      r := Reply(200, headers, ByteBody(body));
    }
  }
}
