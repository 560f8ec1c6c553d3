/**
 * The expiring-file lifecycle, composed from the handlers: start-up, an upload,
 * downloads while the identifier is live, the clock running past the primary
 * expiry, the expired-key event and the watcher's delete.
 */
module Lifecycle {
  import opened Wrappers
  import opened Strings
  import opened MetadataIndex
  import opened Storage
  import opened App
  import opened Start

  /** A hash key is never the content-type or content-length key of an identifier. */
  lemma HashKeyIsNotAttribute(k: Key, id: Key)
    requires IsHashKey(k)
    ensures k != id + "-t" && k != id + "-l"
  {
    ExpiryDispatch(k);
    SecondaryKeyHasSuffix(id);
  }

  /**
   * Start-up as the entry point runs it: `check_config`, then the Redis client, then
   * the application. A constructed service has a ready driver; otherwise the exit
   * code is 2 and no application exists.
   */
  method StartService(config: Config, reachable: bool, existing: map<string, seq<byte>>, clock: int)
    returns (app: FileTransferApp?, exitCode: Option<int>)
    modifies config
    ensures app == null <==> exitCode == Some(DriverFailureExit)
    ensures app != null ==>
      && exitCode == None && fresh(app) && fresh(app.index) && fresh(app.storage)
      && app.Valid() && app.index.entries == map[] && app.index.now == clock
      && app.storage.config == config && app.storage.objects == existing
      && config.entries == WithDefaults(WithDefaults(old(config.entries), StartupDefaults), RequiredConfig(app.storage.kind))
    ensures app == null ==> config.entries == WithDefaults(old(config.entries), StartupDefaults)
  {
    var s;
    s, exitCode := CheckConfig(config, reachable, existing);
    if s == null {
      return null, exitCode;
    }
    var r := new Redis(clock);
    app := new FileTransferApp(r, s);
  }

  /** A mediated upload, then a download while the identifier is live: the stored bytes with the stored name, type and length. */
  method UploadAndServe(app: FileTransferApp, f: Upload, candidates: seq<Key>, presignUrl: PresignRequest -> string)
    returns (id: Key, upload: Response, live: Response)
    requires app.Valid() && !Extern(app.storage.kind)
    requires HasFreeCandidate(app.index.entries, app.index.now, candidates)
    modifies app.index, app.storage
    ensures id == candidates[FirstFree(old(app.index.entries), old(app.index.now), candidates, 0)]
    ensures upload == Reply(200, map[], TextBody(id))
    ensures live == Reply(200, DownloadHeaders(f.filename, f.contentType, NatToString(f.contentLength)),
                          ByteBody(Copied(f.buffers)))
    ensures app.index.now == old(app.index.now)
    ensures app.index.entries == old(app.index.entries)[id := Entry(Text(f.filename), app.index.now + PrimaryTtl)]
                                                       [id + "-t" := Entry(Text(f.contentType), app.index.now + SecondaryTtl)]
                                                       [id + "-l" := Entry(Count(f.contentLength), app.index.now + SecondaryTtl)]
    ensures app.storage.objects == old(app.storage.objects)[id := Copied(f.buffers)]
  {
    upload := app.UploadHandler(Some(f), candidates);
    id := upload.body.text;
    assert |id + "-t"| != |id| && |id + "-l"| != |id| && (id + "-t")[|id| + 1] != (id + "-l")[|id| + 1];
    assert Lookup(app.index.entries, app.index.now, id + "-t") == Some(Text(f.contentType));
    assert Lookup(app.index.entries, app.index.now, id + "-l") == Some(Count(f.contentLength));
    live := app.FileDownloadHandler(id, None, presignUrl);
  }

  /**
   * The clock runs 600 seconds past an upload made at `start`: both routes answer 404
   * while the attribute keys are still live, and the expiry event of the identifier
   * makes the watcher, as written, delete exactly that object. The watcher survives
   * when that object exists.
   */
  method ExpirePrimary(app: FileTransferApp, id: Key, start: int, presignUrl: PresignRequest -> string)
    returns (page: Response, download: Response, outcome: Outcome)
    requires app.Valid() && !Extern(app.storage.kind) && IsHashKey(id)
    requires app.index.now == start
    requires id in app.index.entries && app.index.entries[id].expiresAt == start + PrimaryTtl
    requires id + "-t" in app.index.entries && app.index.entries[id + "-t"].expiresAt == start + SecondaryTtl
    requires id + "-l" in app.index.entries && app.index.entries[id + "-l"].expiresAt == start + SecondaryTtl
    modifies app.index, app.storage
    ensures page == NotFound && download == NotFound
    ensures app.index.now == start + PrimaryTtl
    ensures app.index.entries == old(app.index.entries) - {id}
    ensures IsLive(app.index.entries, app.index.now, id + "-t") && IsLive(app.index.entries, app.index.now, id + "-l")
    ensures app.storage.objects == old(app.storage.objects) - {id}
    ensures id in old(app.storage.objects) ==> outcome == Handled
  {
    app.index.Advance(PrimaryTtl);
    page := app.FileHandler(id);
    download := app.FileDownloadHandler(id, None, presignUrl);
    ExpiryDispatch(id);
    var event := app.index.Expire(id);
    var deleted;
    deleted, outcome := MessageHandler(app.storage, Message("pmessage", event.value));
  }

  /** Ten seconds later the attribute keys expire; their events, handled as written, delete nothing and raise nothing. */
  method ExpireAttributes(app: FileTransferApp, id: Key, start: int) returns (outcome: Outcome)
    requires app.Valid() && IsHashKey(id)
    requires app.index.now == start + PrimaryTtl
    requires id + "-t" in app.index.entries && app.index.entries[id + "-t"].expiresAt == start + SecondaryTtl
    requires id + "-l" in app.index.entries && app.index.entries[id + "-l"].expiresAt == start + SecondaryTtl
    modifies app.index, app.storage
    ensures app.index.now == start + SecondaryTtl
    ensures app.index.entries == old(app.index.entries) - {id + "-t", id + "-l"}
    ensures app.storage.objects == old(app.storage.objects)
    ensures outcome == Handled
  {
    ExpiryDispatch(id);
    app.index.Advance(SecondaryTtl - PrimaryTtl);
    var typeEvent := app.index.Expire(id + "-t");
    var deleted, typeOutcome := MessageHandler(app.storage, Message("pmessage", typeEvent.value));
    var lengthEvent := app.index.Expire(id + "-l");
    deleted, outcome := MessageHandler(app.storage, Message("pmessage", lengthEvent.value));
    assert typeOutcome == Handled;
  }

  /** Removing an upload's three keys after writing them leaves the index as if they had never been written. */
  lemma UploadKeysRemoved(entries: map<Key, Entry>, id: Key, primary: Entry, contentType: Entry, contentLength: Entry)
    ensures entries[id := primary][id + "-t" := contentType][id + "-l" := contentLength] - {id} - {id + "-t", id + "-l"}
         == entries - {id, id + "-t", id + "-l"}
  {
  }

  /**
   * One mediated upload from start to end: reserve, serve, expire, delete, with the
   * watcher's handler as written. Afterwards the index holds none of the upload's keys,
   * the store no longer holds its bytes, and no event made the handler raise.
   */
  method UploadExpireDelete(app: FileTransferApp, f: Upload, candidates: seq<Key>, presignUrl: PresignRequest -> string)
    returns (id: Key, upload: Response, live: Response, expiredPage: Response, expiredDownload: Response, watcher: Outcome)
    requires app.Valid() && !Extern(app.storage.kind)
    requires HasFreeCandidate(app.index.entries, app.index.now, candidates)
    requires forall j :: 0 <= j < |candidates| ==> IsHashKey(candidates[j])
    modifies app.index, app.storage
    ensures id == candidates[FirstFree(old(app.index.entries), old(app.index.now), candidates, 0)]
    ensures !IsLive(old(app.index.entries), old(app.index.now), id)
    ensures upload == Reply(200, map[], TextBody(id))
    ensures live == Reply(200, DownloadHeaders(f.filename, f.contentType, NatToString(f.contentLength)),
                          ByteBody(Copied(f.buffers)))
    ensures expiredPage == NotFound && expiredDownload == NotFound
    ensures app.index.now == old(app.index.now) + SecondaryTtl
    ensures app.index.entries == old(app.index.entries) - {id, id + "-t", id + "-l"}
    ensures app.storage.objects == old(app.storage.objects) - {id}
    ensures watcher == Handled
  {
    var start := app.index.now;
    id, upload, live := UploadAndServe(app, f, candidates, presignUrl);
    assert IsHashKey(id);
    assert |id + "-t"| != |id| && |id + "-l"| != |id| && (id + "-t")[|id| + 1] != (id + "-l")[|id| + 1];
    ghost var afterUpload := app.index.entries;
    var primaryOutcome;
    expiredPage, expiredDownload, primaryOutcome := ExpirePrimary(app, id, start, presignUrl);
    assert primaryOutcome == Handled;
    watcher := ExpireAttributes(app, id, start);
    UploadKeysRemoved(old(app.index.entries), id, afterUpload[id], afterUpload[id + "-t"], afterUpload[id + "-l"]);
  }

  /**
   * A filesystem upload request without a file part on a fresh directory: the
   * identifier is reserved, the request fails, and when the identifier expires the
   * handler as written raises from `os.remove`, which ends the watcher thread.
   */
  method MissingFileCrashesWatcher(app: FileTransferApp, candidates: seq<Key>)
    returns (upload: Response, outcome: Outcome)
    requires app.Valid() && app.storage.kind == FileSystem && app.storage.objects == map[]
    requires HasFreeCandidate(app.index.entries, app.index.now, candidates)
    requires forall j :: 0 <= j < |candidates| ==> IsHashKey(candidates[j])
    modifies app.index, app.storage
    ensures upload == InternalError
    ensures outcome == Raised
  {
    var entries0, now0 := app.index.entries, app.index.now;
    upload := app.UploadHandler(None, candidates);
    // the identifier the reservation chose, which the expiry event will carry
    var id := candidates[FirstFree(entries0, now0, candidates, 0)];
    app.index.Advance(PrimaryTtl);
    ExpiryDispatch(id);
    var event := app.index.Expire(id);
    var deleted;
    deleted, outcome := MessageHandler(app.storage, Message("pmessage", event.value));
  }

  /** The same request with the tolerant handler: the watcher survives, and the only change to the directory is that no file remains under the identifier. */
  method MissingFileTolerated(app: FileTransferApp, candidates: seq<Key>)
    returns (upload: Response, outcome: Outcome)
    requires app.Valid() && app.storage.kind == FileSystem
    requires HasFreeCandidate(app.index.entries, app.index.now, candidates)
    requires forall j :: 0 <= j < |candidates| ==> IsHashKey(candidates[j])
    modifies app.index, app.storage
    ensures upload == InternalError
    ensures outcome == Handled
    ensures app.storage.objects == old(app.storage.objects) - {candidates[FirstFree(old(app.index.entries), old(app.index.now), candidates, 0)]}
  {
    var entries0, now0 := app.index.entries, app.index.now;
    upload := app.UploadHandler(None, candidates);
    // the identifier the reservation chose, which the expiry event will carry
    var id := candidates[FirstFree(entries0, now0, candidates, 0)];
    app.index.Advance(PrimaryTtl);
    ExpiryDispatch(id);
    var event := app.index.Expire(id);
    var deleted;
    deleted, outcome := MessageHandlerTolerant(app.storage, Message("pmessage", event.value));
  }

  /** The headers of the first hundred bytes of a 1024-byte object. */
  lemma FirstHundredOfKilobyte()
    ensures ContentRange(0, 100, 1024) == "bytes 0-99/1024"
    ensures IntToString(100 - 0) == "100"
  {
  }

  /** A stream whose first read returns everything copies exactly that. */
  lemma SingleReadCopied(data: seq<byte>)
    requires data != []
    ensures Copied([data]) == data
  {
    assert FirstEmpty([data]) == 1 + FirstEmpty([data][1..]);
    assert [data][..1] == [data];
    assert Concat([data]) == Concat([]) + data;
  }

  /** `report.pdf`, 1024 bytes of type `application/pdf`, uploaded in one read: the page names the file. */
  method UploadReport(app: FileTransferApp, data: seq<byte>, candidates: seq<Key>, presignUrl: PresignRequest -> string)
    returns (id: Key, page: Response)
    requires app.Valid() && !Extern(app.storage.kind) && |data| == 1024
    requires HasFreeCandidate(app.index.entries, app.index.now, candidates)
    modifies app.index, app.storage
    ensures page == Page("report.pdf", id, false)
    ensures Lookup(app.index.entries, app.index.now, id) == Some(Text("report.pdf"))
    ensures Lookup(app.index.entries, app.index.now, id + "-t") == Some(Text("application/pdf"))
    ensures Lookup(app.index.entries, app.index.now, id + "-l") == Some(Count(1024))
    ensures id in app.storage.objects && app.storage.objects[id] == data
  {
    var f := Upload("report.pdf", "application/pdf", 1024, [data]);
    var upload, live;
    id, upload, live := UploadAndServe(app, f, candidates, presignUrl);
    SingleReadCopied(data);
    assert |id + "-t"| != |id| && |id + "-l"| != |id| && (id + "-t")[|id| + 1] != (id + "-l")[|id| + 1];
    page := app.FileHandler(id);
  }

  /** `Range: bytes=0-99` on the stored report: 206 with the first hundred bytes and their headers. */
  method FirstHundredOfReport(app: FileTransferApp, id: Key, data: seq<byte>, presignUrl: PresignRequest -> string)
    returns (partial: Response)
    requires app.Valid() && !Extern(app.storage.kind) && |data| == 1024
    requires Lookup(app.index.entries, app.index.now, id) == Some(Text("report.pdf"))
    requires Lookup(app.index.entries, app.index.now, id + "-t") == Some(Text("application/pdf"))
    requires Lookup(app.index.entries, app.index.now, id + "-l") == Some(Count(1024))
    requires id in app.storage.objects && app.storage.objects[id] == data
    ensures partial.Reply? && partial.status == 206 && partial.body == ByteBody(data[..100])
    ensures "Content-Range" in partial.headers && partial.headers["Content-Range"] == "bytes 0-99/1024"
    ensures "Content-Length" in partial.headers && partial.headers["Content-Length"] == "100"
    ensures "Content-Type" in partial.headers && partial.headers["Content-Type"] == "application/pdf"
  {
    FirstHundredOfKilobyte();
    partial := app.FileDownloadHandler(id, Some([ByteRange(0, 100)]), presignUrl);
  }

  /**
   * The report run: upload, the page, then `Range: bytes=0-99` yields 206 with the first
   * hundred bytes, `Content-Range: bytes 0-99/1024` and `Content-Length: 100`.
   */
  method ReportScenario(app: FileTransferApp, data: seq<byte>, candidates: seq<Key>, presignUrl: PresignRequest -> string)
    returns (id: Key, page: Response, partial: Response)
    requires app.Valid() && !Extern(app.storage.kind) && |data| == 1024
    requires HasFreeCandidate(app.index.entries, app.index.now, candidates)
    modifies app.index, app.storage
    ensures page == Page("report.pdf", id, false)
    ensures partial.Reply? && partial.status == 206 && partial.body == ByteBody(data[..100])
    ensures "Content-Range" in partial.headers && partial.headers["Content-Range"] == "bytes 0-99/1024"
    ensures "Content-Length" in partial.headers && partial.headers["Content-Length"] == "100"
    ensures "Content-Type" in partial.headers && partial.headers["Content-Type"] == "application/pdf"
  {
    id, page := UploadReport(app, data, candidates, presignUrl);
    partial := FirstHundredOfReport(app, id, data, presignUrl);
  }

  /**
   * Two mediated uploads in a row never share an identifier, so the second never
   * replaces the first one's bytes: the first identifier is live when the second
   * reservation runs, and its attribute keys cannot collide with a hash key.
   */
  method SequentialUploadsDiffer(app: FileTransferApp, f1: Upload, f2: Upload, first: seq<Key>, second: seq<Key>)
    returns (id1: Key, id2: Key)
    requires app.Valid() && !Extern(app.storage.kind)
    requires HasFreeCandidate(app.index.entries, app.index.now, first)
    requires forall j :: 0 <= j < |second| ==> IsHashKey(second[j])
    requires exists j :: 0 <= j < |second| && !IsLive(app.index.entries, app.index.now, second[j]) && second[j] !in first
    modifies app.index, app.storage
    ensures id1 != id2
    ensures app.storage.objects == old(app.storage.objects)[id1 := Copied(f1.buffers)][id2 := Copied(f2.buffers)]
  {
    var r1 := app.UploadHandler(Some(f1), first);
    id1 := r1.body.text;
    ghost var j :| 0 <= j < |second| && !IsLive(old(app.index.entries), old(app.index.now), second[j]) && second[j] !in first;
    HashKeyIsNotAttribute(second[j], id1);
    assert !IsLive(app.index.entries, app.index.now, second[j]);
    assert IsLive(app.index.entries, app.index.now, id1) by {
      assert |id1 + "-t"| != |id1| && |id1 + "-l"| != |id1|;
    }
    var r2 := app.UploadHandler(Some(f2), second);
    id2 := r2.body.text;
  }
}
