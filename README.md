# filetransfer: the expiring-file lifecycle

This project is a Dafny model of the expiring-file service `filetransfer`.
Each upload gets a random identifier. That identifier is reserved in a Redis metadata index with a time-to-live.
The file's bytes go to a storage driver: a directory, or an S3 bucket the service streams to.
The third kind of driver, the "extern" S3 driver, only presigns requests; the client uploads and downloads on its own.
A watcher subscribed to Redis' expired-key events deletes the bytes once the identifier expires.

The model has one module per source file, plus helpers:

- `MetadataIndex` (`metadata_index.dfy`): the Redis contract the service relies on. It is a `Redis` class holding a map from key to (value, expiry time) and a clock. It offers `SET NX EX`, `SET EX`, `GET`, the clock advancing, and the removal of an expired key with its event.
- `Storage` (`storage.dfy`, for `storage.py`): the three driver classes as one `Driver` class tagged by `DriverKind`. Its parts:
  - the driver's byte store is the field `objects`;
  - the read-until-empty copy loop of the filesystem driver;
  - the `fields` flattening loop of the extern driver;
  - the constant `extern` flags and the `required_config` defaults;
  - construction, which fails when the S3 driver cannot connect.
- `App` (`app.dfy`, for `app.py`): `FileTransferApp` with its four handlers. The identifier reservation loop runs over an oracle sequence of candidate keys. Download resolution covers the 404, extern, full-body, 206 and 416 paths.
- `Start` (`start.py`): `check_config` mutates a shared `Config` object in place. `message_handler` is modelled twice: as written, and with the missing-file exception caught (see Findings).
- `Lifecycle`: composed runs. These are start-up; upload, serve, expire and delete; the 1024-byte `report.pdf` served with `Range: bytes=0-99`; two uploads never sharing an identifier; and the upload without a file part that kills the watcher.
- `Strings` and `Wrappers`: Python's `str()` of an integer, `str.endswith`, and `Option`.

Where the code and its documentation disagree, the model follows the code:
- the extern upload descriptor does not carry a `file-name` entry, because `store` adds none;
- a failed delete in the watcher is not swallowed;
- an extern download answers 200 with the URL as its body rather than redirecting.

## Model

| member | source | states |
|---|---|---|
| MetadataIndex.Redis.SetIfAbsent | app.py:39 | stores the value with expiry `now + ttl` iff the key holds no live value, and reports whether it did; otherwise the index is unchanged |
| MetadataIndex.Redis.Set | app.py:60-61 | replaces the key's value and expiry unconditionally; the clock is unchanged |
| MetadataIndex.Redis.Get | app.py:26 | returns a value exactly when the key is present and its expiry time has not been reached, and then the stored value |
| MetadataIndex.Redis.Expire | start.py:49 | an event carrying the key's name is produced exactly when the key is present and expired; the key is then removed, otherwise nothing changes |
| Strings.NatToString | app.py:91 | `str(n)` of a natural is non-empty and ends in a decimal digit |
| Strings.NatToStringDigits | app.py:91 | every character of `str(n)` is a decimal digit |
| Strings.NatToStringRoundTrip | app.py:91 | reading the digits of `str(n)` back gives `n` |
| Strings.IntToString | app.py:64 | `str(h)` of any integer hash is non-empty and ends in a digit |
| Strings.IntToStringInjective | app.py:64 | distinct hashes give distinct key strings |
| Strings.IntKeyIsNotSecondary | start.py:35 | a key `str(h)` ends with neither `-t` nor `-l` |
| Strings.SecondaryKeyHasSuffix | app.py:60-61 | the keys `id + "-t"` and `id + "-l"` end with their suffix |
| Storage.Extern | storage.py:110-112 | `extern` is true exactly for the extern S3 driver; it is false for the filesystem driver and the base class (storage.py:39-41) and for the mediated S3 driver (storage.py:155-157) |
| Storage.RequiredConfig | storage.py:103-108 | the filesystem driver requires `file_location`, default `files` (storage.py:63-64); both S3 drivers require the five S3 keys, `S3_BUCKET` defaulting to `file_transfer` and the rest to the empty string (also storage.py:148-153) |
| Storage.Flattened | storage.py:89-92 | every form field of `fields` appears at top level with its value; `fields` is gone; every other entry keeps its value unless a form field of that name replaces it |
| Storage.FlattenFields | storage.py:90-92 | the copy-up loop followed by `del` yields exactly the flattened descriptor |
| Storage.FirstEmpty | storage.py:52-54 | the position of the first empty read: every earlier read is non-empty, and the read at that position is empty when it exists |
| Storage.CopiedIsDrained | storage.py:52-55 | what the copy loop writes is the in-order concatenation of the non-empty reads before the first empty one |
| Storage.Driver.StoreFile | storage.py:48-55 | the file `id` holds exactly the concatenation of the reads before the first empty read; no other file changes |
| Storage.Driver.Store | storage.py:88-93 | a mediated driver stores the copied bytes under `id` and returns nothing; the extern driver stores nothing and returns the flattened presigned post for bucket `S3_BUCKET`, key `id`, 60 seconds |
| Storage.Driver.Get | storage.py:98-101 | the extern driver returns the presigned download URL (bucket, key, 60 seconds); a mediated driver returns the object's bytes exactly when it exists (storage.py:60-61, 142-145) |
| Storage.Driver.Delete | storage.py:57-58 | removes the object; fails exactly for the filesystem driver and a missing file (S3 `delete_object` always succeeds, storage.py:139-140) |
| Storage.Construct | start.py:21 | a driver is returned exactly when construction succeeds; it shares the configuration object and sees the backend's existing objects |
| App.FirstFree | app.py:39-40 | the first candidate whose key holds no live value: all earlier candidates are live |
| App.FirstFreeIsFirst | app.py:56-57 | a free candidate preceded only by live ones is the one the reservation picks |
| App.Slice | app.py:92 | the range body has at most `count` bytes: exactly the bytes `[offset, offset + count)` when they lie inside the object, the bytes from `offset` to the end when the range runs past it, and none when `offset` is at or past the end |
| App.PartialReply | app.py:85-93 | with a range header: 416 when no range parsed; 500 when the stored length is not a number; otherwise 206 with `Content-Range` and `Content-Length` for the first range and its slice as the body |
| App.FileTransferApp.ReserveId | app.py:52-57 | the loop ends on the first candidate that was absent or expired, stores the name under it for 600 seconds, and leaves every live key as it was |
| App.FileTransferApp.FileHandler | app.py:24-29 | the file page with the stored name and the driver's `extern` flag while the identifier is live; 404 otherwise |
| App.FileTransferApp.GetUploadUrl | app.py:31-43 | a mediated driver aborts with 500 and the index unchanged; a missing `name` fails with 500; otherwise the name, or `name` when empty, is reserved and the driver's descriptor for that identifier is returned unchanged |
| App.FileTransferApp.UploadHandler | app.py:46-66 | an extern driver aborts with the index unchanged; without a file part the identifier is reserved under `name` and the request fails; otherwise the name is kept for 600 s and type and length for 610 s, the bytes are stored under the identifier, and the identifier is the body |
| App.FileTransferApp.FileDownloadHandler | app.py:68-95 | 404 unless live; the presigned URL for the extern driver; otherwise the four headers with the full body, or with a range header 416 for an empty parse, else 206 with `Content-Range: bytes o-(e-1)/clen`, `Content-Length: e-o` and the slice `[o, e)` |
| Start.WithDefaults | start.py:12-17 | every key of either map is present; present keys keep their value; missing keys take the default |
| Start.WithDefaultsCharacterised | start.py:28-30 | a map with every key of either input, the configuration's values kept and the missing keys defaulted is exactly the merge: the merge is determined by those three properties |
| Start.FillStartupDefaults | start.py:12-17 | `redis_host` becomes `localhost`, `redis_port` `6379` and `storage_driver` the filesystem driver, each only when missing |
| Start.MergeDefaults | start.py:28-30 | the merge loop adds exactly the missing keys with their defaults |
| Start.CheckConfig | start.py:11-30 | defaults are merged for the start-up keys, then the driver is constructed from that configuration; on failure the exit code is 2 and nothing else is merged; on success the driver's defaults are merged into the shared configuration and the driver is ready |
| Start.MessageHandler | start.py:32-36 | deletes exactly when the event is a `pmessage` for a key ending in neither `-t` nor `-l`; raises exactly when that delete is a filesystem delete of a missing file |
| Start.MessageHandlerTolerant | start.py:32-36 | the same deletions, and the handler never raises |
| Start.ExpiryDispatch | start.py:34-36 | the expiry of a hash key `str(h)` triggers a delete; the expiry of its `-t` or `-l` key does not |
| Lifecycle.HashKeyIsNotAttribute | app.py:60-61 | a hash key never coincides with another identifier's attribute key |
| Lifecycle.StartService | start.py:38-53 | a running service exists exactly when the exit code is not 2; it has an empty index, a ready driver and the shared configuration, which then holds the start-up defaults and the driver's defaults; on exit it holds only the start-up defaults |
| Lifecycle.UploadAndServe | app.py:63-94 | after an upload the download serves the stored bytes with the stored name, type and length |
| Lifecycle.ExpirePrimary | app.py:70-71 | 600 seconds after the upload both routes answer 404 while the attribute keys are still live; the handler as written deletes exactly the upload's object and does not raise when that object exists |
| Lifecycle.ExpireAttributes | app.py:60-61 | 10 seconds later the attribute keys expire; the handler as written deletes no object and does not raise |
| Lifecycle.UploadKeysRemoved | app.py:59-61 | removing the three keys of an upload after writing them leaves the rest of the index as it was |
| Lifecycle.UploadExpireDelete | app.py:46-66 | the whole run with the handler as written: the identifier was free, the upload is served while live, then 404, no event makes the handler raise, and finally none of its keys and not its bytes remain |
| Lifecycle.FirstHundredOfKilobyte | app.py:90-91 | the range `[0, 100)` of 1024 bytes gives `bytes 0-99/1024` and length `100` |
| Lifecycle.SingleReadCopied | storage.py:52-55 | a stream whose first read returns all of its bytes is copied exactly |
| Lifecycle.UploadReport | app.py:46-66 | after uploading `report.pdf` the page names it, and the index holds its name, `application/pdf` and 1024 |
| Lifecycle.FirstHundredOfReport | app.py:84-93 | `Range: bytes=0-99` on the stored report gives 206, its first 100 bytes, `bytes 0-99/1024`, length `100` and type `application/pdf` |
| Lifecycle.ReportScenario | app.py:84-93 | `report.pdf` served with `Range: bytes=0-99` gives 206, its first 100 bytes, `Content-Range: bytes 0-99/1024`, `Content-Length: 100` and type `application/pdf` |
| Lifecycle.SequentialUploadsDiffer | app.py:56-57 | two uploads in a row get distinct identifiers, and each one's bytes stay under its own identifier |
| Lifecycle.MissingFileCrashesWatcher | start.py:36 | an upload without a file part fails, and the expiry of its identifier makes the handler, as written, raise |
| Lifecycle.MissingFileTolerated | start.py:36 | the same run with the tolerant handler: the watcher survives, and the only change to the store is that identifier's removal |

## Left out

- `hash(datetime.now().timestamp() + random())` is replaced by an oracle sequence of candidate keys. The requirement that some candidate is free (`HasFreeCandidate`) stands in for the random source eventually producing an unused hash. The real loop has no such bound.
- The Redis connection, `config_set`, the pubsub subscription and `run_in_thread` (start.py:40-53) are network I/O and a thread. Expiry is the explicit step `Redis.Expire`, not time-driven or lazy on read. The failed Redis connection exit (start.py:40-45) is not modelled.
- The boto3 calls and the file system are the map `objects` and two presign oracles. The bucket listing check in the S3 constructors (storage.py:81-86) becomes the `reachable` parameter.
- `S3_ACCESS_ID` looked up at storage.py:75 and storage.py:123, while the defaults name `S3_ACCESS_KEY`: the model requires `S3_ACCESS_KEY`.
- `StorageDriver.__subclasshook__` (storage.py:11-21) is runtime reflection.
- Bottle's routing, `template`, `static_file`, `index_handler` and the static, webfont, about and 404 handlers (app.py:20-22, 97-111) are glue. `Page` carries the template arguments, with the `extern` string as a boolean.
- `parse_range_header` is an input: the parsed list of ranges. `_file_iter_range` is `Slice`. The S3 mediated driver returns bytes, which `_file_iter_range` cannot seek in; the model slices them anyway.
- The content length read back from Redis is a byte string in the source, which `parse_range_header` and `%d` cannot use. The model keeps it as a number; a missing or non-numeric length on the range path is a 500.
- Bottle's `FileUpload.filename` sanitising, the `-1` content length of a part without one, and `str(file_name, 'utf-8')` decoding are not modelled. Names and lengths are taken as given.
- Header values read back from the index follow Bottle's header conversion: stored bytes are decoded, and a missing attribute key (`None`) becomes an empty header (`Render`). A Bottle that formats headers with `str()` would print `None` and `b'...'` instead; that reading is not modelled.
- `json.dumps` (storage.py:93): the descriptor stays a dictionary.
- `logging` and the process exit: `CheckConfig` returns the exit code instead of exiting.
- Concurrency: two requests racing on a candidate are modelled as two sequential reservations, since `SET NX` is atomic.

## Findings

| source | as written | input that shows it | evidently intended | confidence | as-written member | corrected member |
|---|---|---|---|---|---|---|
| start.py:36 | `message_handler` calls `s.delete(data)` unguarded. `FileSystemStorageDriver.delete` (storage.py:58) raises `FileNotFoundError` for a missing file, and the exception ends the `run_in_thread` worker, so no later expiry deletes anything | `POST /u` without a `file` part on the filesystem driver: the identifier is reserved but no file is written; 600 seconds later its expiry event arrives | a delete of a missing object is ignored and the watcher keeps running | not executed | Lifecycle.MissingFileCrashesWatcher | Start.MessageHandlerTolerant |
