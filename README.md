# apparat upload → tag → index pipeline, in Dafny

This project models the core of apparat, a media storage gateway written in Go.

- **IO server.** It accepts uploads as a single stream or as a multipart form. It routes each part by content type:
  - `audio/` and `video/` go to a transcoder;
  - everything else goes straight into the object store, in a bucket chosen by the declared size.

  It answers with one reply record per stored part. It also serves downloads and metadata by key.
- **Aggregator.** It forwards an upload to the IO server and derives tags for the first reply: the date, `all`, and media tags. It then asks the index service to record the file under those tags.
- **Index service.** It keeps one MySQL table per (user, tag) pair. Tables are provisioned lazily and registered in a per-user `meta` table. Files are stored with replace-by-name upserts and can be listed per tag.

Storage keys are derived per user. A key is the base64url encoding (section 5 of RFC 4648) of a 64-byte SHAKE256 digest of `username NUL key`. Metadata keys are the same derivation applied to `"meta" NUL key`.

## Modules

| module | file | models |
|---|---|---|
| `Basics` | basics.dfy | Option/Result, Go integer widths, decimal text |
| `Records` | records.dfy | the reply record and its media tracks |
| `KeyModifier` | key_modifier.dfy | `MetaModifier`, `UsernameModifier`, base64url with `=` padding |
| `ErrorContext` | error_context.dfy | the per-request error list (`NewError`, `Error.Error`) |
| `Cookie` | cookie.dfy | authentication cookie creation, checking and storing |
| `IndexRequests` | index_requests.dfy | the index request and its grouping by tag |
| `IndexStore` | index_store.dfy | the per-user MySQL tables as abstract state |
| `TagIndex` | tag_index.dfy | the index service's `Indexer` |
| `ObjectIO` | object_io.dfy | `IOCtl` and the mutable `uploader` of the IO service |
| `IoServer` | io_server.dfy | the IO server's flag parsing and HTTP handlers |
| `AggregatorService` | aggregator_service.dfy | the aggregator service's `Indexer.Forward` |
| `AggregatorServer` | aggregator_server.dfy | the older aggregator server's `Indexer.forward` and `Forwarder.forward` |

### How the model is put together

- **Collaborators.** Outside collaborators are values passed in or held in `const` fields: the object store, the transcoder, the bucket selector, the clock, the SHAKE256 hash, the JSON decoder, the date formatter and MySQL's failures. Examples are `ObjectIO.Backend`, `IndexStore.Database.faults`, `KeyModifier.Shake256` and `AggregatorService.Upstream`. Every property is proved for all choices of them.
- **MySQL.** The database is a map from table name to table. A table holds either index rows keyed by file name or a set of tags. Each statement the index service issues has its effect on that state and its MySQL error number:
  - 1146: missing table;
  - 1050: table exists;
  - 1062: duplicate entry;
  - 1064: empty `VALUES` list.

  Beyond those, a per-statement fault oracle (a function from statement to optional error) stands in for lost connections and races.
- **Imperative code stays imperative.** The `uploader` is a class whose `ctype` and `size` carry over between multipart parts. `Indexer`, `Database`, `Context`, `Session` and `sslice` are classes whose methods change their fields. Loops are `while` loops with invariants. Each method's `ensures` give its result and its new state, most of them as a specification function that the lemmas are about. Three methods state their result and new state directly instead: `Cookie.Session.SetAuthCookie`, `IoServer.StringSlice.Set` and `AggregatorServer.Forwarder.Forward`.

### Behaviour of the code the model keeps

- A direct-store reply's `Size` is the number of bytes copied. A short copy is not reported as an error (services/io/io.go:184-196).
- In a multipart upload, every reply's `Name` is the URL key hint, not the part's filename. The filename only feeds the key and the meta key (services/io/io.go:230, 261-264, 212).
- If a backend fails, `uploader.Do` dereferences a nil reply before the error can reach the caller. See "## Findings".
- Only the first reply of an upload is tagged and indexed. An upload that yields no reply at all, such as an empty multipart form, makes the aggregator index past the end of the list (`ReplyIndexOutOfRange`).
- The reply struct of services/common/reply.go has no `Media` field, although both the IO service and the aggregator service read one. The model's `Reply` carries `media: Option<seq<Track>>`.

## Model

| member | source | states |
|---|---|---|
| Basics.ToInt64 | services/io/io.go:102-104 | a uint64 above MaxInt64 reinterpreted as int64 is negative and congruent modulo 2^64; others are unchanged |
| Basics.Decimal | services/io/io.go:91 | decimal text of a number is non-empty, all digits, no leading zero |
| Basics.DecimalValue | services/io/io.go:91 | reading back the decimal text of n gives n |
| Records.Classify | services/io/io.go:205-209 | the media kind is Audio/Video/Image exactly when the content type has the matching prefix |
| KeyModifier.MetaModifier | services/common/key_modifier.go:21-25 | the meta key starts with "meta" NUL and the rest is the key itself |
| KeyModifier.MetaModifierInjective | services/common/key_modifier.go:21-25 | distinct keys give distinct meta keys |
| KeyModifier.Base64UrlLength | services/common/key_modifier.go:17 | encoded length is 4 * ceil(n / 3) (88 characters for a 64-byte digest) |
| KeyModifier.Base64UrlRoundTrip | services/common/key_modifier.go:17 | decoding the base64url encoding gives back the bytes |
| KeyModifier.Base64UrlInjective | services/common/key_modifier.go:17 | different byte strings never encode to the same text |
| KeyModifier.UsernameModifier | services/common/key_modifier.go:11-19 | the derived key is the encoding of the digest of the framed username and key |
| KeyModifier.UsernameModifierShape | services/common/key_modifier.go:11-19 | every derived key is 88 characters: 86 URL-safe characters and two "=" pads |
| KeyModifier.FrameInjective | services/common/key_modifier.go:13 | for usernames without NUL, equal framed inputs imply equal username and key |
| KeyModifier.FrameCollision | services/common/key_modifier.go:13 | with a NUL in the username, two different pairs frame to the same input |
| KeyModifier.KeyCollisionIsDigestCollision | services/common/key_modifier.go:11-19 | two NUL-free pairs with the same derived key are a SHAKE256 collision on distinct inputs |
| ErrorContext.Message | services/common/error.go:15-17 | the message is "operation: " + operation + ", error: " + error string, by position and length |
| ErrorContext.MessageAmbiguous | services/common/error.go:15-17 | two different errors can render to the same message |
| ErrorContext.WithError | services/common/error.go:19-34 | the error list gains exactly one entry at the end, an absent list counts as empty, every other key is untouched |
| ErrorContext.RecordAllAppends | services/common/error.go:19-34 | recording failures one after another appends them all in order, earlier entries preserved |
| ErrorContext.Context.constructor | services/common/error.go:19-23 | a new request context has no keys |
| ErrorContext.Context.NewError | services/common/error.go:19-34 | the context's keys become WithError of the old keys |
| Cookie.ErrorText | services/auth/cookie.go:36-58 | read failures and type or username failures carry their message prefixes |
| Cookie.CookieStore.InitCookieStore | services/auth/cookie.go:21-27 | the store keeps the keys and path and the lifetime is 604800 s (one week) |
| Cookie.NewAuthCookie | services/auth/cookie.go:29-34 | the cookie has the username, an empty token and expires exactly one lifetime after now |
| Cookie.CheckAuthCookie | services/auth/cookie.go:36-58 | read error, non-cookie value, expiry only when now is strictly after ExpiredAt, then empty username; on success the stored cookie unchanged |
| Cookie.FreshCookieLifetime | services/auth/cookie.go:29-58 | a new cookie for a non-empty user passes the check until its expiry instant and fails after it |
| Cookie.ExpiryBeforeUsername | services/auth/cookie.go:49-55 | an expired cookie with an empty username is reported as expired |
| Cookie.Session.constructor | services/auth/cookie.go:60-65 | a session starts with the given values and no options |
| Cookie.Session.SetAuthCookie | services/auth/cookie.go:60-74 | on read failure nothing changes; otherwise the cookie is stored under "auth" with the path, MaxAge one lifetime and HttpOnly |
| Cookie.SetThenCheck | services/auth/cookie.go:36-74 | checking what was just stored returns that cookie unless it has expired or has no username |
| IndexRequests.ReformatIndexRequest | services/index/index.go:91-104 | the loop builds the grouping of the request's files by tag |
| IndexRequests.AddTagsGet | services/index/index.go:96-101 | adding one file under its tags appends it to each tag's batch once per occurrence, after the files already there |
| IndexRequests.AddTagsKeys | services/index/index.go:96-101 | adding one file under its tags creates exactly those tags and keeps the others |
| IndexRequests.GroupedContents | services/index/index.go:91-104 | each tag maps to exactly the files listing it, in input order and once per occurrence; unmentioned tags are absent |
| IndexRequests.AddTagsEntries | services/index/index.go:96-101 | one file with k tags adds exactly k entries |
| IndexRequests.GroupedEntries | services/index/index.go:91-104 | total entries equal the sum of all tag-list lengths |
| IndexStore.RowOf | services/index/index.go:132-138 | a stored row keeps the file's bucket, timestamp and size (timestamp kept exactly; see the line on RowOf under "Left out") |
| IndexStore.LastWith | services/index/index.go:179 | finds the last file of a batch with a given name, or none when no file has it |
| IndexStore.UpsertLastWins | services/index/index.go:179 | after REPLACE each name in the batch maps to the last file with that name; other rows are kept |
| IndexStore.Run | services/index/index.go:132-154 | a failed statement leaves every table unchanged, and an injected fault is the reported error |
| IndexStore.QueryError | services/index/index.go:123-124 | an injected fault is the query's error |
| IndexStore.EnumerationExists | services/index/index.go:191 | every tag set has an enumeration order, so indexing can always pick one |
| IndexStore.EnumerationSize | services/index/index.go:191 | an enumeration lists each element exactly once |
| IndexStore.Database.constructor | services/index/index.go:11-26 | the database starts with the given tables and faults |
| IndexStore.Database.Exec | services/index/index.go:132-154 | the tables and error are those of running the statement on the old tables |
| IndexStore.Database.Query | services/index/index.go:205-206 | the error is that of the query on the current tables, which are not changed |
| IndexStore.Database.Rows | services/index/index.go:214-225 | row iteration yields every row of the table exactly once, with its name |
| IndexStore.Database.Tags | services/index/index.go:243-252 | tag iteration enumerates the meta table's tag set |
| TagIndex.IndexNameInjective | services/index/index.go:70-72 | for one user, different tags name different tables |
| TagIndex.IndexNameCollision | services/index/index.go:70-72 | user "a" with tag "b:c" and user "a:b" with tag "c" share one table |
| TagIndex.WrittenIsValuesText | services/index/index.go:170-177 | the text the loop accumulates is one tuple per file, "," between and ";" after the last |
| TagIndex.Serialize | services/index/index.go:170-177 | the VALUES string is that tuple list, and empty exactly for an empty batch |
| TagIndex.Listed | services/index/index.go:215-224 | a listed record has Key = modifier(name), MetaKey = modifier(MetaModifier(name)) and the row's fields |
| TagIndex.NamesOf | services/index/index.go:242-251 | the names of a key list, one per key and in order |
| TagIndex.Indexer.constructor | services/index/index.go:74-80 | the meta table is username + ":meta" and the modifier is the user's |
| TagIndex.Indexer.CheckAndCreateMeta | services/index/index.go:106-114 | the new state and error are those of CREATE TABLE IF NOT EXISTS on the meta table |
| TagIndex.Indexer.CheckAndCreateTable | services/index/index.go:116-159 | the new state and error are those of the provisioning specification |
| TagIndex.Indexer.ProvisionReserved | services/index/index.go:117-121 | provisioning fails with "not allowed" exactly for the tag "meta", and then changes nothing |
| TagIndex.Indexer.ProvisionProbeHit | services/index/index.go:123-157 | when the probe succeeds nothing changes and there is no error |
| TagIndex.Indexer.ProvisionFresh | services/index/index.go:123-154 | a missing table is created empty and the tag is registered in the meta table |
| TagIndex.Indexer.ProvisionTableExists | services/index/index.go:139-154 | error 1050 on create is tolerated and the outcome is the meta insert's |
| TagIndex.Indexer.ProvisionCreateFails | services/index/index.go:139-148 | any other create error is returned and nothing changes |
| TagIndex.Indexer.ProvisionKeepsRegistry | services/index/index.go:116-159 | if every index table is registered before, it still is after, when the insert does not fail |
| TagIndex.Indexer.ProbeFaultOnRegisteredTag | services/index/index.go:123-154 | a failed probe of an existing, registered table ends in a duplicate-entry error from the meta insert |
| TagIndex.Indexer.InsertFaultLeavesUnregistered | services/index/index.go:132-154 | a failed meta insert after a successful create leaves a table that is not registered |
| TagIndex.Indexer.IndexFiles | services/index/index.go:161-186 | the new state and error are those of provision-then-REPLACE |
| TagIndex.Indexer.IndexFilesFrame | services/index/index.go:161-186 | tables other than the tag's table and the meta table are unchanged |
| TagIndex.Indexer.IndexFilesWritten | services/index/index.go:161-186 | on success the tag's table is the prior rows upserted with the batch |
| TagIndex.Indexer.IndexFilesIndexed | services/index/index.go:161-186 | on success each name in the batch holds the row of its last file |
| TagIndex.Indexer.Index | services/index/index.go:188-200 | some enumeration of the grouped tags is indexed in order, stopping at the first error |
| TagIndex.Indexer.RunIndexFrame | services/index/index.go:188-200 | tables of tags not indexed are unchanged |
| TagIndex.Indexer.RunIndexFailFast | services/index/index.go:188-200 | a failed run fails at one tag; the tags before it succeeded, the error is that tag's, and later tags are not attempted |
| TagIndex.Indexer.RunIndexSuccess | services/index/index.go:188-200 | on success every grouped tag holds its files |
| TagIndex.Indexer.IndexRequestStored | services/index/index.go:188-200 | after a successful Index, each mentioned tag holds the last row per name of the files listing it |
| TagIndex.Indexer.ListIndex | services/index/index.go:202-233 | a read error is returned; otherwise one listed record per row of the tag's table |
| TagIndex.ListRows | services/index/index.go:214-225 | each scanned row becomes its listed record, in scan order |
| TagIndex.ListedRowsListing | services/index/index.go:202-233 | listing every row once, in any order, with both keys derived from the row's name, is a listing of the whole table |
| TagIndex.Indexer.ListMeta | services/index/index.go:235-268 | one reply tagged "meta" whose names enumerate the registered tags, or the read error |
| TagIndex.Indexer.List | services/index/index.go:270-290 | succeeds exactly when every requested tag's table is readable, with one reply per tag in request order; otherwise the first failing tag's error and no replies |
| TagIndex.NewIndexer | services/index/index.go:74-89 | the indexer exists exactly when creating the meta table succeeds |
| ObjectIO.DeclaredSize | services/io/io.go:220-223 | the declared size is ContentLength when positive, otherwise 0 |
| ObjectIO.RouteByPrefix | services/io/io.go:205-209 | the transcoder is used exactly for audio/ and video/ types; image/ and the empty type are stored directly |
| ObjectIO.MediaRequest | services/io/io.go:84-116 | Content-Length is sent exactly when the size is non-zero, as the size reinterpreted as int64; one bucket serves data and metadata |
| ObjectIO.MediaLengthAfterSubstitution | services/io/io.go:102-104 | after the MaxUint64 substitution the transcoder is sent Content-Length -1 |
| ObjectIO.MediaUpload | services/io/io.go:84-155 | a bucket failure and a transcoder failure are each returned as that error; a reply is the transcoder's bucket, key, size, meta fields, timestamp and media tracks under the uploader's content type |
| ObjectIO.MediaDoIsTranscoderReply | services/io/io.go:205-212 | a media upload fails exactly on a bucket or transcoder failure, with that error; otherwise Do returns the transcoder's reply and media tracks, named by the URL key and typed by the uploader, and the size is unchanged |
| ObjectIO.DataUpload | services/io/io.go:157-199 | size 0 becomes MaxUint64 and persists; a reply has the bucket's name, the key, Size = bytes copied and no meta key |
| ObjectIO.DoSpec | services/io/io.go:201-215 | a reply always carries the uploader's content type and the original key as Name; media uploads keep the size |
| ObjectIO.DoAsWritten | services/io/io.go:201-215 | the code as written: every backend failure becomes a nil dereference |
| ObjectIO.DoAsWrittenPanics | services/io/io.go:211-212 | the code as written panics exactly when the backend fails, and otherwise agrees with DoSpec |
| ObjectIO.DoPanicsWithoutBucket | services/io/io.go:211-212 | a plain-data upload with no bucket available panics as written |
| ObjectIO.EffectiveTypeLast | services/io/io.go:257-260 | a part's type is the last non-empty part type seen so far, else the request's |
| ObjectIO.PartsReplies | services/io/io.go:248-273 | a successful multipart upload has one reply per part in order, keyed by the filename, named by the URL key, typed by the carried type |
| ObjectIO.PartsFailure | services/io/io.go:248-255 | an iterator error yields no replies; no parts gives an empty list |
| ObjectIO.PartsAbortAt | services/io/io.go:248-274 | the upload fails exactly when the iterator ends in an error or some part's upload fails; when part k fails first its error is the upload's; when every part succeeds an iterator error is the upload's |
| ObjectIO.PartsAbortIgnoresRest | services/io/io.go:267-270 | once part k has failed first, changing the later parts or the iterator's end does not change the outcome |
| ObjectIO.CarriedSize | services/io/io.go:171-173 | the size handed to the next part is the old size or MaxUint64 for a zero size on the data path |
| ObjectIO.SingleUpload | services/io/io.go:238-246 | a single-stream upload returns exactly one reply, named by the key with the request's type, stored directly under modifier(key) with Size = bytes copied |
| ObjectIO.GetKeyStatusMapping | services/io/io.go:279-318 | store error -2 maps to 404, every other failure to 503, success to 200 |
| ObjectIO.MetaJsonPassThrough | services/io/io.go:331-388 | metadata is fetched under modifier(MetaModifier(key)) and a non-200 transcoder status is passed on |
| ObjectIO.IOCtl.constructor | services/io/io.go:20-48 | the controller keeps its backend and transcoding host |
| ObjectIO.IOCtl.Upload | services/io/io.go:217-277 | the reply list or error is that of the upload specification |
| ObjectIO.IOCtl.UploadParts | services/io/io.go:248-274 | the part loop's result is the multipart specification from the uploader's state before the loop |
| ObjectIO.IOCtl.UploadPart | services/io/io.go:257-272 | a part's non-empty type replaces the carried type, and the reply is the Do specification under the part's keys |
| ObjectIO.IOCtl.GetKey | services/io/io.go:279-318 | the status is the GetKey status mapping |
| ObjectIO.IOCtl.Get | services/io/io.go:320-329 | reads the key derived by the modifier |
| ObjectIO.IOCtl.MetaJson | services/io/io.go:331-388 | the status is the MetaJson specification |
| ObjectIO.Uploader.constructor | services/io/io.go:227-235 | a new uploader holds the keys, size and type it was given |
| ObjectIO.Uploader.UploadMedia | services/io/io.go:84-155 | the result is the transcoder specification |
| ObjectIO.Uploader.UploadData | services/io/io.go:157-199 | the result and the new size are the direct-store specification |
| ObjectIO.Uploader.Do | services/io/io.go:201-215 | the corrected Do: result and new size are DoSpec |
| IoServer.Split | servers/io/io.go:126 | strings.Split on a separator yields at least one piece |
| IoServer.SplitPieces | servers/io/io.go:126 | one more piece than separators, and no piece contains the separator |
| IoServer.SplitJoin | servers/io/io.go:126 | joining the pieces with the separator restores the string |
| IoServer.JoinSplit | servers/io/io.go:126 | splitting a join of separator-free pieces restores the pieces |
| IoServer.Atoi | servers/io/io.go:127 | strconv.Atoi accepts only values in int64 range and rejects the empty string |
| IoServer.AtoiDecimal | servers/io/io.go:127 | the decimal text of any int64-range natural parses to itself |
| IoServer.Uint32Of | servers/io/io.go:133 | uint32 conversion is the identity on [0, 2^32), adds 2^32 to negatives above -2^32, and is congruent modulo 2^32 |
| IoServer.GroupsOf | servers/io/io.go:126-134 | one group per segment, and failure is always an invalid segment |
| IoServer.GroupsOfValues | servers/io/io.go:126-134 | parsing succeeds exactly when every segment parses, each group being the wrapped value of its segment |
| IoServer.GroupsOfFirstFailure | servers/io/io.go:128-131 | a failure names the first segment that does not parse |
| IoServer.NoGroupsUnreachable | servers/io/io.go:135-137 | the empty-group-list error can never occur |
| IoServer.EmptySegmentRejected | servers/io/io.go:128-131 | "1::2" is rejected at the empty segment |
| IoServer.NegativeGroupWraps | servers/io/io.go:133 | "-1" becomes group 4294967295 |
| IoServer.GroupsRoundTrip | servers/io/io.go:126-137 | the colon-joined decimal list of any non-empty group list parses back to it |
| IoServer.ParseGroups | servers/io/io.go:126-137 | the loop computes the group-parsing specification |
| IoServer.StringSlice.constructor | servers/io/io.go:84-86 | a new flag slice is empty |
| IoServer.StringSlice.Set | servers/io/io.go:88-91 | Set appends the value and never fails |
| IoServer.FlagsOfCollect | servers/io/io.go:94-106 | -bucket and -remote values accumulate in command-line order |
| IoServer.PlainDefault | servers/io/io.go:94-106 | the default of each single-valued flag |
| IoServer.FlagsOfLast | servers/io/io.go:94-106 | a single-valued flag holds its last occurrence, or its default |
| IoServer.RepeatedFlagsAccumulate | servers/io/io.go:88-91 | one more occurrence appends its value to that flag only |
| IoServer.ParseFlags | servers/io/io.go:94-106 | with only declared flags the result is the fold of the arguments; an undeclared flag is an error |
| IoServer.Startup | servers/io/io.go:107-137 | configuration succeeds exactly when every required flag is set and the groups parse, and then carries the parsed groups, buckets and remotes |
| IoServer.UploadResponse | servers/io/io.go:65-82 | 503 with operation "upload" exactly for an error, 200 with the replies exactly for success |
| IoServer.DownloadErrorsAreNotOk | servers/io/io.go:18-63 | an error response is never 200 and a streamed body is always 200, for get_key and meta_json |
| IoServer.UploadHandler | servers/io/io.go:65-82 | the response is the upload status mapping of the user's upload |
| IoServer.GetHandler | servers/io/io.go:18-32 | the response is the download mapping for the user's derived key |
| IoServer.GetKeyHandler | servers/io/io.go:34-47 | the response is the download mapping for the raw key |
| IoServer.MetaJsonHandler | servers/io/io.go:49-63 | the response is the metadata mapping for the user's meta key |
| IoServer.GetNotFound | servers/io/io.go:18-32 | a missing object (-2) is answered 404 under "get" |
| AggregatorService.TrimLeading | services/aggregator/indexer.go:36-43 | removes exactly the leading slashes |
| AggregatorService.TrimTrailing | services/aggregator/indexer.go:36-43 | removes exactly the trailing slashes |
| AggregatorService.TrimSlashesInfix | services/aggregator/indexer.go:36-43 | the trimmed name is an infix with only slashes around it, neither end a slash, and empty exactly for all-slash input |
| AggregatorService.FilenameEmpty | services/aggregator/indexer.go:36-43 | the filename is empty exactly when the path after /upload/ is only slashes |
| AggregatorService.ServiceTags | services/aggregator/indexer.go:86-109 | the tag list always begins with the date and "all" |
| AggregatorService.TrackTagsCounts | services/aggregator/indexer.go:89-97 | one "audio" per audio/ track and one "video" per video/ track, duplicates included |
| AggregatorService.TrackTagsOnlyMedia | services/aggregator/indexer.go:89-97 | track tags are only "audio" and "video"; "image" never comes from tracks |
| AggregatorService.TypeTagsClassify | services/aggregator/indexer.go:98-108 | without tracks, at most one media tag, the one the content type's prefix names |
| AggregatorService.IndexFileOf | services/aggregator/indexer.go:111-124 | the indexed file copies Key, Bucket, Name, Timestamp and Size and drops the type and meta fields |
| AggregatorService.IndexRequestGrouping | services/aggregator/indexer.go:111-124 | the request holds one file, grouped under each derived tag once per occurrence |
| AggregatorService.EmptyFilenameRejected | services/aggregator/indexer.go:36-43 | an empty filename is 400 "forward" whatever the upstream does, and nothing is indexed |
| AggregatorService.GatewayFailurePassedThrough | services/aggregator/indexer.go:55-58 | a non-200 IO response is passed through unchanged and nothing is indexed |
| AggregatorService.IndexOutcome | services/aggregator/indexer.go:151-175 | once indexing is attempted, index failure is an error with its status, success writes the IO body with 200 |
| AggregatorService.OnlyFirstReplyMatters | services/aggregator/indexer.go:84 | replies after the first change neither the response nor the index request |
| AggregatorService.Indexer.constructor | services/aggregator/indexer.go:17-21 | the indexer keeps its addresses and error formatter |
| AggregatorService.Indexer.BuildTags | services/aggregator/indexer.go:86-109 | the append loop builds the service tag list |
| AggregatorService.Indexer.Forward | services/aggregator/indexer.go:35-176 | the response is the pipeline's; exactly the error responses record one "forward" error in the request context |
| AggregatorService.Indexer.IndexFirst | services/aggregator/indexer.go:111-176 | a failed index call is 500 and a non-200 index status is passed on, each recorded once under "forward"; otherwise the IO server's body is written with 200 and the context is unchanged |
| AggregatorServer.ServerTags | servers/aggregator/aggregator.go:146-158 | the tag list always begins with the date and "all" |
| AggregatorServer.ServerTagsByType | servers/aggregator/aggregator.go:146-158 | tracks are ignored; at most one media tag, none exactly for other types |
| AggregatorServer.VersionsAgreeWithoutTracks | servers/aggregator/aggregator.go:146-158 | without tracks both aggregators derive the same tags; with tracks the service uses the tracks |
| AggregatorServer.IndexUrl | servers/aggregator/aggregator.go:297 | the index URL is http:// address /index |
| AggregatorServer.Forwarder.constructor | servers/aggregator/aggregator.go:37-39 | the forwarder keeps its address |
| AggregatorServer.Forwarder.Forward | servers/aggregator/aggregator.go:74-86 | a send failure is 500 "forward"; any response is flushed through |
| AggregatorServer.Indexer.constructor | servers/aggregator/aggregator.go:292-297 | the indexer keeps the IO address and the index URL |
| AggregatorServer.Indexer.BuildTags | servers/aggregator/aggregator.go:146-158 | the if-chain builds the server tag list |
| AggregatorServer.Indexer.Forward | servers/aggregator/aggregator.go:95-225 | the response is the shared pipeline with content-type-only tags |
| AggregatorServer.Indexer.IndexFirst | servers/aggregator/aggregator.go:160-225 | the index step of the shared pipeline: a failed call is 500, a non-200 status is passed on, otherwise the IO server's body is written with 200 |

## Left out

- Elliptics sessions, readers and writers, and bucket selection are functions in `ObjectIO.Backend`. The bucket-selection rule itself is not part of this model.
- HTTP transport, header copying, gin routing and middleware, JSON encoding and decoding, and logging are left out. The aggregator's decoder is a parameter.
- SHAKE256 is the abstract `KeyModifier.Shake256`. `time.Now` is a backend or collaborator value. The `2006-01-02` date format is `dateOf`.
- SQL text, quoting and escaping are not modelled. The VALUES string interpolates names unescaped (services/index/index.go:176), which is an injection risk; the model only records the statement's effect.
- Concurrency is not modelled. Provisioning runs sequentially. Concurrent first use tolerates only the create race (1050); the meta INSERT can still fail with 1062. That failure is modelled through the fault oracle (`TagIndex.Indexer.ProbeFaultOnRegisteredTag`).
- Go map iteration order in `Index` is any order. The proofs hold for every enumeration of the tags.
- Error message text is abstract (`formatError`) except where the code builds it from constants. `NewErrorString`, which the aggregator service calls, is not part of this model; the model records the formatted string through `NewError`.
- Cookie signing and encryption (gorilla sessions), the auth database, services/auth/auth.go and services/auth/check.go are not part of this model. The session cookie's name constant is not part of this model.
- `IoServer.Atoi`: the distinction between strconv's syntax and range errors is collapsed into `None`, since the server treats both the same way.
- The `Ping` routes, static file serving and servers/index/index.go handler glue are left out.
- Log output, `log.Fatalf` process exit (modelled as a `StartupError` result) and `defer` cleanups are left out.
- IndexStore.RowOf: the stored row keeps the file's timestamp exactly. The source writes the `%s` text of a `time.Time`, with nanoseconds and a zone suffix, into a `DATETIME` column (services/index/index.go:135, 176). That column keeps whole seconds, and a strict SQL mode may reject the suffix. The conversion is not modelled, so `TagIndex.Listed` and `TagIndex.Indexer.ListIndex` also return the exact time.
- IndexStore.Run: table and row keys compare exactly. The tables are created with `DEFAULT CHARSET=UTF8`, whose default collation compares case-insensitively. In MySQL "A.mp3" therefore replaces "a.mp3", and registering tag "Audio" after "audio" fails with 1062. The model's maps keep them apart (`IndexStore.UpsertLastWins`, `TagIndex.Indexer.ProvisionFresh`).
- IndexStore.Run: the column widths are not enforced: VARCHAR(32) for the bucket and the meta table's tag, and VARCHAR(255) for the name.
- `ObjectIO.IOCtl.GetKey`: streaming the object body into the response writer is not modelled; the status mapping is.

## Findings

| source | as written | input that shows it | evidently intended | confidence | as-written member | corrected member |
|---|---|---|---|---|---|---|
| services/io/io.go:211-212 | `Do` sets `reply.ContentType` and `reply.Name` before checking the error, and `reply` is nil when either backend fails | a plain-data upload when the bucket selector returns an error (`DoPanicsWithoutBucket`) | return the backend's error to `Upload`, which aborts the batch with no replies | not executed | ObjectIO.DoAsWritten | ObjectIO.Uploader.Do |
