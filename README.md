# camel-smev in Dafny

A Dafny model of camel-smev. This Apache Camel component exchanges messages with SMEV3, the Russian inter-agency e-government message bus. The component is a thin adapter between a Camel route, the SMEV3 client library and an FTP server for large attachments. This project models the adapter's own logic and proves properties about it.

- **Consumer** (`smev3_consumer.dfy`). This is the endpoint's polling state machine, with the fields `message`, `accepted` and the list of staged attachment buffers. The framework driver runs `begin`, then `poll`, then `commit(n)`, or `rollback` on error.
  - `poll` fetches zero or one message and presents it to the route as headers and a body.
  - It stages every attachment through the configured attachment strategy, or downloads it over FTP.
  - It pre-seeds the accepted flag when auto-acknowledge is on, runs the route, and always releases every buffer it staged.
  - `commit` acknowledges only under its three-part guard. `rollback` records the error-delay wait.
- **Producer** (`smev3_producer.dfy`). This is the dispatch per configured mode. Request, Response, Status and Reject send a message; Ack acknowledges one.
  - It covers the conversion of the exchange's attachments into MTOM or large SMEV attachments, classified by the length header.
  - It covers the header defaults and the FTP upload of large attachments.
- **Attachment strategies** (`attachments_strategy.dfy`, `in_memory_attachments_strategy.dfy`, `file_attachments_strategy.dfy`, `byte_array_data_source.dfy`).
  - They follow the get/process/done lifecycle over an in-memory append buffer or over a file system modelled as a map from paths to bytes.
  - A third, user-supplied strategy has chosen answers, headers and deleted files.
- **Header codec** (`smev3_constants.dfy`).
  - Header names are constants.
  - Exchange and attachment writes happen only when the value is non-null.
  - Typed attachment header reads fall back to a default.
  - The mapping from SMEV metadata to exchange headers is included.
- **Endpoint configuration** (`smev3_configuration.dfy`).
  - Mode and body type are parsed ignoring case.
  - Parameters and environment properties have their documented defaults, and environment text goes through Spring's Boolean and Integer conversion.
  - The memoised sub-configurations and the geo transport list are included.
- **FTP transport** (`apache_ftp_transport.dfy`).
  - The address is split at the first colon.
  - A session is connect, then login, then the operation, then a disconnect that never fails.
  - Upload aborts at the first failing step.
- **Attachment helpers** (`attachments.dfy`, `attachments_utils.dfy`). These populate attachment headers and save attachments to files.

Supporting modules:
- `base.dfy`: Option and Result, decimal text, ignoring-case comparison.
- `camel.dfy`: the exchange, attachments with a key-ordered attachment map, data handlers, the file system.
- `sdk.dfy`: the SMEV3 library's value types.
  - The broker (`WSTemplate`) answers from a caller-chosen script and records a call trace.
  - The identity service hands out identifiers from a caller-chosen source.
  - Base64, UUID parsing, XML serialisation, the URI text of a path (for the URI-typed attachment header), digest and signing are function values in a `Foreign` record, because they are library code.
- `camel.dfy` also spells Unix paths the way `java.nio.file.Paths` and `java.io.File` do: joining with '/', collapsing doubled separators, dropping a trailing one, resolving a relative path against the working directory `user.dir`, and `getName`.
  - The FTP client, in `apache_ftp_transport.dfy`, likewise answers from a script and records its calls.

Java exceptions are modelled as `Err`/`Fail` values of the `Error` type.

## Model

| member | source | states |
|---|---|---|
| Smev3Consumer.Smev3Consumer.constructor | src/main/java/org/apache/camel/component/smev3/Smev3Consumer.java:43-71 | The consumer's FTP transport is built from the memoised large-attachment configuration. `message` and `accepted` start null and nothing is staged. |
| Smev3Consumer.Smev3Consumer.Begin | src/main/java/org/apache/camel/component/smev3/Smev3Consumer.java:222-225 | `begin` always returns true. |
| Smev3Consumer.Smev3Consumer.Receive | src/main/java/org/apache/camel/component/smev3/Smev3Consumer.java:85-109 | The exchange gets the content's namespace and root-name headers, the body chosen by the body type, the signature header and the filled metadata headers; that is, exactly `Received`. A serialisation failure is returned as an error. |
| Smev3Consumer.Received | src/main/java/org/apache/camel/component/smev3/Smev3Consumer.java:85-109 | Reference definition of the presented message: the body chosen by the body type, then the filled metadata headers. `ReceivedLeavesAcceptedUnset` and `Receive` state its properties. |
| Smev3Consumer.Presented | src/main/java/org/apache/camel/component/smev3/Smev3Consumer.java:85-107 | Reference definition of the body and headers per body type. |
| Smev3Consumer.RouteInput | src/main/java/org/apache/camel/component/smev3/Smev3Consumer.java:112-113 | Reference definition: with auto-acknowledge the accepted header is pre-set to true. `AcceptedByDefault` states its effect. |
| Smev3Consumer.ReceivedLeavesAcceptedUnset | src/main/java/org/apache/camel/component/smev3/Smev3Consumer.java:85-109 | Presenting a received message never writes the accepted header. |
| Smev3Consumer.AcceptedByDefault | src/main/java/org/apache/camel/component/smev3/Smev3Consumer.java:79-124 | If the route leaves the accepted header as it found it, `accepted` is true with auto-acknowledge and null without. |
| Smev3Consumer.MessageIdOf | src/main/java/org/apache/camel/component/smev3/Smev3Consumer.java:150-152 | Reading the message id fails with a null dereference exactly when the metadata or its identity is missing. |
| Smev3Consumer.RequestsInOrder | src/main/java/org/apache/camel/component/smev3/Smev3Consumer.java:142-159 | The staging requests are one per attachment, in message order. The j-th has ordinal j and the attachment count as total. MTOM uses the attachment id; large attachments use their UUID and file reference. |
| Smev3Consumer.Requests | src/main/java/org/apache/camel/component/smev3/Smev3Consumer.java:142-159 | Reference definition of the `get` requests of a message's attachments. `RequestsInOrder` states its shape. |
| Smev3Consumer.Smev3Consumer.Obtain | src/main/java/org/apache/camel/component/smev3/Smev3Consumer.java:150-159 | The `get` call is appended to the request trace with the attachment's own arguments (the MTOM id twice, or the UUID and file reference). It raises iff `GetRaises`, hands out a handler iff `Supplies`, and a handed-out handler is fresh, of the configured strategy's kind, and an empty new buffer when in memory. |
| Smev3Consumer.Smev3Consumer.StageMtom | src/main/java/org/apache/camel/component/smev3/Smev3Consumer.java:146-178 | The strategy's `get` hands back a handler exactly when the strategy supplies one: always in memory, for the file strategy iff the message id is non-null, and for a bean iff its get neither raises nor returns null. A raising `get` fails the staging. A supplied handler is fresh and is appended both to the staged list and to the trace of acquired handlers, before anything is written. It is exposed under the attachment's key only if `process` keeps it, and a raising `process` fails. An exposed attachment carries the headers `process` leaves on the described attachment when the handler holds exactly the inline bytes: so its length header is the inline byte count in memory, and path and inline byte count for the file strategy. Exchange headers and body are unchanged. |
| Smev3Consumer.Smev3Consumer.FillInline | src/main/java/org/apache/camel/component/smev3/Smev3Consumer.java:164-177 | After `get` hands out a handler (an empty buffer, or a file): the handler is staged and recorded as acquired, the inline bytes are written, then the attachment is published unless the write fails. The buffer is kept only when `process` keeps it, and it is exposed under its key only when kept, with the headers `process` leaves for a handler holding the inline bytes. Exchange headers and body are unchanged. |
| Smev3Consumer.Smev3Consumer.StageLarge | src/main/java/org/apache/camel/component/smev3/Smev3Consumer.java:180-213 | As for MTOM, over the file reference: a handler comes back iff the strategy supplies one, and it is staged and recorded as acquired before the FTP download. The FTP traffic is nothing or one download session. A failed download leaves the buffer staged and unexposed. An exposed attachment carries the headers `process` leaves when the handler holds the bytes the download session received. |
| Smev3Consumer.Smev3Consumer.WriteInline | src/main/java/org/apache/camel/component/smev3/Smev3Consumer.java:164-167 | The MTOM content is copied into the staged holder. A buffer gains exactly that content and always succeeds. A file succeeds exactly when its path is writable: the file then holds the content, otherwise no file changes. |
| Smev3Consumer.Smev3Consumer.Fetch | src/main/java/org/apache/camel/component/smev3/Smev3Consumer.java:198-201 | Either nothing goes over FTP and the stream fails, or the FTP trace grows by exactly one download session and the outcome is that session's. On success the holder, either a buffer or a file, holds the bytes received. |
| Smev3Consumer.Smev3Consumer.Publish | src/main/java/org/apache/camel/component/smev3/Smev3Consumer.java:169-177 | The attachment is exposed under its key exactly when the strategy's `process` keeps it, and a raising `process` fails with nothing kept. The exposed attachment wraps the staged holder and carries the described headers as `process` leaves them (`AttachmentsStrategy.ProcessedHeaders` of the bytes the handler holds): the decimal length in memory, the content reference and file length for the file strategy, a bean's own headers for a bean. When not exposed, the message's attachments are unchanged. Exchange headers and body are unchanged. |
| Smev3Consumer.Smev3Consumer.Describe | src/main/java/org/apache/camel/component/smev3/Smev3Consumer.java:169-174 | The new attachment wraps the buffer and carries exactly `StagedHeaders`: MIME type, UUID, name, Base64 signature, passport id, and for large attachments the hash. |
| Smev3Consumer.StagedHeaders | src/main/java/org/apache/camel/component/smev3/Smev3Consumer.java:169-174 | Reference definition of the descriptive headers of a staged attachment, used by `Describe`. |
| Smev3Consumer.Smev3Consumer.Expose | src/main/java/org/apache/camel/component/smev3/Smev3Consumer.java:176-177 | The buffer is added to the exchange iff the strategy's `process` returns true. An exception from `process` propagates with nothing kept. A kept buffer without attachment support fails with a null dereference. Whatever the answer, the attachment's headers end as `process` leaves them: the described headers plus the length (in memory) or the content reference and length (in files), or the headers a bean chose. |
| Smev3Consumer.Smev3Consumer.Stage | src/main/java/org/apache/camel/component/smev3/Smev3Consumer.java:144-216 | One loop iteration keeps the loop invariants: staged buffers are distinct, every kept buffer is staged, and every exposed attachment is kept. The staged list and the acquired trace either both stay as they were or both grow by the same fresh handler. |
| Smev3Consumer.Smev3Consumer.FillExchangeAttachments | src/main/java/org/apache/camel/component/smev3/Smev3Consumer.java:135-219 | Requests so far are `Requests` over the attachments handled, in order. Success means every attachment was handled. An attachment neither MTOM nor large fails with an unexpected-attachment error. Every exposed attachment is a staged, kept buffer. The handlers acquired from the strategy are exactly the staged list. |
| Smev3Consumer.Smev3Consumer.Consume | src/main/java/org/apache/camel/component/smev3/Smev3Consumer.java:85-125 | The route runs at most once, on the received presentation with the auto-ack flag. A failed route is an error and `accepted` stays null. Success returns 1, with `accepted` read from the route's result headers. Every handler acquired while staging is on the staged list. |
| Smev3Consumer.Smev3Consumer.Release | src/main/java/org/apache/camel/component/smev3/Smev3Consumer.java:127-132 | Every staged buffer is released once, in order, and its errors are swallowed. The staged list ends empty. The file system loses exactly the staged files of the file strategy, or the files a bean's `done` deletes (`AfterDone`). |
| Smev3Consumer.AfterDoneRemovesStagedFiles | src/main/java/org/apache/camel/component/smev3/strategy/FileAttachmentsStrategy.java:41-45 | After release, a path remains iff it was there and no `done` deleted it: not the on-disk file of a staged buffer under the file strategy, and not among the files a bean's `done` removes for any staged buffer. Remaining contents are unchanged. |
| Smev3Consumer.AfterDone | src/main/java/org/apache/camel/component/smev3/strategy/FileAttachmentsStrategy.java:41-45 | Reference definition of the file system after releasing a list of handlers in turn, one `AttachmentsStrategy.AfterDoneOne` each. `AfterDoneRemovesStagedFiles` states which paths remain. |
| Smev3Consumer.Smev3Consumer.Poll | src/main/java/org/apache/camel/component/smev3/Smev3Consumer.java:74-133 | There is exactly one fetch. No message gives 0, stages nothing and never runs the route. A fetch error propagates. The handlers the strategy handed out in this poll, the handlers staged and the handlers released are the same distinct list, so every acquired buffer is released exactly once; the staged list ends empty. An error leaves `accepted` null. The route runs at most once. |
| Smev3Consumer.Smev3Consumer.Commit | src/main/java/org/apache/camel/component/smev3/Smev3Consumer.java:228-244 | Ack is called at most once, and only when the polled count is positive, `accepted` is non-null and the query is not STATUS. It carries the message's metadata and accepted value. The outcome is `CommitOutcome` of the broker's reply: a refused ack (SMEVException) is logged and swallowed unless reading the message id for the log fails, and any other exception fails the commit. `message` and `accepted` always end null. |
| Smev3Consumer.Smev3Consumer.Rollback | src/main/java/org/apache/camel/component/smev3/Smev3Consumer.java:247-254 | The error delay is recorded as a wait, `message` is cleared, and the result is false (no retry). A negative delay raises before `message` is cleared. |
| Smev3Consumer.AckDue | src/main/java/org/apache/camel/component/smev3/Smev3Consumer.java:232 | Reference definition of commit's three-part guard, used by `Commit` and `RunOnce`. |
| Smev3Consumer.CommitOutcome | src/main/java/org/apache/camel/component/smev3/Smev3Consumer.java:230-238 | Reference definition of commit's outcome after an ack, used by `Commit`. |
| Smev3Consumer.Smev3Consumer.RunOnce | src/main/java/org/apache/camel/component/smev3/Smev3Endpoint.java:22 | One driver pass (begin, poll, then commit or rollback) makes one fetch and at most one ack. There is no ack for STATUS queries, and an ack names the fetched message. The ack happens exactly when `AckDue` holds for poll's result and the accepted flag poll left, and it carries that flag. After a delivered poll the flag is the accepted header the route left. Every handler the strategy handed out is released exactly once. A passing run leaves `message` and `accepted` null. |
| Smev3Producer.GetContent | src/main/java/org/apache/camel/component/smev3/Smev3Producer.java:149-169 | An element body is used as is. A document body gives its root element. A string is transformed and parsed. Any other body is an error. |
| Smev3Producer.HeaderText | src/main/java/org/apache/camel/component/smev3/Smev3Constants.java:36-45 | A string attachment header, or the default when it is absent. |
| Smev3Producer.HeaderBytes | src/main/java/org/apache/camel/component/smev3/Smev3Constants.java:46-48 | A byte-array attachment header is Base64-decoded, or the default when it is absent. |
| Smev3Producer.HeaderUuid | src/main/java/org/apache/camel/component/smev3/Smev3Constants.java:49-52 | A UUID header is parsed, a malformed one raising IllegalArgument. The default applies when it is absent. |
| Smev3Producer.LengthOf | src/main/java/org/apache/camel/component/smev3/Smev3Producer.java:182 | The length header, or the threshold when the header is absent. |
| Smev3Producer.Convert | src/main/java/org/apache/camel/component/smev3/Smev3Producer.java:180-224 | Reference definition of converting one attachment entry. At most one identifier is drawn, and a conversion succeeds only when the length header and the content read. Its cases are the Convert lemmas below. |
| Smev3Producer.ConvertData | src/main/java/org/apache/camel/component/smev3/Smev3Producer.java:188-222 | Reference definition of the conversion once the content is read. At most one identifier is drawn. |
| Smev3Producer.ConvertClassifiesByLength | src/main/java/org/apache/camel/component/smev3/Smev3Producer.java:182-222 | A converted attachment is large iff its length is at least the threshold, else MTOM. A missing length header always gives large. |
| Smev3Producer.ConvertDefaults | src/main/java/org/apache/camel/component/smev3/Smev3Producer.java:183-199 | The name defaults to the map key and the MIME type to "application/stream". The signature defaults to the detached signature of the digest. The passport id defaults to none. |
| Smev3Producer.ConvertMtomInline | src/main/java/org/apache/camel/component/smev3/Smev3Producer.java:213-222 | An MTOM attachment carries the content, draws no identifier and makes no FTP call. |
| Smev3Producer.ConvertLargeUploaded | src/main/java/org/apache/camel/component/smev3/Smev3Producer.java:192-211 | A large attachment draws one identifier, which is its UUID unless a header gives one. Its hash is the Base64 of the signed checksum. Its credentials are the configured login and password. Its FTP traffic is exactly one successful upload session. |
| Smev3Producer.ConvertFailsEarly | src/main/java/org/apache/camel/component/smev3/Smev3Producer.java:182-189 | A bad length header or unreadable content fails before any identifier is drawn or any FTP call is made. |
| Smev3Producer.IteratePrefix | src/main/java/org/apache/camel/component/smev3/Smev3Producer.java:178-224 | The converted list of a prefix of the entries is the same prefix of the converted list, so results stay in iteration order. |
| Smev3Producer.Iterate | src/main/java/org/apache/camel/component/smev3/Smev3Producer.java:178-224 | Reference definition of the conversion loop. The identifier count never decreases, a successful run has one result per entry, and an empty map converts to nothing with no draws or traffic. |
| Smev3Producer.IterateStopsAtFailure | src/main/java/org/apache/camel/component/smev3/Smev3Producer.java:178-224 | Once an entry fails, later entries change nothing: no identifiers drawn, no FTP calls. |
| Smev3Producer.IterateEffects | src/main/java/org/apache/camel/component/smev3/Smev3Producer.java:178-224 | Over a successful run, the identifiers drawn equal the number of large attachments, and the FTP traffic is their upload sessions in order. |
| Smev3Producer.StepEffects | src/main/java/org/apache/camel/component/smev3/Smev3Producer.java:192-222 | One successful conversion draws an identifier and uploads iff it is large. |
| Smev3Producer.ConvertAllEffects | src/main/java/org/apache/camel/component/smev3/Smev3Producer.java:171-229 | Every large attachment is uploaded exactly once, in order, and MTOM ones never. The result has one entry per input. |
| Smev3Producer.ConvertAllStopsAtFailure | src/main/java/org/apache/camel/component/smev3/Smev3Producer.java:178-224 | The first failing entry ends the whole conversion. |
| Smev3Producer.SmallEntriesStayInline | src/main/java/org/apache/camel/component/smev3/Smev3Producer.java:192-222 | Entries all below the threshold convert to MTOM with no identifiers drawn and no FTP traffic. |
| Smev3Producer.LargeCount | src/main/java/org/apache/camel/component/smev3/Smev3Producer.java:192-211 | The number of large attachments, at most the list length. |
| Smev3Producer.LargeRefs | src/main/java/org/apache/camel/component/smev3/Smev3Producer.java:207-211 | The file references of the large attachments, one per large attachment. |
| Smev3Producer.Smev3Producer.ConvertEntry | src/main/java/org/apache/camel/component/smev3/Smev3Producer.java:180-224 | One loop iteration performs `Convert` on the entry. It draws the identifiers and makes the FTP calls that the conversion accounts for. |
| Smev3Producer.Smev3Producer.ConvertBytes | src/main/java/org/apache/camel/component/smev3/Smev3Producer.java:188-222 | The conversion after the content is read is `ConvertData`. |
| Smev3Producer.Smev3Producer.ConvertEntries | src/main/java/org/apache/camel/component/smev3/Smev3Producer.java:178-226 | The loop computes `Iterate` over the entries in map order, with matching identifier draws and FTP trace. |
| Smev3Producer.Smev3Producer.ConvertNext | src/main/java/org/apache/camel/component/smev3/Smev3Producer.java:178-225 | One loop pass: the converted prefix grows by this entry, or the whole loop's result is this entry's failure, with the identifiers and FTP trace accounted. |
| Smev3Producer.Smev3Producer.GetAttachments | src/main/java/org/apache/camel/component/smev3/Smev3Producer.java:171-229 | The result is the iteration over the exchange's attachments. It is empty without attachment support or attachments. |
| Smev3Producer.MessageIdOf | src/main/java/org/apache/camel/component/smev3/Smev3Producer.java:83 | The message-id header, or the generated id when it is absent. |
| Smev3Producer.MetadataFor | src/main/java/org/apache/camel/component/smev3/Smev3Producer.java:83-134 | The identity is built from the headers. Request carries request information, with the test flag false when absent. Response, Status and Reject carry response information. Ack carries only a context with the transport id. |
| Smev3Producer.PayloadCases | src/main/java/org/apache/camel/component/smev3/Smev3Producer.java:96-128 | Request and Response carry the parsed content, its signature and the converted attachments. Status carries the status code read as Integer and the description; a status code that does not convert fails the payload. Reject carries the reason code. A content error fails the payload. |
| Smev3Producer.Payload | src/main/java/org/apache/camel/component/smev3/Smev3Producer.java:96-128 | Reference definition of the business content per mode. Its cases are stated by `PayloadCases` and its use by `BuildPayload`. |
| Smev3Producer.AttachmentRun | src/main/java/org/apache/camel/component/smev3/Smev3Producer.java:100-128 | Reference definition: the attachment conversion runs only for Request and Response with a parsable body. `AttachmentRunSkipped` states the other modes. |
| Smev3Producer.AttachmentRunSkipped | src/main/java/org/apache/camel/component/smev3/Smev3Producer.java:100-128 | Status and Reject, and a body that does not parse, never convert attachments. |
| Smev3Producer.AckOutcome | src/main/java/org/apache/camel/component/smev3/Smev3Producer.java:137 | An ack passes iff the broker accepts it. |
| Smev3Producer.AcceptedDefaultsToTrue | src/main/java/org/apache/camel/component/smev3/Smev3Producer.java:133 | Without an accepted header, the ack is sent with true. |
| Smev3Producer.Smev3Producer.constructor | src/main/java/org/apache/camel/component/smev3/Smev3Producer.java:50-78 | The FTP transport is built from the memoised large-attachment configuration. |
| Smev3Producer.Smev3Producer.SendAndProcessResult | src/main/java/org/apache/camel/component/smev3/Smev3Producer.java:143-147 | One send. Its result's metadata is filled into the exchange headers, or the send error propagates with headers untouched. |
| Smev3Producer.Smev3Producer.Acknowledge | src/main/java/org/apache/camel/component/smev3/Smev3Producer.java:129-138 | One ack with the accepted header (true when absent). A non-boolean header fails with a null dereference and makes no call. |
| Smev3Producer.Smev3Producer.BuildPayload | src/main/java/org/apache/camel/component/smev3/Smev3Producer.java:96-128 | The business content is `Payload`, after the attachment run that the mode requires. |
| Smev3Producer.Smev3Producer.Process | src/main/java/org/apache/camel/component/smev3/Smev3Producer.java:81-141 | One identifier is drawn first. Ack mode calls ack and never send, uploads nothing and leaves headers unchanged. Every other mode sends once iff its payload builds, and fills headers from the result. Body and attachments are never changed. |
| Smev3Producer.Smev3Producer.AcknowledgeExchange | src/main/java/org/apache/camel/component/smev3/Smev3Producer.java:129-138 | Ack mode: exactly one identifier is drawn, and it becomes the message id unless the headers give one. Then the ack is as for `Acknowledge`. |
| Smev3Producer.Smev3Producer.DeliverExchange | src/main/java/org/apache/camel/component/smev3/Smev3Producer.java:83-128 | A non-ack mode draws one identifier. Draws continue from there for each uploaded attachment, and the FTP trace is that of the conversion run. The send happens exactly when the payload builds. A completed send fills the headers from the reply's metadata. |
| Smev3Producer.Smev3Producer.Deliver | src/main/java/org/apache/camel/component/smev3/Smev3Producer.java:96-128 | A non-ack mode builds its payload, then sends it, or fails without sending. |
| InMemoryAttachmentsStrategy.Get | src/main/java/org/apache/camel/component/smev3/strategy/InMemoryAttachmentsStrategy.java:15-19 | Never null. A fresh, empty buffer named after the attachment, with the given MIME type. All other arguments are ignored. |
| InMemoryAttachmentsStrategy.Process | src/main/java/org/apache/camel/component/smev3/strategy/InMemoryAttachmentsStrategy.java:21-26 | Sets the length header to the decimal count of bytes written and returns true. A non-memory handler is a class-cast error. |
| InMemoryAttachmentsStrategy.Done | src/main/java/org/apache/camel/component/smev3/strategy/InMemoryAttachmentsStrategy.java:28-31 | Changes nothing and passes. |
| InMemoryAttachmentsStrategy.ProcessedLengthReadsBack | src/main/java/org/apache/camel/component/smev3/strategy/InMemoryAttachmentsStrategy.java:24 | The length header written by `process` reads back as the byte count. |
| FileAttachmentsStrategy.DefaultStore | src/main/java/org/apache/camel/component/smev3/strategy/FileAttachmentsStrategy.java:17-20 | The default store is Paths.get(tmpdir, "smev3", "fileattachments"): in normal form, named "fileattachments", and exactly tmpdir/smev3/fileattachments when tmpdir is itself a normal path other than "/". |
| FileAttachmentsStrategy.DefaultStoreTrailingSeparator | src/main/java/org/apache/camel/component/smev3/strategy/FileAttachmentsStrategy.java:19 | A trailing '/' on java.io.tmpdir makes no difference: "/tmp/" gives "/tmp/smev3/fileattachments". |
| FileAttachmentsStrategy.PathsGetTrailingSeparator | src/main/java/org/apache/camel/component/smev3/strategy/FileAttachmentsStrategy.java:19 | Paths.get(first + "/", a, b) equals Paths.get(first, a, b). |
| FileAttachmentsStrategy.StagingPath | src/main/java/org/apache/camel/component/smev3/strategy/FileAttachmentsStrategy.java:27-31 | The staging file is the normalised Paths.get(store, messageId, attachmentName) made absolute against the working directory: in normal form, absolute whenever the working directory is, and named after the attachment when the name is one path component. |
| FileAttachmentsStrategy.StagingPathUnderAbsoluteStore | src/main/java/org/apache/camel/component/smev3/strategy/FileAttachmentsStrategy.java:30 | With an absolute, normal store, the staging file is store/messageId/attachmentName. |
| FileAttachmentsStrategy.StagingPathUnderRelativeStore | src/main/java/org/apache/camel/component/smev3/strategy/FileAttachmentsStrategy.java:30 | A relative store resolves against the working directory: the staging file is cwd/store/messageId/attachmentName, so the store "att" gives <user.dir>/att/m/a.pdf. |
| FileAttachmentsStrategy.PathsGetOfComponents | src/main/java/org/apache/camel/component/smev3/strategy/FileAttachmentsStrategy.java:30 | Paths.get of a normal store and two components is their '/'-joined text, and that text is normal. |
| FileAttachmentsStrategy.Get | src/main/java/org/apache/camel/component/smev3/strategy/FileAttachmentsStrategy.java:27-31 | Gives a fresh handle on the staging path and creates no file. A missing message id is a null dereference. |
| FileAttachmentsStrategy.Process | src/main/java/org/apache/camel/component/smev3/strategy/FileAttachmentsStrategy.java:33-39 | Sets the content reference to the file path and the length to the file size, then returns true. |
| FileAttachmentsStrategy.ProcessedHeadersDescribeFile | src/main/java/org/apache/camel/component/smev3/strategy/FileAttachmentsStrategy.java:36-37 | The written headers read back as the path and the size. |
| FileAttachmentsStrategy.Done | src/main/java/org/apache/camel/component/smev3/strategy/FileAttachmentsStrategy.java:41-45 | Removes exactly that file, whether or not it exists. |
| AttachmentsStrategy.ReleaseIdempotent | src/main/java/org/apache/camel/component/smev3/strategy/FileAttachmentsStrategy.java:41-45 | For every strategy, the files after `done` on a handler twice are the files after it once. |
| AttachmentsStrategy.Get | src/main/java/org/apache/camel/component/smev3/strategy/AttachmentsStrategy.java:11 | Dispatches the 8-argument `get` to the configured strategy. It raises exactly when the file strategy gets a null message id (a null dereference) or a bean raises, and hands out a handler exactly when the strategy supplies one. The in-memory result is a fresh, empty, named buffer. The file strategy's is a handle on `StagingPath`. A bean's buffer or file is handed out as chosen, and a bean may return null. |
| AttachmentsStrategy.Process | src/main/java/org/apache/camel/component/smev3/strategy/AttachmentsStrategy.java:12 | Dispatches `process`. The in-memory and file strategies keep their own kind of handler and fail with a class-cast error on the other kind. A bean's answer, keep, drop or an exception, is passed on. The headers end as `ProcessedHeaders` gives: the in-memory length or the file's reference and length, nothing changed after a failed cast, and a bean's chosen headers. A true result means the strategy keeps the attachment. |
| AttachmentsStrategy.ProcessedHeaders | src/main/java/org/apache/camel/component/smev3/strategy/AttachmentsStrategy.java:12 | Reference definition of the headers `process` leaves, per strategy, for a handler holding a given number of bytes (`Written`). It is used by `Process`, `Expose` and `Publish`. |
| AttachmentsStrategy.AfterDoneOne | src/main/java/org/apache/camel/component/smev3/strategy/AttachmentsStrategy.java:13 | Reference definition of the files left after `done` on one handler, per strategy. It is used by `Done` and `Smev3Consumer.AfterDone`. |
| AttachmentsStrategy.Done | src/main/java/org/apache/camel/component/smev3/strategy/AttachmentsStrategy.java:13 | Dispatches `done`. The in-memory strategy changes nothing. The file strategy deletes the staged file, or fails with a class-cast error on a buffer. A bean's outcome is passed on and the files it chooses for that handler are deleted. The files left are `AfterDoneOne`. |
| ByteArrayDataSource.ByteArrayDataSource.constructor | src/main/java/org/apache/camel/component/smev3/strategy/ByteArrayDataSource.java:11-20 | A new source has the given name and type, and an empty buffer. |
| ByteArrayDataSource.ByteArrayDataSource.GetContentType | src/main/java/org/apache/camel/component/smev3/strategy/ByteArrayDataSource.java:22-25 | The given type, or "application/octet-stream" when constructed with null. |
| ByteArrayDataSource.ByteArrayDataSource.GetInputStream | src/main/java/org/apache/camel/component/smev3/strategy/ByteArrayDataSource.java:27-30 | A snapshot of exactly the bytes written so far. |
| ByteArrayDataSource.ByteArrayDataSource.GetOutputStream | src/main/java/org/apache/camel/component/smev3/strategy/ByteArrayDataSource.java:37-40 | Always the same buffer. |
| ByteArrayDataSource.ByteArrayOutputStream.Write | src/main/java/org/apache/camel/component/smev3/strategy/ByteArrayDataSource.java:13 | Appends to the buffer. |
| ByteArrayDataSource.WriteReadScenario | src/main/java/org/apache/camel/component/smev3/strategy/ByteArrayDataSource.java:16-40 | Writes through two `getOutputStream` calls append. An earlier snapshot keeps the earlier bytes. The name is the constructor's. |
| Smev3Constants.Set | src/main/java/org/apache/camel/component/smev3/Smev3Constants.java:20-24 | The exchange headers become `Put` of the old ones. The body and attachments are unchanged. |
| Smev3Constants.AttachmentSet | src/main/java/org/apache/camel/component/smev3/Smev3Constants.java:56-60 | The attachment headers become `AttachmentPut` of the old ones. |
| Smev3Constants.AttachmentGet | src/main/java/org/apache/camel/component/smev3/Smev3Constants.java:36-54 | Absent gives the default. String is raw, Integer and Long are parsed decimals, bytes are Base64-decoded and UUID is parsed. Any other type is an error. |
| Smev3Constants.AttachmentNumberRoundTrip | src/main/java/org/apache/camel/component/smev3/Smev3Constants.java:36-60 | A number written to an attachment header reads back as Integer and as Long. |
| Smev3Constants.PrintStackTrace | src/main/java/org/apache/camel/component/smev3/Smev3Constants.java:124-132 | The loop builds the concatenation of "\tat " plus each frame, with no separator. |
| Smev3Constants.StackTraceConcat | src/main/java/org/apache/camel/component/smev3/Smev3Constants.java:124-132 | The trace text of two frame lists is the concatenation of their texts. |
| Smev3Constants.StackTraceLength | src/main/java/org/apache/camel/component/smev3/Smev3Constants.java:124-132 | The trace length is 4 per frame plus the frames' lengths. |
| Smev3Constants.FillExchangeHeaders | src/main/java/org/apache/camel/component/smev3/Smev3Constants.java:62-122 | The headers become `FilledHeaders`. The body and attachments are unchanged. |
| Smev3Constants.FilledHeaders | src/main/java/org/apache/camel/component/smev3/Smev3Constants.java:62-122 | Reference definition of the headers after fillExchangeHeaders, block by block. The Fill lemmas below state its properties. |
| Smev3Constants.IdentityHeaders | src/main/java/org/apache/camel/component/smev3/Smev3Constants.java:66-71 | Reference definition of the identity block's writes. |
| Smev3Constants.ProcessingHeaders | src/main/java/org/apache/camel/component/smev3/Smev3Constants.java:72-88 | Reference definition of the processing block's writes. |
| Smev3Constants.ContextHeaders | src/main/java/org/apache/camel/component/smev3/Smev3Constants.java:89-120 | Reference definition of the context block's writes. |
| Smev3Constants.FaultHeaders | src/main/java/org/apache/camel/component/smev3/Smev3Constants.java:110-120 | Reference definition of the exception headers, with the dump from `PrintException`. `ExceptionCodeOnlyForProcessingFaults` states the code header. |
| Smev3Constants.FillProcessing | src/main/java/org/apache/camel/component/smev3/Smev3Constants.java:72-88 | The processing block's headers are written. |
| Smev3Constants.FillContext | src/main/java/org/apache/camel/component/smev3/Smev3Constants.java:89-120 | The context block's headers are written. |
| Smev3Constants.FillIsOverride | src/main/java/org/apache/camel/component/smev3/Smev3Constants.java:62-122 | Filling overrides the old headers with a map that depends only on the metadata. |
| Smev3Constants.FillIdempotent | src/main/java/org/apache/camel/component/smev3/Smev3Constants.java:62-122 | Filling twice equals filling once. |
| Smev3Constants.FillKeepsOtherHeaders | src/main/java/org/apache/camel/component/smev3/Smev3Constants.java:62-122 | Headers outside the metadata names are preserved. |
| Smev3Constants.FillWithoutMetadata | src/main/java/org/apache/camel/component/smev3/Smev3Constants.java:64-65 | Null metadata, or metadata with only null blocks, changes nothing. |
| Smev3Constants.FillShape | src/main/java/org/apache/camel/component/smev3/Smev3Constants.java:62-122 | Filling applies the identity, then the processing, then the context block. |
| Smev3Constants.MessageIdCopied | src/main/java/org/apache/camel/component/smev3/Smev3Constants.java:66-71 | A non-null message id is copied into its header. |
| Smev3Constants.ReplyToFromContext | src/main/java/org/apache/camel/component/smev3/Smev3Constants.java:80-98 | A non-null context replyTo overwrites the response one. |
| Smev3Constants.ReplyToFromResponse | src/main/java/org/apache/camel/component/smev3/Smev3Constants.java:76-80 | Without a context replyTo, the response's replyTo is the header. |
| Smev3Constants.OriginalIdOnlyFromResponse | src/main/java/org/apache/camel/component/smev3/Smev3Constants.java:76-80 | OriginalMessageId is written only for response information. |
| Smev3Constants.TestFlagOnlyFromRequest | src/main/java/org/apache/camel/component/smev3/Smev3Constants.java:81-87 | TestMessage and EOL are written only for request information. |
| Smev3Constants.ExceptionCodeOnlyForProcessingFaults | src/main/java/org/apache/camel/component/smev3/Smev3Constants.java:110-120 | The exception code header is present iff the fault is a processing exception with a code. |
| Smev3Constants.FillKeepsAccepted | src/main/java/org/apache/camel/component/smev3/Smev3Constants.java:62-122 | Filling never touches the accepted header. |
| Smev3Configuration.QueryTypeOf | src/main/java/org/apache/camel/component/smev3/Smev3Configuration.java:100-125 | Request and Ack query REQUEST, Response and Reject RESPONSE, Status STATUS. |
| Smev3Configuration.ParseMode | src/main/java/org/apache/camel/component/smev3/Smev3Configuration.java:100-127 | The mode is the one whose name matches ignoring case. No match raises IllegalArgument. |
| Smev3Configuration.NoModeNamed | src/main/java/org/apache/camel/component/smev3/Smev3Configuration.java:126-127 | A text matching none of the five names names no mode. |
| Smev3Configuration.ParseModeIgnoresCase | src/main/java/org/apache/camel/component/smev3/Smev3Configuration.java:100-125 | Every spelling equal ignoring case parses to that mode. |
| Smev3Configuration.ParseBodyType | src/main/java/org/apache/camel/component/smev3/Smev3Configuration.java:133-141 | Absent gives Content. Otherwise matched ignoring case. Unknown raises IllegalArgument. |
| Smev3Configuration.NoBodyTypeNamed | src/main/java/org/apache/camel/component/smev3/Smev3Configuration.java:139-141 | A text matching none of the three names names no body type. |
| Smev3Configuration.ParseBodyTypeIgnoresCase | src/main/java/org/apache/camel/component/smev3/Smev3Configuration.java:133-141 | Every spelling equal ignoring case parses to that body type. |
| Smev3Configuration.ParamBool | src/main/java/org/apache/camel/component/smev3/Smev3Configuration.java:143-146 | An absent parameter gives the default. "true" and "false" ignoring case convert. Anything else fails the conversion for that key. |
| Smev3Configuration.ParamInt | src/main/java/org/apache/camel/component/smev3/Smev3Configuration.java:144 | An absent parameter gives the default. Otherwise the decimal int, or a conversion error. |
| Smev3Configuration.EnvInt | src/main/java/org/apache/camel/component/smev3/Smev3Configuration.java:151-153 | An int property through Spring's conversion. An absent or empty value gives the default. Otherwise the text is read by `ParseSpringInt`, and text it rejects is a conversion error. |
| Smev3Configuration.EnvBool | src/main/java/org/apache/camel/component/smev3/Smev3Configuration.java:169-173 | A boolean property through Spring's conversion. The value is trimmed; absent or blank gives the default. true/on/yes/1 give true and false/off/no/0 give false, compared after ASCII lower-casing. Any other text is a conversion error, and exactly then. |
| Smev3Configuration.ParseSpringInt | src/main/java/org/apache/camel/component/smev3/Smev3Configuration.java:151-153 | NumberUtils.parseNumber for Integer. Every white-space character is removed first. A spelling with an optional '-' then 0x, 0X or # is read as hexadecimal by Integer.decode, and any other spelling by Integer.valueOf. The result is always within int range. |
| Smev3Configuration.StripWhitespace | src/main/java/org/apache/camel/component/smev3/Smev3Configuration.java:151-153 | StringUtils.trimAllWhitespace: no white space is left, and text without white space is unchanged. |
| Smev3Configuration.StripWhitespaceConcat | src/main/java/org/apache/camel/component/smev3/Smev3Configuration.java:151-153 | Removing white space distributes over concatenation. |
| Smev3Configuration.SpringIntIgnoresWhitespace | src/main/java/org/apache/camel/component/smev3/Smev3Configuration.java:151-153 | A white-space character anywhere in an int property does not change its value, so "524288 " reads as 524288. |
| Smev3Configuration.SpringIntDecimal | src/main/java/org/apache/camel/component/smev3/Smev3Configuration.java:151-153 | The decimal text of every int converts back to it. |
| Smev3Configuration.SpringIntHex | src/main/java/org/apache/camel/component/smev3/Smev3Configuration.java:151-153 | 0x, 0X and # spell hexadecimal, with an optional leading minus. The value converts iff it is within int range, so -0x80000000 is accepted. |
| Smev3Configuration.Trim | src/main/java/org/apache/camel/component/smev3/Smev3Configuration.java:169-173 | String.trim(): no longer than the input, and a non-empty result neither starts nor ends with a character up to U+0020. |
| Smev3Configuration.TrimPadding | src/main/java/org/apache/camel/component/smev3/Smev3Configuration.java:169-173 | Trimming removes exactly the padding around text that neither starts nor ends with a character up to U+0020. |
| Smev3Configuration.LowerAscii | src/main/java/org/apache/camel/component/smev3/Smev3Configuration.java:169-173 | Lower-casing that maps exactly the ASCII capitals and keeps every other character. |
| Smev3Configuration.EnvBoolPaddedWord | src/main/java/org/apache/camel/component/smev3/Smev3Configuration.java:169-173 | A padded true or false word in any ASCII case converts to its meaning, so "  YES\n" is true. |
| Smev3Configuration.EnvBoolLongS | src/main/java/org/apache/camel/component/smev3/Smev3Configuration.java:169-173 | "yeſ" is no true word, so the conversion raises, although equalsIgnoreCase would relate it to "yes". |
| Smev3Configuration.TransferOf | src/main/java/org/apache/camel/component/smev3/Smev3Configuration.java:148-153 | The FTP address, login and password come from the environment with their defaults. |
| Smev3Configuration.SignerOf | src/main/java/org/apache/camel/component/smev3/Smev3Configuration.java:155-159 | Reference definition of the signer settings read from the environment, used by `GetSignerConfiguration`. |
| Smev3Configuration.ChecksOf | src/main/java/org/apache/camel/component/smev3/Smev3Configuration.java:169-173 | Reference definition of the validation and logging flags, read in order with `EnvBool`; the first failing one fails. |
| Smev3Configuration.EndpointOf | src/main/java/org/apache/camel/component/smev3/Smev3Configuration.java:161-167 | The main or reserve transport URL is the versioned property. |
| Smev3Configuration.Parse | src/main/java/org/apache/camel/component/smev3/Smev3Configuration.java:98-178 | Parsing follows the constructor's order. A mode error comes first. The query type follows the mode; the body type, version and strategy follow the parameters. Unknown parameters are left over. |
| Smev3Configuration.ParseDefaults | src/main/java/org/apache/camel/component/smev3/Smev3Configuration.java:45-50 | With no parameters: greedy, errorDelay 60000, autoAck, omitted XML declaration, Content body, InMemory strategy, default version. |
| Smev3Configuration.EnvironmentDefaults | src/main/java/org/apache/camel/component/smev3/Smev3Configuration.java:46-50 | With an empty environment: FTP login "anonymous", password "smev", retries 5, timeout 1000, threshold 524288; the store type; endpoint timeouts and retries; the validation flags. |
| Smev3Configuration.Create | src/main/java/org/apache/camel/component/smev3/Smev3Configuration.java:98-178 | Construction succeeds iff `Parse` does and carries its settings. It fails with `Parse`'s error. All six sub-configuration caches start empty. |
| Smev3Configuration.Smev3Configuration.constructor | src/main/java/org/apache/camel/component/smev3/Smev3Configuration.java:90-95 | A configuration over parsed settings has every sub-configuration cache empty. |
| Smev3Configuration.Smev3Configuration.GetSignerConfiguration | src/main/java/org/apache/camel/component/smev3/Smev3Configuration.java:230-269 | Built once from the signer settings, then the same object on every call. Other caches are unchanged. |
| Smev3Configuration.Smev3Configuration.GetMessageTransportConfiguration | src/main/java/org/apache/camel/component/smev3/Smev3Configuration.java:271-290 | Memoised. Its URL and timeout are the main transport's. |
| Smev3Configuration.Smev3Configuration.GetLargeAttachmentTransportConfiguration | src/main/java/org/apache/camel/component/smev3/Smev3Configuration.java:292-326 | Memoised. It carries the FTP settings. |
| Smev3Configuration.Smev3Configuration.GetWSTemplateConfiguration | src/main/java/org/apache/camel/component/smev3/Smev3Configuration.java:328-407 | Memoised WS template view of this configuration. |
| Smev3Configuration.Smev3Configuration.GetGeoTemplateConfiguration | src/main/java/org/apache/camel/component/smev3/Smev3Configuration.java:409-507 | Memoised geo template view of this configuration. |
| Smev3Configuration.TemplateConfiguration.GetSignerConfig | src/main/java/org/apache/camel/component/smev3/Smev3Configuration.java:339-342 | The outer, memoised signer configuration. |
| Smev3Configuration.TemplateConfiguration.GetLargeAttachmentTransportConfig | src/main/java/org/apache/camel/component/smev3/Smev3Configuration.java:359-362 | The outer, memoised large-attachment configuration. |
| Smev3Configuration.TemplateConfiguration.GetMessageTransportConfiguration | src/main/java/org/apache/camel/component/smev3/Smev3Configuration.java:399-402 | The outer, memoised message transport configuration. |
| Smev3Configuration.TemplateConfiguration.GetMessageGenerationConfig | src/main/java/org/apache/camel/component/smev3/Smev3Configuration.java:349-357 | The message-generation configuration is created once with no rejection exceptions and stored in the outer configuration. |
| Smev3Configuration.SharedMessageGeneration | src/main/java/org/apache/camel/component/smev3/Smev3Configuration.java:430-438 | The WS and geo templates return the same message-generation object. |
| Smev3Configuration.TemplateConfiguration.GetTransports | src/main/java/org/apache/camel/component/smev3/Smev3Configuration.java:480-501 | "main" comes before "reserve". Each is present iff its URL is non-null and non-empty. |
| ApacheFtpTransport.SplitAtColon | src/main/java/org/apache/camel/component/smev3/utils/ApacheFTPTransport.java:34 | A limit-2 split gives one or two parts. There is no colon in the first part. The parts rejoin to the input. |
| ApacheFtpTransport.Target | src/main/java/org/apache/camel/component/smev3/utils/ApacheFTPTransport.java:34-51 | No colon gives host only. Otherwise host and parsed port, where a non-numeric port is a transfer error. A null address fails. |
| ApacheFtpTransport.TargetSplitsAtFirstColon | src/main/java/org/apache/camel/component/smev3/utils/ApacheFTPTransport.java:34-51 | "host:port" connects to that host and port. |
| ApacheFtpTransport.ConnectPhase | src/main/java/org/apache/camel/component/smev3/utils/ApacheFTPTransport.java:29-72 | The first call sets the UTF-8 control encoding. Connect never disconnects or stores. Success means passive mode was entered, login was called and binary mode set last. Failures are transfer errors. |
| ApacheFtpTransport.DisconnectCalls | src/main/java/org/apache/camel/component/smev3/utils/ApacheFTPTransport.java:74-89 | It always asks whether connected. It logs out iff that succeeds, and never stores. |
| ApacheFtpTransport.Steps | src/main/java/org/apache/camel/component/smev3/utils/ApacheFTPTransport.java:119-128 | The steps run in order until the first failure. Success iff every step succeeded. |
| ApacheFtpTransport.DownloadSession | src/main/java/org/apache/camel/component/smev3/utils/ApacheFTPTransport.java:91-110 | Connect, retrieve, then disconnect. Failures are transfer errors. |
| ApacheFtpTransport.UploadSession | src/main/java/org/apache/camel/component/smev3/utils/ApacheFTPTransport.java:112-139 | Connect, the three upload steps, then disconnect. Failures are transfer errors. |
| ApacheFtpTransport.UploadSteps | src/main/java/org/apache/camel/component/smev3/utils/ApacheFTPTransport.java:121-127 | Reference definition of upload's operation: makeDirectory and changeWorkingDirectory with the UUID, then storeFile. |
| ApacheFtpTransport.ConnectFailureSkipsDisconnect | src/main/java/org/apache/camel/component/smev3/utils/ApacheFTPTransport.java:94-96 | A failed connect or login skips the operation and the disconnect. |
| ApacheFtpTransport.ConnectedSessionsDisconnect | src/main/java/org/apache/camel/component/smev3/utils/ApacheFTPTransport.java:106-109 | Once connected, the disconnect sequence ends the session whatever the operation did. |
| ApacheFtpTransport.DisconnectNeverMatters | src/main/java/org/apache/camel/component/smev3/utils/ApacheFTPTransport.java:74-89 | Disconnect replies never change a session's outcome or data. |
| ApacheFtpTransport.DownloadFailsIff | src/main/java/org/apache/camel/component/smev3/utils/ApacheFTPTransport.java:98-104 | After a connect, the download fails iff retrieveFile fails or throws. |
| ApacheFtpTransport.UploadStopsAtFirstFailure | src/main/java/org/apache/camel/component/smev3/utils/ApacheFTPTransport.java:119-128 | makeDirectory, then changeWorkingDirectory, then storeFile. The first failure stops the later steps. |
| ApacheFtpTransport.CredentialsFromAttachment | src/main/java/org/apache/camel/component/smev3/utils/ApacheFTPTransport.java:93-94 | Login uses the attachment's transport details. |
| ApacheFtpTransport.StoredFiles | src/main/java/org/apache/camel/component/smev3/utils/ApacheFTPTransport.java:127 | The remote names of a call trace's storeFile calls, in order. It is empty iff the trace stores nothing, and every name comes from a storeFile call of the trace. |
| ApacheFtpTransport.UploadStoresOnce | src/main/java/org/apache/camel/component/smev3/utils/ApacheFTPTransport.java:112-139 | A successful upload session stores exactly that file once. |
| ApacheFtpTransport.ApacheFtpTransport.constructor | src/main/java/org/apache/camel/component/smev3/utils/ApacheFTPTransport.java:23-27 | The transport is bound to the configured address and its client. |
| ApacheFtpTransport.ApacheFtpTransport.ConnectAndLogin | src/main/java/org/apache/camel/component/smev3/utils/ApacheFTPTransport.java:29-72 | The client calls, including the two client-local settings, are exactly `ConnectPhase`'s, with its outcome. |
| ApacheFtpTransport.ApacheFtpTransport.DisconnectQuietly | src/main/java/org/apache/camel/component/smev3/utils/ApacheFTPTransport.java:74-89 | The client calls are exactly `DisconnectCalls`. It never fails. |
| ApacheFtpTransport.ApacheFtpTransport.Download | src/main/java/org/apache/camel/component/smev3/utils/ApacheFTPTransport.java:91-110 | Calls, outcome and received bytes are `DownloadSession`'s. |
| ApacheFtpTransport.ApacheFtpTransport.Upload | src/main/java/org/apache/camel/component/smev3/utils/ApacheFTPTransport.java:112-139 | Calls and outcome are `UploadSession`'s. |
| ApacheFtpTransport.ApacheFtpTransport.UploadSteps3 | src/main/java/org/apache/camel/component/smev3/utils/ApacheFTPTransport.java:119-128 | The three upload steps are `Steps` over makeDirectory, changeWorkingDirectory and storeFile. |
| ApacheFtpTransport.FtpClient.Call | src/main/java/org/apache/camel/component/smev3/utils/ApacheFTPTransport.java:21 | A client call answers from the script and is appended to the trace. |
| Attachments.SentHeaders | src/main/java/org/apache/camel/component/smev3/utils/Attachments.java:31-35 | Length is the decimal size. MIME type is present iff given. Name is the file name. UUID is present iff the id is non-null and non-empty. There are no other headers. |
| Attachments.SentHeadersReadBack | src/main/java/org/apache/camel/component/smev3/utils/Attachments.java:31-35 | The headers read back as the size, name and UUID. |
| Attachments.FileAttachment | src/main/java/org/apache/camel/component/smev3/utils/Attachments.java:29-35 | A fresh attachment over the file whose headers are exactly `SentHeaders`: length, MIME type, name, and the UUID only when given and not empty. |
| Attachments.SendFile | src/main/java/org/apache/camel/component/smev3/utils/Attachments.java:23-39 | No-op without an attachment message. Otherwise the attachment is put under the file name, replacing any entry of that key. |
| Attachments.SourceOf | src/main/java/org/apache/camel/component/smev3/utils/Attachments.java:52-54 | What an attachment's data handler reads from: its buffer or its file. |
| Attachments.ItemsOf | src/main/java/org/apache/camel/component/smev3/utils/Attachments.java:47-53 | One save item per entry, in order. The target is Paths.get(rootPath, name) in normal form, where the name is the name header or else the map key. |
| Attachments.ItemTarget | src/main/java/org/apache/camel/component/smev3/utils/Attachments.java:50-53 | A save target is in normal form, its last component is the name when the name is one path component, and under a normal root it is root/name. |
| Attachments.SaveOne | src/main/java/org/apache/camel/component/smev3/utils/Attachments.java:53-57 | Writes the source's bytes to the target. An unwritable target fails before anything changes. |
| Attachments.SaveEntry | src/main/java/org/apache/camel/component/smev3/utils/Attachments.java:49-57 | One loop iteration performs `SaveOne`. |
| Attachments.SaveEntries | src/main/java/org/apache/camel/component/smev3/utils/Attachments.java:47-58 | The loop performs `SaveAll`. |
| Attachments.SaveAttachments | src/main/java/org/apache/camel/component/smev3/utils/Attachments.java:41-60 | Nothing happens without attachments. Otherwise every entry is saved in order until the first failure. |
| Attachments.SaveAllStopsAtFailure | src/main/java/org/apache/camel/component/smev3/utils/Attachments.java:47-58 | The first failing entry ends the save. |
| Attachments.SaveAllWritesEveryTarget | src/main/java/org/apache/camel/component/smev3/utils/Attachments.java:47-58 | A successful save leaves a file at every target. |
| Attachments.UnwritableTargetFails | src/main/java/org/apache/camel/component/smev3/utils/Attachments.java:53 | Any unwritable target fails the save. |
| Attachments.SaveAllBuffered | src/main/java/org/apache/camel/component/smev3/utils/Attachments.java:47-58 | With buffered sources and distinct writable targets, each target holds its bytes. |
| Attachments.SaveAllBufferedFrame | src/main/java/org/apache/camel/component/smev3/utils/Attachments.java:47-58 | Files other than the targets are unchanged. |
| Attachments.SaveOntoItselfTruncates | src/main/java/org/apache/camel/component/smev3/utils/Attachments.java:53-56 | Saving a file onto itself truncates it, because the output is opened before the input is read. |
| AttachmentsUtils.UtilHeaders | src/main/java/org/apache/camel/component/smev3/utils/AttachmentsUtils.java:19-22 | Length is the decimal size, plus the given MIME type. The content reference is the path and the name is its last component. There is never a UUID. |
| AttachmentsUtils.UtilHeadersReadBack | src/main/java/org/apache/camel/component/smev3/utils/AttachmentsUtils.java:19-22 | The headers read back as the size, path and name. |
| AttachmentsUtils.SendFile | src/main/java/org/apache/camel/component/smev3/utils/AttachmentsUtils.java:14-24 | The attachment is keyed by the file name. No attachment message means a null dereference. |
| Camel.AsText | src/main/java/org/apache/camel/component/smev3/Smev3Constants.java:26-34 | A header read as a string, present iff set. |
| Camel.AsBool | src/main/java/org/apache/camel/component/smev3/Smev3Constants.java:26-34 | A header read as Boolean: a flag, or "true"/"false" text ignoring case. |
| Camel.AsInt | src/main/java/org/apache/camel/component/smev3/Smev3Constants.java:26-34 | A header read as Integer through Camel's converter. Absent gives null. A number is narrowed to int as `intValue()` does, congruent modulo 2^32. Text converts iff it is a decimal within int range, and otherwise fails with a conversion error. |
| Base.IntValue | src/main/java/org/apache/camel/component/smev3/Smev3Constants.java:26-34 | Number.intValue() on an integer: the int congruent to it modulo 2^32. |
| Base.IntValueOfInt | src/main/java/org/apache/camel/component/smev3/Smev3Constants.java:26-34 | Narrowing leaves an int unchanged. |
| Camel.IntHeaderRoundTrip | src/main/java/org/apache/camel/component/smev3/Smev3Constants.java:20-34 | An int written as decimal text reads back. |
| Camel.PutEntry | src/main/java/org/apache/camel/component/smev3/utils/Attachments.java:37 | An insertion-ordered attachment map put: a new key is appended and an existing key is replaced in place. |
| Camel.PutEntryLookup | src/main/java/org/apache/camel/component/smev3/utils/Attachments.java:37 | After a put the key finds the new attachment and other keys are unaffected. |
| Camel.PutEntryUnique | src/main/java/org/apache/camel/component/smev3/utils/Attachments.java:37 | A put keeps keys unique. |
| Camel.FileName | src/main/java/org/apache/camel/component/smev3/utils/Attachments.java:29-33 | File.getName() of `new File(path)`: the last component of the normalised path. It has no '/', and a path without '/' is its own name. |
| Camel.FileNameOfJoin | src/main/java/org/apache/camel/component/smev3/strategy/FileAttachmentsStrategy.java:30 | The name of Paths.get(parent, child) is child, for a child that is one path component. |
| Camel.Normalize | src/main/java/org/apache/camel/component/smev3/strategy/FileAttachmentsStrategy.java:19 | The text form of a Unix path as Paths.get and java.io.File keep it: no doubled '/', no trailing '/' except the root, and the first character unchanged. |
| Camel.NormalizeOfNormal | src/main/java/org/apache/camel/component/smev3/strategy/FileAttachmentsStrategy.java:19 | Normalising a path already in normal form changes nothing. |
| Camel.CollapseDoubleSlash | src/main/java/org/apache/camel/component/smev3/strategy/FileAttachmentsStrategy.java:19 | A doubled separator normalises like a single one. |
| Camel.PathsGet | src/main/java/org/apache/camel/component/smev3/strategy/FileAttachmentsStrategy.java:19 | Paths.get(first, more...): the parts joined by '/', skipping empty ones, then normalised. The result is normal, and its name is the last part when that is one path component. |
| Camel.JoinPath | src/main/java/org/apache/camel/component/smev3/utils/Attachments.java:53 | Paths.get(parent, child): in normal form, and named child when child is one path component. |
| Camel.JoinPathOfNormal | src/main/java/org/apache/camel/component/smev3/utils/Attachments.java:53 | Under a normal parent other than "/", Paths.get(parent, child) is parent/child. |
| Camel.JoinPathTrailingSeparator | src/main/java/org/apache/camel/component/smev3/utils/Attachments.java:53 | A trailing '/' on the parent makes no difference: the root "out/" saves where "out" does. |
| Camel.AbsolutePath | src/main/java/org/apache/camel/component/smev3/strategy/FileAttachmentsStrategy.java:30 | toUri() then new File(uri): a relative path is resolved against the working directory, and the result is normal. It is absolute whenever the working directory is. |
| Camel.FileNameOfComponent | src/main/java/org/apache/camel/component/smev3/utils/Attachments.java:29-33 | A path that ends in a component is named by that component, whatever separators come before it. |
| Camel.FileNameTrailingSeparator | src/main/java/org/apache/camel/component/smev3/utils/Attachments.java:29-33 | A trailing '/' does not change the name: "dir/a.txt/" is named "a.txt". |
| Base.DecimalRoundTrip | src/main/java/org/apache/camel/component/smev3/strategy/InMemoryAttachmentsStrategy.java:24 | Decimal text parses back to its number. |
| Base.ParseRejectsNonDigits | src/main/java/org/apache/camel/component/smev3/Smev3Constants.java:41-45 | Text with a non-digit fails to parse. |
| Base.EqualsIgnoreCaseExclusive | src/main/java/org/apache/camel/component/smev3/Smev3Configuration.java:100-127 | No text equals two names that differ ignoring case. |

## Left out

- Concurrency: the Camel scheduler, greedy polling (the `greedy` option is parsed but not acted on) and the shared FTP client field. The model is one sequential pass.
- Logging, and `Thread.sleep`, which is recorded as a wait value.
- The SMEV3 library and the signer are values and scripted stand-ins. The Camel and Spring text conversions the component relies on are modelled, in `camel.dfy`, `smev3_constants.dfy` and `smev3_configuration.dfy`.
  - Base64 (RFC 4648 section 4), UUID text (RFC 4122 section 3), XML serialisation and parsing, the URI text that `Path.toUri()` gives for the URI-typed attachment header, digests and signatures are caller-supplied function values.
- UUIDGenerator (time, randomness, MAC address): modelled as a caller-chosen identifier source.
- The global crypto-provider registration and endpoint wiring in Smev3Component.java are not part of this model.
- Smev3Endpoint.java is used only for the driver order its poll strategy implies.
- `SMEVSignatureException` from the signer, and the constructor failure wrapped into `FailedToCreateConsumerException`: the signer and factories are taken to succeed.
- The producer's final `else` of the mode dispatch cannot be reached, because the mode is one of the five values. The model has no branch for it.
- The `AttachmentsStrategy` interface declares a 6-argument `get`, while the consumer and the in-memory strategy use 8 arguments. The 8-argument form is modelled.
- The anonymous template classes' getters that return a constant null (identity, validator, local storage) and their logging and validation flags are not modelled.
- A constructor that fails after assigning some fields is modelled as failing with no configuration object.
- The SMEV version is a caller-given "known version" predicate on text; the version enum's own values are not modelled.
- Paths on a file system other than Unix's, and the `InvalidPathException` that `Paths.get` raises for a NUL character, are not modelled. Neither are `Paths.get` with a null store and a symbolic link: files are keyed by normalised path text, so a relative and an absolute spelling of one file are two keys.
- AttachmentsStrategy.Process: a bean's `process` is a function of the attachment's headers only: its answer and the headers it leaves do not depend on the handler's bytes or on the exchange.
- AttachmentsStrategy.Done: a bean's `done` ends with a chosen outcome and deletes a chosen set of files for each handler. Any other effect it may have, such as writing files, is not modelled.
- Camel.Headers: header names are compared exactly, in exchange headers and in attachment headers alike. Camel keeps both in case-insensitive maps, so a route that sets `camelsmev3messageaccepted` to false is read back by Camel as the accepted flag, and in the model it is not.
- Smev3Consumer.Smev3Consumer.Poll: reads the accepted flag under its exact name (see Camel.Headers).
- Camel.FileSystem: directories are not modelled. Files are keyed by path, so `FileUtils.deleteQuietly` is deleting one file, never a directory tree, and a deletion never fails. Writing a staged file does not need `store/messageId` to exist; the caller-chosen `unwritable` paths stand for the writes that would fail, including for a missing directory.
- AttachmentsStrategy.Get: a bean's `get` is given as a function of the attachment name and ordinal only; the message id, attachment id, MIME type and signature it also receives do not influence its choice in the model.
- ApacheFtpTransport.FtpClient.Call: the scripted client answers a call by the call alone, not by its position in the trace. Two sessions on the one client therefore see the same connect and login replies, and `isConnected` does not depend on whether connect ran. A server that accepts one session and refuses the next is not expressible.
- Smev3Constants.AttachmentGet: Integer and Long text is read with the ASCII digits '0'-'9' only. Java's `Integer.parseInt` and `Long.parseLong` also accept every other Unicode decimal digit (Arabic-Indic "١٢" reads as 12); which characters those are depends on the JDK's Unicode tables, so they are not modelled. The same holds for the members below.
- Base.ParseRejectsNonDigits: rejects non-ASCII decimal digits, which Java accepts (see AttachmentGet).
- Smev3Producer.LengthOf: the length header is read with ASCII digits only (see AttachmentGet).
- ApacheFtpTransport.Target: the port is read with ASCII digits only (see AttachmentGet).
- Smev3Configuration.ParamInt: the parameter is read with ASCII digits only (see AttachmentGet).
- Camel.AsInt: text is read with ASCII digits only (see AttachmentGet).
- Smev3Configuration.EnvInt: decimal and hexadecimal digits are ASCII only; `Integer.decode` also accepts other Unicode digits and full-width Latin letters (see AttachmentGet).
- Smev3Configuration.ParseSpringInt: the same as EnvInt.
- Smev3Configuration.EnvBool: lower-casing is modelled for ASCII capitals only. No other character lower-cases onto an ASCII letter of the words true/on/yes/false/off/no, so the set of accepted texts is unchanged.
- Smev3Constants.PrintException: the stack trace text `Throwable.printStackTrace` writes is JDK output. It is the fault's given `printed` text, or "oops!" when printing fails.
- Smev3Consumer.Smev3Consumer.Poll: the route sees headers and body only, as a function of them; what it does to attachments is not modelled.
- Smev3Consumer.Smev3Consumer.Poll: a route exception is returned as `Execution(text)`; Camel's `CamelExecutionException` wrapping is not modelled.
- Smev3Consumer.Smev3Consumer.FillExchangeAttachments: states the staging requests, the staged and exposed buffers and failures. It does not state the accumulated FTP trace, the file-system writes or the headers of each exposed attachment, which `WriteInline`, `Fetch`, `StageMtom`, `StageLarge` and the strategies state per attachment.
- Smev3Consumer.Smev3Consumer.StageLarge: states the FTP trace as either unchanged or one download session, without naming which case each outcome is.
- Smev3Consumer.Smev3Consumer.Fetch: the same as StageLarge: a failure to open the stream and a failed download are not told apart in the contract.
- Smev3Consumer.Smev3Consumer.Describe: the hash header of a large attachment is the text a Java `byte[]` prints as (`Object.toString`). It is kept as a caller-supplied function, not a decoded value.
- Smev3Producer.Smev3Producer.Process: `accepted` is unboxed from Boolean. A header that is neither a flag nor Boolean text is modelled as a null dereference.
- Smev3Producer.Smev3Producer.constructor: only the large-attachment transport is built from the configuration. The signer, identity service and broker are given.
- Smev3Configuration.Smev3Configuration.GetGeoTemplateConfiguration: the geo template's message transport list is modelled by `GetTransports`. Its other getters are the same memoised outer objects as the WS template's.
