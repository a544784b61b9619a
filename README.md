# RESTinCurl request builder and data handlers, in Dafny

This project models the header-only C++ library RESTinCurl in the early,
synchronous form of `include/restincurl/restincurl.h`. It covers three parts.

1. **The data handlers.** These are libcurl-compatible callbacks.
   - `InDataHandler::write_callback` appends each received chunk to a
     container the caller owns.
   - `OutDataHandler::read_callback` serves an owned buffer in chunks. A
     cursor (`sendt_bytes_`) records how far it has got.
2. **`RequestBuilder`.** This is a one-shot builder with these steps:
   - choose a verb and a URL once;
   - add headers, data handlers and a completion function;
   - `Build`: turn the flags into curl options, exactly once;
   - `Execute`: build, perform, then call the completion function.
3. **`Request`.** It maps the chosen verb to the one curl option that
   selects it.

libcurl is outside the model. An `EasyHandle` stands in for it:
- `settings` logs every `curl_easy_setopt` call in order, including calls
  libcurl rejects;
- `verdict` is a fixed function that gives libcurl's `CURLcode` answer to
  each setting;
- `performs` counts `curl_easy_perform` calls. Each call's result code is a
  parameter of `Execute`.

A thrown exception becomes a `Fail` outcome or an `Err` result. A C++
`assert` that demands something of the caller becomes a `requires` clause.

Modules, leaves first:
- `Curl` (curl.dfy): option values, the easy handle and its log,
  `Options::Set`, and the functions `Attempt` and `SetAll`. These describe a
  run of throwing setopt calls.
- `DataHandlers` (data_handlers.dfy): `size_t` arithmetic, the two handlers,
  and the specification of successive reads (`Chunk`, `Serve`). It also has
  the read callback as the source writes it (`ReadAsWritten`).
- `Requests` (requests.dfy): `RequestType`, `SetRequestType` with its
  inverse `VerbOf`, and the `Request` class.
- `Builder` (request_builder.dfy): `RequestBuilder`, the pure description of
  `Build` (`BuildPlan`, `BuildSpec`) with lemmas about it, and `Client`.

`restincurl.h` has no worker thread, pending queue, concurrency bound,
wake signal or two-phase shutdown. `Client` only hands out builders, and
`Execute` runs the transfer on the caller's thread.

## Model

| member | source | states |
|---|---|---|
| `Curl.Options.constructor` | include/restincurl/restincurl.h:111 | the wrapper sets options on the handle it is given |
| `Curl.Options.Set` | include/restincurl/restincurl.h:115-126 | the setting is issued to the handle; a non-zero CURLcode comes back as a CurlException naming the option and the code |
| `Curl.SetResult` | include/restincurl/restincurl.h:116-120 | Options::Set passes iff libcurl answers CURLE_OK; otherwise the exception names the option that was rejected |
| `Curl.AttemptShape` | include/restincurl/restincurl.h:115-122 | a run of throwing setopt calls issues a prefix of its plan: the whole plan iff every setting is accepted, otherwise the accepted settings, then the first rejected one, whose exception is the outcome |
| `Curl.AttemptCons` | include/restincurl/restincurl.h:117-121 | a run goes past a setting only when libcurl accepts it |
| `DataHandlers.Bytes` | include/restincurl/restincurl.h:139 | `size * nitems` in size_t equals the true product whenever that product fits in 64 bits, and is 0 when either factor is 0 |
| `DataHandlers.InDataHandler.constructor` | include/restincurl/restincurl.h:134 | the handler appends to the caller's container, which it refers to and does not copy |
| `DataHandlers.InDataHandler.WriteCallback` | include/restincurl/restincurl.h:136-144 | returns `size * nitems`; the container afterwards is its old contents followed by exactly those bytes of the input; a zero-byte call leaves it unchanged |
| `DataHandlers.ReadLength` | include/restincurl/restincurl.h:159 | one read hands out the smaller of the room offered and the bytes left, so never more than either |
| `DataHandlers.Chunk` | include/restincurl/restincurl.h:159-163 | the bytes one read should hand out continue the data exactly where the cursor stands |
| `DataHandlers.OutDataHandler.constructor` | include/restincurl/restincurl.h:152-153 | a new handler owns the given data with its cursor at 0 |
| `DataHandlers.OutDataHandler.Empty` | include/restincurl/restincurl.h:151 | the defaulted handler has nothing to send |
| `DataHandlers.OutDataHandler.ReadCallback` | include/restincurl/restincurl.h:155-165 | returns min(room, bytes left) and advances the cursor by that much; the front of the buffer holds the next chunk and the rest of the buffer is untouched; the cursor never passes the end; everything read so far equals the data up to the cursor; at the end it returns 0 and writes nothing |
| `DataHandlers.ReadsConcatenate` | include/restincurl/restincurl.h:155-168 | for any sequence of reads, what was sent before them followed by what they hand out is a prefix of the data, so the total never exceeds the data's size |
| `DataHandlers.EndOfUpload` | include/restincurl/restincurl.h:159-164 | once the cursor is at the end, every further read hands out nothing |
| `DataHandlers.UploadCompletes` | include/restincurl/restincurl.h:155-165 | reads that each offer at least one byte of room, as many as there are bytes left, deliver the whole data in order |
| `DataHandlers.ReadAsWritten` | include/restincurl/restincurl.h:159-164 | the copy as written: undefined when the cursor lies past `out_bytes`, otherwise it writes `out_bytes - sendt_bytes_` bytes but reports `out_bytes`; on the first call it writes exactly the intended chunk |
| `DataHandlers.AsWrittenDiverges` | include/restincurl/restincurl.h:160-162 | after the first read, every read as written that has bytes to send is undefined or writes fewer bytes than it reports |
| `DataHandlers.AsWrittenShortCopy` | include/restincurl/restincurl.h:160-162 | uploading [1,2,3,4] with room for 1 and then 3 bytes: the second read writes [2,3] but reports 3, while the intended reads deliver [1,2,3,4] |
| `DataHandlers.AsWrittenUndefined` | include/restincurl/restincurl.h:160-162 | uploading [1,2,3] with room for 2 bytes twice: the second copy's range runs backwards |
| `Requests.Ordinal` | include/restincurl/restincurl.h:68 | the enumerators are numbered 0 to 7, and only INVALID is 7 |
| `Requests.SetRequestType` | include/restincurl/restincurl.h:203-228 | every verb but INVALID maps to one verb option that `VerbOf` maps back to that verb; INVALID throws "Unsupported request type" with its number |
| `Requests.SetRequestTypeInjective` | include/restincurl/restincurl.h:203-228 | two verbs that map to the same setting are the same verb |
| `Requests.Invocation` | include/restincurl/restincurl.h:194-196 | the completion function is called exactly once, with the perform result, and not at all when it is empty |
| `Requests.Request.constructor` | include/restincurl/restincurl.h:174-182 | a new request owns its handle, and its verb is INVALID |
| `Requests.Request.Prepare` | include/restincurl/restincurl.h:187-190 | records the verb, even INVALID; for a real verb it sets that verb's option and ignores libcurl's answer; INVALID fails and sets nothing |
| `Requests.Request.Execute` | include/restincurl/restincurl.h:192-197 | performs once, then calls the completion function with the result, if there is one |
| `Builder.DiscardWriteAsWritten` | include/restincurl/restincurl.h:243-247 | the no-op sink as written: it needs null user data, as its assert demands, and claims all `size * nitems` bytes |
| `Builder.DiscardWriteCallback` | include/restincurl/restincurl.h:243-247 | the no-op sink without the assert: it claims all `size * nitems` bytes whatever user data it gets, and agrees with the sink as written wherever that one is defined |
| `Builder.DiscardWriterGetsDefault` | include/restincurl/restincurl.h:373-375 | when no data is stored, Build installs the no-op sink but never sets CURLOPT_WRITEDATA; a non-null stream as user data breaks the assert of the sink as written but not the corrected sink |
| `Builder.BuildPlan` | include/restincurl/restincurl.h:373-389 | the options Build sets before the verb: between one and four of them, always ending with the URL |
| `Builder.BuildStep` | include/restincurl/restincurl.h:373-392 | the fixed order of Build's steps: write function, upload flag, headers, URL, verb |
| `Builder.BuildSpec` | include/restincurl/restincurl.h:370-395 | what one Build does: a built builder passes and issues nothing; a Build that builds always passes, needs a chosen verb, and issues the pre-verb options followed by the verb's option |
| `Builder.BuildPlanOptions` | include/restincurl/restincurl.h:373-389 | the pre-verb options of Build are: the discarding write function iff no data is stored, CURLOPT_UPLOAD iff data is sent, the header list iff at least one header was added, and always the URL last; nothing else; and they appear in the order of BuildStep |
| `Builder.BuildOutcomes` | include/restincurl/restincurl.h:370-395 | a built builder's Build does nothing; otherwise Build succeeds iff libcurl accepts every option and a verb was chosen; a rejected option stops Build there with its exception; a missing verb fails after the options with "Unsupported request type" 7; the builder is built iff Build passed |
| `Builder.BuildSuccessSettings` | include/restincurl/restincurl.h:373-393 | a successful Build issues the discarding writer iff no data is stored, CURLOPT_UPLOAD iff data is sent, and the headers iff any. It issues the URL second to last and the option of the chosen verb last, and all of them follow the order of BuildStep |
| `Builder.BuildIdempotent` | include/restincurl/restincurl.h:370-395 | after a Build that passed, Build again issues nothing and passes; after one that failed, Build again does the same thing |
| `Builder.ReaderSettings` | include/restincurl/restincurl.h:323-324 | sending data sets the read function, then its user data |
| `Builder.WriterSettings` | include/restincurl/restincurl.h:338-339 | storing data sets the write function, then its user data |
| `Builder.RequestBuilder.constructor` | include/restincurl/restincurl.h:250-253 | a new builder owns a new request on a new handle; it has no verb, no URL, no headers, no data flags and no completion, and it is not built |
| `Builder.RequestBuilder.Prepare` | include/restincurl/restincurl.h:262-268 | needs an unbuilt builder with no verb yet, so a verb is chosen once and only before building; records the verb and the URL |
| `Builder.RequestBuilder.Get` | include/restincurl/restincurl.h:271-273 | Prepare with GET |
| `Builder.RequestBuilder.Head` | include/restincurl/restincurl.h:275-277 | Prepare with HEAD |
| `Builder.RequestBuilder.Post` | include/restincurl/restincurl.h:279-281 | Prepare with POST |
| `Builder.RequestBuilder.Put` | include/restincurl/restincurl.h:283-285 | Prepare with PUT |
| `Builder.RequestBuilder.Delete` | include/restincurl/restincurl.h:287-289 | Prepare with DELETE |
| `Builder.RequestBuilder.Header` | include/restincurl/restincurl.h:291-296 | needs an unbuilt builder; appends the header line |
| `Builder.RequestBuilder.HeaderField` | include/restincurl/restincurl.h:298-302 | appends "name: value" |
| `Builder.RequestBuilder.WithJson` | include/restincurl/restincurl.h:304-306 | appends the JSON content-type header |
| `Builder.RequestBuilder.AcceptJson` | include/restincurl/restincurl.h:308-310 | appends the JSON accept header |
| `Builder.RequestBuilder.Option` | include/restincurl/restincurl.h:312-317 | needs an unbuilt builder; issues the setting through Options::Set |
| `Builder.RequestBuilder.SetPair` | include/restincurl/restincurl.h:323-324 | two settings through Options::Set, stopping at the first that throws |
| `Builder.RequestBuilder.SendHandler` | include/restincurl/restincurl.h:320-326 | needs an unbuilt builder; installs the handler's read function and user data; the upload flag is set only when both are accepted |
| `Builder.RequestBuilder.SendData` | include/restincurl/restincurl.h:328-332 | makes a new owned handler holding the data with its cursor at 0, then installs it as SendHandler does |
| `Builder.RequestBuilder.StoreHandler` | include/restincurl/restincurl.h:335-341 | needs an unbuilt builder; installs the handler's write function and user data; the store flag is set only when both are accepted |
| `Builder.RequestBuilder.StoreData` | include/restincurl/restincurl.h:344-348 | makes a new owned handler on the caller's container, then installs it as StoreHandler does |
| `Builder.RequestBuilder.WithCompletion` | include/restincurl/restincurl.h:350-354 | needs an unbuilt builder; records the completion function |
| `Builder.RequestBuilder.SetReadHandler` | include/restincurl/restincurl.h:357-361 | installs a caller's read function and user data, even on a built builder; the upload flag is set when both are accepted |
| `Builder.RequestBuilder.SetWriteHandler` | include/restincurl/restincurl.h:364-368 | installs a caller's write function and user data, even on a built builder; the store flag is set when both are accepted |
| `Builder.RequestBuilder.IssuePlan` | include/restincurl/restincurl.h:373-389 | issues Build's pre-verb options in order and stops at the first that throws |
| `Builder.RequestBuilder.IssueFromUpload` | include/restincurl/restincurl.h:377-389 | issues the upload flag if data is sent, then the header and URL steps, and stops at the first that throws |
| `Builder.RequestBuilder.IssueFromHeaders` | include/restincurl/restincurl.h:381-389 | issues the header list if there are headers, then the URL, and stops at the first that throws |
| `Builder.RequestBuilder.Build` | include/restincurl/restincurl.h:370-395 | does exactly what BuildSpec gives for the builder's fields: the outcome, the settings added to the handle's log, and whether the builder is now built; the request's verb changes only once every option has been accepted |
| `Builder.RequestBuilder.Execute` | include/restincurl/restincurl.h:397-402 | Build, with Build's effect on the request's verb; if Build passed, perform once, call the completion function once with the result, and leave the builder with no completion; if Build threw, nothing is performed or called |
| `Builder.Client.Build` | include/restincurl/restincurl.h:427-430 | hands out a new, unconfigured builder |

## Findings

| source | as written | input that shows it | evidently intended | confidence | as-written member | corrected member |
|---|---|---|---|---|---|---|
| include/restincurl/restincurl.h:160-162 | the copy runs from `cbegin() + sendt_bytes_` to `cbegin() + out_bytes` | data [1,2,3,4] read with room for 1 byte, then 3: the second call writes [2,3] and returns 3, and byte 4 is never sent. Data [1,2,3] read with room for 2 bytes twice: the second copy runs from index 2 back to index 1, which is undefined | copy to `cbegin() + sendt_bytes_ + out_bytes`, so that successive reads concatenate to the data | high for the arithmetic; not executed | `DataHandlers.ReadAsWritten` (with `DataHandlers.AsWrittenShortCopy`, `DataHandlers.AsWrittenUndefined`, `DataHandlers.AsWrittenDiverges`) | `DataHandlers.OutDataHandler.ReadCallback` (with `DataHandlers.ReadsConcatenate`, `DataHandlers.UploadCompletes`) |
| include/restincurl/restincurl.h:243-247 | Build (lines 373-375) installs the no-op `write_callback` without setting CURLOPT_WRITEDATA, and the callback asserts `userdata == nullptr` | any request that stores no data, such as a plain GET, in a build with assertions on. libcurl documents the default CURLOPT_WRITEDATA as `stdout`, so the first body chunk reaches the callback with non-null user data and the assert fires | a sink that ignores its user data, or Build setting CURLOPT_WRITEDATA to null together with the callback | medium, since it rests on libcurl's documented default, which is outside the model; not executed | `Builder.DiscardWriteAsWritten` (with `Builder.DiscardWriterGetsDefault`) | `Builder.DiscardWriteCallback` (with `Builder.DiscardWriterGetsDefault`) |

The builder's `SendData` logs the tag of the handler's read function.
The model does not connect that tag to either version of the read, in
the same way as it leaves the transfer inside `curl_easy_perform` out.

## Left out

- The asynchronous dispatcher (worker thread, pending queue, concurrency bound, wake signal, idle teardown, `CloseWhenFinished`, `WaitForFinish`, `GetNumActiveRequests`): it does not exist in `restincurl.h`. The same holds for `Result`, `SendFile`, `PostMime`, `ExecuteSynchronous` and the coroutine and asio adapters, which only the test programs call.
- libcurl itself (`curl_easy_init`, `curl_easy_cleanup`, `curl_easy_perform`, `curl_slist_append`, `curl_slist_free_all`, `curl_easy_strerror`): these are foreign calls. They appear only as the setopt log, its fixed `verdict` function and the perform count. A failing `curl_easy_init` shows up only through the verdicts.
- `Curl.EasyHandle`: libcurl's answer to a setting is a fixed function of the setting. An answer that changes from call to call, such as running out of memory, is not modelled.
- `Builder.RequestBuilder.Header`: a `curl_slist_append` that fails returns null and drops the list. The model always appends.
- Exception messages: an error keeps the option and the CURLcode, or the enumerator number. The message text and `curl_easy_strerror` are left out.
- The C++ `assert`s become preconditions. In a build with `NDEBUG` they do nothing, and calls that break them are not modelled.
- The data transfer inside `curl_easy_perform`: libcurl drives the handlers' callbacks then. The model proves the callbacks on their own but does not connect them to `Execute`.
- `Builder.DiscardWriteCallback`: libcurl's default user data is not modelled. `Builder.DiscardWriterGetsDefault` takes it as a parameter.
- `SendData`, `StoreData` (the handler overloads), `SetReadHandler` and `SetWriteHandler` do not `return *this`, which is undefined behaviour. Only their option calls and flag updates are modelled.
- The template parameters `inT`/`outT`: every container holds bytes. `OutDataHandler`'s public fields are never changed from outside.
- `Builder.RequestBuilder.Execute`: after `std::move(completion_)` the builder's completion is modelled as empty. The C++ standard leaves a moved-from `std::function` unspecified, though the common standard libraries leave it empty.
- The destructors of `RequestBuilder`, `Request`, `EasyHandle` and `Client`, and the accessors `GetEasyHandle` and `GetRequestType`: these only free resources or return a field.
