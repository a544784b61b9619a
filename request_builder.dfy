/** restincurl::RequestBuilder and restincurl::Client: the fluent,
    one-shot configuration of a request, its Build step (which turns the
    builder's flags into curl options) and its synchronous Execute. */
module Builder {
  import opened Curl
  import opened DataHandlers
  import opened Requests

  const JSON_CONTENT_TYPE: string := "Content-type: Application/json; charset=utf-8"
  const ACCEPT_JSON: string := "Accept: Application/json"

  /** RequestBuilder::write_callback as written: a no-op sink that
      asserts its user data is null and claims every offered byte. */
  function DiscardWriteAsWritten(size: SizeT, nitems: SizeT, userdata: object?): (n: SizeT)
    requires userdata == null
    ensures size * nitems < SIZE_LIMIT ==> n == size * nitems
  {
    Bytes(size, nitems)
  }

  /** The no-op sink Build installs when the caller stores no data,
      without the assertion on its user data: whatever libcurl hands it,
      it claims every offered byte. */
  function DiscardWriteCallback(size: SizeT, nitems: SizeT, userdata: object?): (n: SizeT)
    ensures size * nitems < SIZE_LIMIT ==> n == size * nitems
    ensures userdata == null ==> n == DiscardWriteAsWritten(size, nitems, userdata)
  {
    Bytes(size, nitems)
  }

  /** The fields of a RequestBuilder that Build reads. */
  datatype BuilderState = BuilderState(
    url: string,
    requestType: RequestType,
    headers: seq<string>,
    haveDataIn: bool,
    haveDataOut: bool,
    isBuilt: bool)

  const DISCARD_WRITER: Setting := Setting(CURLOPT_WRITEFUNCTION, Function(DiscardWrite))
  const UPLOAD_ON: Setting := Setting(CURLOPT_UPLOAD, Long(1))

  ghost predicate HasOpt(plan: seq<Setting>, opt: CurlOpt) {
    exists i :: 0 <= i < |plan| && plan[i].opt == opt
  }

  /** The tail of Build's settings from the header step on. */
  function PlanFromHeaders(headers: seq<string>, url: string): seq<Setting> {
    var last := [Setting(CURLOPT_URL, Text(url))];
    if headers != [] then [Setting(CURLOPT_HTTPHEADER, StringList(headers))] + last else last
  }

  /** The tail of Build's settings from the upload step on. */
  function PlanFromUpload(haveDataOut: bool, headers: seq<string>, url: string): seq<Setting> {
    var rest := PlanFromHeaders(headers, url);
    if haveDataOut then [UPLOAD_ON] + rest else rest
  }

  /** Build's settings from the write-function step on: all of them. */
  function PlanFromWriter(haveDataIn: bool, haveDataOut: bool, headers: seq<string>, url: string): seq<Setting> {
    var rest := PlanFromUpload(haveDataOut, headers, url);
    if !haveDataIn then [DISCARD_WRITER] + rest else rest
  }

  /** The options Build sets, in order, before it prepares the verb. */
  function BuildPlan(s: BuilderState): (plan: seq<Setting>)
    ensures 1 <= |plan| <= 4
    ensures plan[|plan| - 1] == Setting(CURLOPT_URL, Text(s.url))
  {
    PlanFromWriter(s.haveDataIn, s.haveDataOut, s.headers, s.url)
  }

  /** The position of an option in Build's fixed sequence of steps: the
      write function, the upload flag, the headers, the URL, the verb. */
  function BuildStep(opt: CurlOpt): nat {
    match opt
    case CURLOPT_WRITEFUNCTION => 0
    case CURLOPT_UPLOAD => 1
    case CURLOPT_HTTPHEADER => 2
    case CURLOPT_URL => 3
    case _ => 4
  }

  /** Build installs the discarding writer iff no data is stored, sets
      CURLOPT_UPLOAD iff data is sent, sets the header list iff there are
      headers, and always ends with the URL; nothing else. */
  lemma BuildPlanOptions(s: BuilderState)
    ensures var plan := BuildPlan(s);
      && (DISCARD_WRITER in plan <==> !s.haveDataIn)
      && (HasOpt(plan, CURLOPT_WRITEFUNCTION) <==> !s.haveDataIn)
      && (UPLOAD_ON in plan <==> s.haveDataOut)
      && (HasOpt(plan, CURLOPT_UPLOAD) <==> s.haveDataOut)
      && (Setting(CURLOPT_HTTPHEADER, StringList(s.headers)) in plan <==> s.headers != [])
      && (HasOpt(plan, CURLOPT_HTTPHEADER) <==> s.headers != [])
      && plan != [] && plan[|plan| - 1] == Setting(CURLOPT_URL, Text(s.url))
      && (forall i :: 0 <= i < |plan| ==>
            plan[i] in {DISCARD_WRITER, UPLOAD_ON,
                        Setting(CURLOPT_HTTPHEADER, StringList(s.headers)),
                        Setting(CURLOPT_URL, Text(s.url))})
      && (forall i, j :: 0 <= i < j < |plan| ==> BuildStep(plan[i].opt) < BuildStep(plan[j].opt))
  {
    var plan := BuildPlan(s);
    assert HasOpt(plan, CURLOPT_WRITEFUNCTION) ==> DISCARD_WRITER in plan;
    assert HasOpt(plan, CURLOPT_UPLOAD) ==> UPLOAD_ON in plan;
    assert HasOpt(plan, CURLOPT_HTTPHEADER) ==> Setting(CURLOPT_HTTPHEADER, StringList(s.headers)) in plan;
  }

  /** What one Build call does: its outcome, the settings it issues and
      whether the builder is built afterwards. */
  datatype BuildEffect = BuildEffect(result: Outcome, issued: seq<Setting>, built: bool)

  function BuildSpec(s: BuilderState, verdict: Setting -> CurlCode): (e: BuildEffect)
    ensures s.isBuilt ==> e == BuildEffect(Pass, [], true)
    ensures e.built ==> e.result == Pass
    ensures !s.isBuilt && e.built ==>
              s.requestType != INVALID && e.issued == BuildPlan(s) + [SetRequestType(s.requestType).value]
  {
    if s.isBuilt then BuildEffect(Pass, [], true)
    else
      var plan := BuildPlan(s);
      if !AllAccepted(plan, verdict) then BuildEffect(SetAll(plan, verdict), Attempt(plan, verdict), false)
      else
        match SetRequestType(s.requestType)
        case Ok(verb) => BuildEffect(Pass, plan + [verb], true)
        case Err(e) => BuildEffect(Fail(e), plan, false)
  }

  /** The cases of Build: a built builder does nothing; otherwise Build
      succeeds exactly when libcurl accepts every option and a verb was
      chosen; a rejected option stops it there with that option's
      exception, and a missing verb fails after all options are set. */
  lemma BuildOutcomes(s: BuilderState, verdict: Setting -> CurlCode)
    ensures var e := BuildSpec(s, verdict);
      && (e.built <==> e.result.Pass?)
      && (s.isBuilt ==> e == BuildEffect(Pass, [], true))
      && (!s.isBuilt ==>
            (e.built <==> AllAccepted(BuildPlan(s), verdict) && s.requestType != INVALID))
      && (!s.isBuilt && e.built ==>
            e.issued == BuildPlan(s) + [SetRequestType(s.requestType).value])
      && (!s.isBuilt && !AllAccepted(BuildPlan(s), verdict) ==>
            e.issued == Attempt(BuildPlan(s), verdict) && e.issued != [] &&
            e.result == SetResult(e.issued[|e.issued| - 1], verdict) &&
            e.result.Fail? && e.result.error.CurlException?)
      && (!s.isBuilt && AllAccepted(BuildPlan(s), verdict) && s.requestType == INVALID ==>
            e.issued == BuildPlan(s) && e.result == Fail(UnsupportedRequestType(7)))
  {
    AttemptShape(BuildPlan(s), verdict);
  }

  /** A successful Build sets, in the order of BuildStep: the discarding
      writer iff no data is stored, CURLOPT_UPLOAD iff data is sent, the
      header list iff there are headers, the URL, and last the verb's one
      option. */
  lemma BuildSuccessSettings(s: BuilderState, verdict: Setting -> CurlCode)
    requires !s.isBuilt && BuildSpec(s, verdict).built
    ensures var issued := BuildSpec(s, verdict).issued;
              && |issued| >= 2
              && (DISCARD_WRITER in issued <==> !s.haveDataIn)
              && (UPLOAD_ON in issued <==> s.haveDataOut)
              && (HasOpt(issued, CURLOPT_HTTPHEADER) <==> s.headers != [])
              && issued[|issued| - 2] == Setting(CURLOPT_URL, Text(s.url))
              && VerbOf(issued[|issued| - 1]) == s.requestType
              && s.requestType != INVALID
              && (forall i, j :: 0 <= i < j < |issued| ==> BuildStep(issued[i].opt) < BuildStep(issued[j].opt))
  {
    BuildOutcomes(s, verdict);
    BuildPlanOptions(s);
    var plan := BuildPlan(s);
    var verb := SetRequestType(s.requestType).value;
    var issued := plan + [verb];
    assert issued[..|plan|] == plan;
    assert !IsVerbOption(CURLOPT_WRITEFUNCTION) && !IsVerbOption(CURLOPT_UPLOAD);
    assert DISCARD_WRITER in issued <==> DISCARD_WRITER in plan;
    assert UPLOAD_ON in issued <==> UPLOAD_ON in plan;
    assert HasOpt(issued, CURLOPT_HTTPHEADER) ==> HasOpt(plan, CURLOPT_HTTPHEADER) by {
      if HasOpt(issued, CURLOPT_HTTPHEADER) {
        var i :| 0 <= i < |issued| && issued[i].opt == CURLOPT_HTTPHEADER;
        assert i < |plan|;
        assert plan[i].opt == CURLOPT_HTTPHEADER;
      }
    }
    assert HasOpt(plan, CURLOPT_HTTPHEADER) ==> HasOpt(issued, CURLOPT_HTTPHEADER) by {
      if HasOpt(plan, CURLOPT_HTTPHEADER) {
        var i :| 0 <= i < |plan| && plan[i].opt == CURLOPT_HTTPHEADER;
        assert issued[i] == plan[i];
      }
    }
  }

  /** Build is idempotent: after a Build that succeeded, Build again
      issues nothing and still succeeds. After one that failed, another
      Build starts over and does the same again. */
  lemma BuildIdempotent(s: BuilderState, verdict: Setting -> CurlCode)
    ensures var e := BuildSpec(s, verdict);
              var again := BuildSpec(s.(isBuilt := e.built), verdict);
              (e.built ==> again == BuildEffect(Pass, [], true)) &&
              (!e.built ==> again == e)
  {
    BuildOutcomes(s, verdict);
  }

  /** Build installs the no-op writer without setting CURLOPT_WRITEDATA,
      so the user data it receives is libcurl's default for the handle.
      When that default is a stream, the sink as written refuses it,
      while the sink without the assertion claims the offered bytes. */
  lemma DiscardWriterGetsDefault(s: BuilderState, stream: object)
    requires !s.haveDataIn
    ensures DISCARD_WRITER in BuildPlan(s)
    ensures !HasOpt(BuildPlan(s), CURLOPT_WRITEDATA)
    ensures !DiscardWriteAsWritten.requires(1, 1, stream)
    ensures DiscardWriteCallback(1, 1, stream) == 1
  {
    BuildPlanOptions(s);
  }

  /** The settings SendData / SetReadHandler issue: the read function,
      then its user data. */
  function ReaderSettings(fn: Callback, userdata: object?): (plan: seq<Setting>)
    ensures |plan| == 2 && plan[0].opt == CURLOPT_READFUNCTION && plan[1].opt == CURLOPT_READDATA
  {
    [Setting(CURLOPT_READFUNCTION, Function(fn)), Setting(CURLOPT_READDATA, Pointer(userdata))]
  }

  /** The settings StoreData / SetWriteHandler issue. */
  function WriterSettings(fn: Callback, userdata: object?): (plan: seq<Setting>)
    ensures |plan| == 2 && plan[0].opt == CURLOPT_WRITEFUNCTION && plan[1].opt == CURLOPT_WRITEDATA
  {
    [Setting(CURLOPT_WRITEFUNCTION, Function(fn)), Setting(CURLOPT_WRITEDATA, Pointer(userdata))]
  }

  class RequestBuilder {
    const request: Request
    const options: Options
    var url: string
    var requestType: RequestType
    var headers: seq<string>
    var haveDataIn: bool
    var haveDataOut: bool
    var isBuilt: bool
    var defaultOutHandler: OutDataHandler?
    var defaultInHandler: InDataHandler?
    var completion: Completion

    /** The options wrapper works on the request's own handle, and a
        built builder has prepared its request for a real verb. */
    ghost predicate Valid()
      reads this, request
    {
      && options.eh == request.eh
      && (isBuilt ==> requestType != INVALID && request.requestType == requestType)
    }

    function State(): BuilderState
      reads this
    {
      BuilderState(url, requestType, headers, haveDataIn, haveDataOut, isBuilt)
    }

    ghost predicate Fresh()
      reads this, request, request.eh
    {
      && State() == BuilderState("", INVALID, [], false, false, false)
      && request.requestType == INVALID && request.fired == []
      && request.eh.settings == [] && request.eh.performs == 0
      && defaultOutHandler == null && defaultInHandler == null
      && completion == NoCompletion
    }

    /** A new builder owns a new Request on a new easy handle, whose
        setopt answers are `verdict`. */
    constructor (verdict: Setting -> CurlCode)
      ensures Valid() && Fresh()
      ensures fresh(request) && fresh(request.eh) && fresh(options)
      ensures request.eh.verdict == verdict
    {
      var eh := new EasyHandle(verdict);
      request := new Request(eh);
      options := new Options(eh);
      url := "";
      requestType := INVALID;
      headers := [];
      haveDataIn := false;
      haveDataOut := false;
      isBuilt := false;
      defaultOutHandler := null;
      defaultInHandler := null;
      completion := NoCompletion;
    }

    /** Prepare: choose the verb and the URL, once, before building. */
    method Prepare(rt: RequestType, url: string)
      requires Valid() && requestType == INVALID && !isBuilt
      modifies this`requestType, this`url
      ensures Valid()
      ensures requestType == rt && this.url == url
    {
      requestType := rt;
      this.url := url;
    }

    method Get(url: string)
      requires Valid() && requestType == INVALID && !isBuilt
      modifies this`requestType, this`url
      ensures Valid() && requestType == GET && this.url == url
    {
      Prepare(GET, url);
    }

    method Head(url: string)
      requires Valid() && requestType == INVALID && !isBuilt
      modifies this`requestType, this`url
      ensures Valid() && requestType == HEAD && this.url == url
    {
      Prepare(HEAD, url);
    }

    method Post(url: string)
      requires Valid() && requestType == INVALID && !isBuilt
      modifies this`requestType, this`url
      ensures Valid() && requestType == POST && this.url == url
    {
      Prepare(POST, url);
    }

    method Put(url: string)
      requires Valid() && requestType == INVALID && !isBuilt
      modifies this`requestType, this`url
      ensures Valid() && requestType == PUT && this.url == url
    {
      Prepare(PUT, url);
    }

    method Delete(url: string)
      requires Valid() && requestType == INVALID && !isBuilt
      modifies this`requestType, this`url
      ensures Valid() && requestType == DELETE && this.url == url
    {
      Prepare(DELETE, url);
    }

    /** Header(const char*): append one raw header line. */
    method Header(value: string)
      requires Valid() && !isBuilt
      modifies this`headers
      ensures Valid() && headers == old(headers) + [value]
    {
      headers := headers + [value];
    }

    /** Header(name, value): append "name: value". */
    method HeaderField(name: string, value: string)
      requires Valid() && !isBuilt
      modifies this`headers
      ensures Valid() && headers == old(headers) + [name + ": " + value]
    {
      Header(name + ": " + value);
    }

    method WithJson()
      requires Valid() && !isBuilt
      modifies this`headers
      ensures Valid() && headers == old(headers) + [JSON_CONTENT_TYPE]
    {
      Header(JSON_CONTENT_TYPE);
    }

    method AcceptJson()
      requires Valid() && !isBuilt
      modifies this`headers
      ensures Valid() && headers == old(headers) + [ACCEPT_JSON]
    {
      Header(ACCEPT_JSON);
    }

    /** Option: pass any setting straight to Options::Set. */
    method Option(opt: CurlOpt, value: OptValue) returns (r: Outcome)
      requires Valid() && !isBuilt
      modifies request.eh`settings
      ensures Valid()
      ensures request.eh.settings == old(request.eh.settings) + [Setting(opt, value)]
      ensures r == SetResult(Setting(opt, value), request.eh.verdict)
    {
      r := options.Set(Setting(opt, value));
    }

    /** Issue two settings through Options::Set, stopping at the first
        that throws. */
    method SetPair(plan: seq<Setting>) returns (r: Outcome)
      requires Valid() && |plan| == 2
      modifies request.eh`settings
      ensures Valid()
      ensures request.eh.settings == old(request.eh.settings) + Attempt(plan, request.eh.verdict)
      ensures r == SetAll(plan, request.eh.verdict)
    {
      var v := request.eh.verdict;
      assert plan == [plan[0]] + [plan[1]];
      AttemptCons(plan[0], [plan[1]], v);
      AttemptCons(plan[1], [], v);
      r := options.Set(plan[0]);
      if r.Pass? {
        r := options.Set(plan[1]);
      }
    }

    /** SendData(OutDataHandler&): read the upload from `dh`. */
    method SendHandler(dh: OutDataHandler) returns (r: Outcome)
      requires Valid() && !isBuilt
      modifies this`haveDataOut, request.eh`settings
      ensures Valid()
      ensures var plan := ReaderSettings(HandlerRead, dh);
              && request.eh.settings == old(request.eh.settings) + Attempt(plan, request.eh.verdict)
              && r == SetAll(plan, request.eh.verdict)
      ensures haveDataOut == (old(haveDataOut) || r.Pass?)
    {
      r := SetPair(ReaderSettings(HandlerRead, dh));
      if r.Pass? {
        haveDataOut := true;
      }
    }

    /** SendData(data): upload `data` from a handler the builder owns. */
    method SendData(data: seq<byte>) returns (r: Outcome)
      requires Valid() && !isBuilt && |data| < SIZE_LIMIT
      modifies this`defaultOutHandler, this`haveDataOut, request.eh`settings
      ensures Valid()
      ensures defaultOutHandler != null && fresh(defaultOutHandler)
      ensures defaultOutHandler.Valid() && defaultOutHandler.data == data && defaultOutHandler.sent == 0
      ensures var plan := ReaderSettings(HandlerRead, defaultOutHandler);
              && request.eh.settings == old(request.eh.settings) + Attempt(plan, request.eh.verdict)
              && r == SetAll(plan, request.eh.verdict)
      ensures haveDataOut == (old(haveDataOut) || r.Pass?)
    {
      var dh := new OutDataHandler(data);
      defaultOutHandler := dh;
      r := SendHandler(dh);
    }

    /** StoreData(InDataHandler&): deliver the response body to `dh`. */
    method StoreHandler(dh: InDataHandler) returns (r: Outcome)
      requires Valid() && !isBuilt
      modifies this`haveDataIn, request.eh`settings
      ensures Valid()
      ensures var plan := WriterSettings(HandlerWrite, dh);
              && request.eh.settings == old(request.eh.settings) + Attempt(plan, request.eh.verdict)
              && r == SetAll(plan, request.eh.verdict)
      ensures haveDataIn == (old(haveDataIn) || r.Pass?)
    {
      r := SetPair(WriterSettings(HandlerWrite, dh));
      if r.Pass? {
        haveDataIn := true;
      }
    }

    /** StoreData(data): append the response body to the caller's
        container, through a handler the builder owns. */
    method StoreData(data: ByteString) returns (r: Outcome)
      requires Valid() && !isBuilt
      modifies this`defaultInHandler, this`haveDataIn, request.eh`settings
      ensures Valid()
      ensures defaultInHandler != null && fresh(defaultInHandler) && defaultInHandler.data == data
      ensures var plan := WriterSettings(HandlerWrite, defaultInHandler);
              && request.eh.settings == old(request.eh.settings) + Attempt(plan, request.eh.verdict)
              && r == SetAll(plan, request.eh.verdict)
      ensures haveDataIn == (old(haveDataIn) || r.Pass?)
    {
      var dh := new InDataHandler(data);
      defaultInHandler := dh;
      r := StoreHandler(dh);
    }

    method WithCompletion(fn: Completion)
      requires Valid() && !isBuilt
      modifies this`completion
      ensures Valid() && completion == fn
    {
      completion := fn;
    }

    /** SetReadHandler: install a caller's read function; unlike the
        other setters it does not insist on an unbuilt builder. */
    method SetReadHandler(handler: nat, userdata: object?) returns (r: Outcome)
      requires Valid()
      modifies this`haveDataOut, request.eh`settings
      ensures Valid()
      ensures var plan := ReaderSettings(UserCallback(handler), userdata);
              && request.eh.settings == old(request.eh.settings) + Attempt(plan, request.eh.verdict)
              && r == SetAll(plan, request.eh.verdict)
      ensures haveDataOut == (old(haveDataOut) || r.Pass?)
    {
      r := SetPair(ReaderSettings(UserCallback(handler), userdata));
      if r.Pass? {
        haveDataOut := true;
      }
    }

    /** SetWriteHandler: install a caller's write function. */
    method SetWriteHandler(handler: nat, userdata: object?) returns (r: Outcome)
      requires Valid()
      modifies this`haveDataIn, request.eh`settings
      ensures Valid()
      ensures var plan := WriterSettings(UserCallback(handler), userdata);
              && request.eh.settings == old(request.eh.settings) + Attempt(plan, request.eh.verdict)
              && r == SetAll(plan, request.eh.verdict)
      ensures haveDataIn == (old(haveDataIn) || r.Pass?)
    {
      r := SetPair(WriterSettings(UserCallback(handler), userdata));
      if r.Pass? {
        haveDataIn := true;
      }
    }

    /** The option-setting half of Build: the plan's settings through
        Options::Set, stopping at the first that throws. It is split in
        three, one conditional setting each, following BuildPlan. */
    method IssuePlan() returns (r: Outcome)
      requires Valid()
      modifies request.eh`settings
      ensures Valid()
      ensures request.eh.settings == old(request.eh.settings)
                + Attempt(PlanFromWriter(haveDataIn, haveDataOut, headers, url), request.eh.verdict)
      ensures r == SetAll(PlanFromWriter(haveDataIn, haveDataOut, headers, url), request.eh.verdict)
    {
      var v := request.eh.verdict;
      ghost var tail := PlanFromUpload(haveDataOut, headers, url);
      if !haveDataIn {
        AttemptCons(DISCARD_WRITER, tail, v);
        r := options.Set(DISCARD_WRITER);
        if r.Fail? {
          return;
        }
        r := IssueFromUpload();
        assert request.eh.settings == old(request.eh.settings) + [DISCARD_WRITER] + Attempt(tail, v);
      } else {
        r := IssueFromUpload();
      }
    }

    method IssueFromUpload() returns (r: Outcome)
      requires Valid()
      modifies request.eh`settings
      ensures Valid()
      ensures request.eh.settings == old(request.eh.settings)
                + Attempt(PlanFromUpload(haveDataOut, headers, url), request.eh.verdict)
      ensures r == SetAll(PlanFromUpload(haveDataOut, headers, url), request.eh.verdict)
    {
      var v := request.eh.verdict;
      if haveDataOut {
        AttemptCons(UPLOAD_ON, PlanFromHeaders(headers, url), v);
        r := options.Set(UPLOAD_ON);
        if r.Fail? {
          return;
        }
        r := IssueFromHeaders();
        assert request.eh.settings == old(request.eh.settings) + [UPLOAD_ON]
                 + Attempt(PlanFromHeaders(headers, url), v);
      } else {
        r := IssueFromHeaders();
      }
    }

    method IssueFromHeaders() returns (r: Outcome)
      requires Valid()
      modifies request.eh`settings
      ensures Valid()
      ensures request.eh.settings == old(request.eh.settings)
                + Attempt(PlanFromHeaders(headers, url), request.eh.verdict)
      ensures r == SetAll(PlanFromHeaders(headers, url), request.eh.verdict)
    {
      var v := request.eh.verdict;
      var urlSetting := Setting(CURLOPT_URL, Text(url));
      AttemptCons(urlSetting, [], v);
      if headers != [] {
        var headerSetting := Setting(CURLOPT_HTTPHEADER, StringList(headers));
        AttemptCons(headerSetting, [urlSetting], v);
        r := options.Set(headerSetting);
        if r.Fail? {
          return;
        }
        assert [headerSetting] + [urlSetting] == PlanFromHeaders(headers, url);
      }
      r := options.Set(urlSetting);
    }

    /** Build: on the first successful call, set the data-handler,
        header and URL options, then prepare the verb. */
    method Build() returns (r: Outcome)
      requires Valid()
      modifies this`isBuilt, request`requestType, request.eh`settings
      ensures Valid()
      ensures var e := BuildSpec(old(State()), request.eh.verdict);
              && r == e.result && isBuilt == e.built
              && request.eh.settings == old(request.eh.settings) + e.issued
      ensures request.requestType ==
                if old(isBuilt) || !AllAccepted(BuildPlan(old(State())), request.eh.verdict)
                then old(request.requestType) else requestType
    {
      if isBuilt {
        r := Pass;
        return;
      }
      AttemptShape(BuildPlan(State()), request.eh.verdict);
      r := IssuePlan();
      if r.Fail? {
        return;
      }
      r := request.Prepare(requestType);
      if r.Pass? {
        isBuilt := true;
      }
    }

    /** Execute: Build, then perform the transfer and hand the result to
        the completion function, which is moved out of the builder. A
        Build failure propagates before anything is performed. */
    method Execute(result: CurlCode) returns (r: Outcome)
      requires Valid()
      modifies this`isBuilt, this`completion, request`requestType, request`fired
      modifies request.eh`settings, request.eh`performs
      ensures Valid()
      ensures var e := BuildSpec(old(State()), request.eh.verdict);
              && r == e.result && isBuilt == e.built
              && request.eh.settings == old(request.eh.settings) + e.issued
      ensures r.Pass? ==>
                && request.eh.performs == old(request.eh.performs) + 1
                && request.fired == old(request.fired) + Invocation(old(completion), result)
                && completion == NoCompletion
      ensures request.requestType ==
              if old(isBuilt) || !AllAccepted(BuildPlan(old(State())), request.eh.verdict)
              then old(request.requestType) else requestType
    ensures r.Fail? ==>
                && request.eh.performs == old(request.eh.performs)
                && request.fired == old(request.fired)
                && completion == old(completion)
    {
      r := Build();
      if r.Fail? {
        return;
      }
      var fn := completion;
      completion := NoCompletion;
      request.Execute(fn, result);
    }
  }

  /** restincurl::Client: hands out fresh builders. */
  class Client {
    constructor ()
    {
    }

    method Build(verdict: Setting -> CurlCode) returns (b: RequestBuilder)
      ensures fresh(b) && fresh(b.request) && fresh(b.request.eh)
      ensures b.Valid() && b.Fresh() && b.request.eh.verdict == verdict
    {
      b := new RequestBuilder(verdict);
    }
  }
}
