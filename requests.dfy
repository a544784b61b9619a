/** restincurl::Request: one easy handle, the HTTP verb it is prepared
    for, and the synchronous perform-then-complete step. */
module Requests {
  import opened Curl

  datatype RequestType = GET | PUT | POST | HEAD | DELETE | PATCH | OPTIONS | INVALID

  /** static_cast<int> of the enumerator, as the error message prints it. */
  function Ordinal(rt: RequestType): (k: int)
    ensures 0 <= k <= 7
    ensures k == 7 <==> rt == INVALID
  {
    match rt
    case GET => 0
    case PUT => 1
    case POST => 2
    case HEAD => 3
    case DELETE => 4
    case PATCH => 5
    case OPTIONS => 6
    case INVALID => 7
  }

  /** Which verb a setting selects, if it is one that SetRequestType
      issues: the inverse of SetRequestType. */
  function VerbOf(s: Setting): RequestType {
    match s
    case Setting(CURLOPT_HTTPGET, Long(1)) => GET
    case Setting(CURLOPT_PUT, Long(1)) => PUT
    case Setting(CURLOPT_POST, Long(1)) => POST
    case Setting(CURLOPT_NOBODY, Long(1)) => HEAD
    case Setting(CURLOPT_CUSTOMREQUEST, Text(name)) =>
      if name == "OPTIONS" then OPTIONS
      else if name == "PATCH" then PATCH
      else if name == "DELETE" then DELETE
      else INVALID
    case _ => INVALID
  }

  ghost predicate IsVerbOption(opt: CurlOpt) {
    opt in {CURLOPT_HTTPGET, CURLOPT_PUT, CURLOPT_POST, CURLOPT_NOBODY, CURLOPT_CUSTOMREQUEST}
  }

  /** Request::SetRequestType: the one curl option a verb maps to;
      INVALID (a verb never chosen) throws. */
  function SetRequestType(rt: RequestType): (r: Result<Setting>)
    ensures r.Ok? <==> rt != INVALID
    ensures r.Ok? ==> VerbOf(r.value) == rt && IsVerbOption(r.value.opt)
    ensures r.Err? ==> r.error == UnsupportedRequestType(Ordinal(rt))
  {
    match rt
    case GET => Ok(Setting(CURLOPT_HTTPGET, Long(1)))
    case PUT => Ok(Setting(CURLOPT_PUT, Long(1)))
    case POST => Ok(Setting(CURLOPT_POST, Long(1)))
    case HEAD => Ok(Setting(CURLOPT_NOBODY, Long(1)))
    case OPTIONS => Ok(Setting(CURLOPT_CUSTOMREQUEST, Text("OPTIONS")))
    case PATCH => Ok(Setting(CURLOPT_CUSTOMREQUEST, Text("PATCH")))
    case DELETE => Ok(Setting(CURLOPT_CUSTOMREQUEST, Text("DELETE")))
    case INVALID => Err(UnsupportedRequestType(Ordinal(rt)))
  }

  /** Different verbs never map to the same curl setting. */
  lemma SetRequestTypeInjective(a: RequestType, b: RequestType)
    requires SetRequestType(a).Ok? && SetRequestType(b).Ok?
    requires SetRequestType(a) == SetRequestType(b)
    ensures a == b
  {
    assert VerbOf(SetRequestType(a).value) == a;
  }

  /** The completion function handed to Execute; an empty std::function
      is NoCompletion. */
  datatype Completion = NoCompletion | Completion(id: nat)

  /** One invocation of a completion function with its CURLcode. */
  datatype Fired = Fired(fn: nat, result: CurlCode)

  /** The invocations Request::Execute makes: one, unless `fn` is empty. */
  function Invocation(fn: Completion, result: CurlCode): (calls: seq<Fired>)
    ensures |calls| <= 1
    ensures calls != [] <==> fn.Completion?
    ensures calls != [] ==> calls[0] == Fired(fn.id, result)
  {
    if fn.Completion? then [Fired(fn.id, result)] else []
  }

  class Request {
    const eh: EasyHandle
    var requestType: RequestType
    /** Every completion invocation this request has made, in order. */
    var fired: seq<Fired>

    constructor (eh: EasyHandle)
      ensures this.eh == eh
      ensures requestType == INVALID && fired == []
    {
      this.eh := eh;
      requestType := INVALID;
      fired := [];
    }

    /** Request::Prepare: record the verb, then set its option. The
        CURLcode of that setopt call is ignored, as in the source; only
        INVALID fails, and the verb is recorded even then. */
    method Prepare(rq: RequestType) returns (r: Outcome)
      modifies this`requestType, eh`settings
      ensures requestType == rq
      ensures SetRequestType(rq).Ok? ==>
                r == Pass && eh.settings == old(eh.settings) + [SetRequestType(rq).value]
      ensures SetRequestType(rq).Err? ==>
                r == Fail(SetRequestType(rq).error) && eh.settings == old(eh.settings)
    {
      requestType := rq;
      var verb := SetRequestType(rq);
      match verb
      case Ok(s) =>
        var ignored := eh.Setopt(s);
        r := Pass;
      case Err(e) =>
        r := Fail(e);
    }

    /** Request::Execute: perform the transfer, then hand its CURLcode
        to `fn` if there is one. `result` stands for what
        curl_easy_perform returns. */
    method Execute(fn: Completion, result: CurlCode)
      modifies this`fired, eh`performs
      ensures eh.performs == old(eh.performs) + 1
      ensures fired == old(fired) + Invocation(fn, result)
    {
      var code := eh.Perform(result);
      if fn.Completion? {
        fired := fired + [Fired(fn.id, code)];
      }
    }
  }
}
