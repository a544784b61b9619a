/** libcurl as restincurl.h uses it: an easy handle that records every
    curl_easy_setopt call and answers each with a CURLcode, plus the
    Options wrapper that turns a non-zero answer into an exception. */
module Curl {

  /** A CURLcode; zero is CURLE_OK. */
  type CurlCode = int

  const CURLE_OK: CurlCode := 0

  /** One octet of a transfer (a `char` of the std::string containers). */
  type byte = x: int | 0 <= x < 256

  /** The CURLoption values the header names; `Other` is any option a
      caller passes through RequestBuilder::Option. */
  datatype CurlOpt =
    | CURLOPT_WRITEFUNCTION | CURLOPT_WRITEDATA | CURLOPT_READFUNCTION | CURLOPT_READDATA
    | CURLOPT_UPLOAD | CURLOPT_HTTPHEADER | CURLOPT_URL
    | CURLOPT_HTTPGET | CURLOPT_PUT | CURLOPT_POST | CURLOPT_NOBODY | CURLOPT_CUSTOMREQUEST
    | Other(code: int)

  /** The callbacks that can be installed as CURLOPT_WRITEFUNCTION or
      CURLOPT_READFUNCTION. */
  datatype Callback =
    | DiscardWrite            // RequestBuilder::write_callback, the no-op sink
    | HandlerWrite            // InDataHandler<T>::write_callback
    | HandlerRead             // OutDataHandler<T>::read_callback
    | UserCallback(id: nat)   // a function given to SetReadHandler / SetWriteHandler

  /** The value passed to curl_easy_setopt. */
  datatype OptValue =
    | Long(n: int)
    | Text(s: string)
    | Function(f: Callback)
    | Pointer(p: object?)
    | StringList(items: seq<string>)   // a curl_slist

  datatype Setting = Setting(opt: CurlOpt, value: OptValue)

  /** The exceptions the header throws. */
  datatype Error =
    | CurlException(opt: CurlOpt, code: CurlCode)   // Options::Set
    | UnsupportedRequestType(ordinal: int)           // Request::SetRequestType

  datatype Outcome = Pass | Fail(error: Error)

  datatype Result<T> = Ok(value: T) | Err(error: Error)

  /** A libcurl easy handle. `verdict` is libcurl's answer to each
      setopt call; `settings` lists every curl_easy_setopt call made on
      the handle, in order, whether libcurl accepted it or not. */
  class EasyHandle {
    const verdict: Setting -> CurlCode
    var settings: seq<Setting>
    var performs: nat

    constructor (verdict: Setting -> CurlCode)
      ensures this.verdict == verdict
      ensures settings == [] && performs == 0
    {
      this.verdict := verdict;
      settings := [];
      performs := 0;
    }

    /** curl_easy_setopt */
    method Setopt(s: Setting) returns (code: CurlCode)
      modifies this`settings
      ensures settings == old(settings) + [s]
      ensures code == verdict(s)
    {
      settings := settings + [s];
      code := verdict(s);
    }

    /** curl_easy_perform; the transfer's result code comes from outside. */
    method Perform(result: CurlCode) returns (code: CurlCode)
      modifies this`performs
      ensures performs == old(performs) + 1
      ensures code == result
    {
      performs := performs + 1;
      code := result;
    }
  }

  /** What Options::Set makes of libcurl's answer to one setting. */
  function SetResult(s: Setting, verdict: Setting -> CurlCode): (r: Outcome)
    ensures r.Pass? <==> verdict(s) == CURLE_OK
    ensures r.Fail? ==> r.error.CurlException? && r.error.opt == s.opt
  {
    if verdict(s) == CURLE_OK then Pass else Fail(CurlException(s.opt, verdict(s)))
  }

  predicate AllAccepted(plan: seq<Setting>, verdict: Setting -> CurlCode) {
    forall i :: 0 <= i < |plan| ==> verdict(plan[i]) == CURLE_OK
  }

  /** The settings a run of Options::Set calls over `plan` issues: every
      one up to and including the first that libcurl rejects, since the
      rejection throws. */
  function Attempt(plan: seq<Setting>, verdict: Setting -> CurlCode): seq<Setting>
    decreases |plan|
  {
    if plan == [] then []
    else if verdict(plan[0]) != CURLE_OK then [plan[0]]
    else [plan[0]] + Attempt(plan[1..], verdict)
  }

  /** The outcome of that run: Pass when every setting is accepted,
      otherwise the exception of the first rejected one. */
  function SetAll(plan: seq<Setting>, verdict: Setting -> CurlCode): Outcome
    decreases |plan|
  {
    if plan == [] then Pass
    else if verdict(plan[0]) != CURLE_OK then SetResult(plan[0], verdict)
    else SetAll(plan[1..], verdict)
  }

  /** A run issues a prefix of the plan: all of it when libcurl accepts
      every setting, otherwise the accepted settings before the first
      rejected one and that one, whose exception is the outcome. */
  lemma {:induction false} AttemptShape(plan: seq<Setting>, verdict: Setting -> CurlCode)
    ensures var tried := Attempt(plan, verdict);
      && |tried| <= |plan| && tried == plan[..|tried|]
      && (SetAll(plan, verdict).Pass? <==> AllAccepted(plan, verdict))
      && (AllAccepted(plan, verdict) ==> tried == plan)
      && (!AllAccepted(plan, verdict) ==>
            && tried != []
            && verdict(tried[|tried| - 1]) != CURLE_OK
            && AllAccepted(tried[..|tried| - 1], verdict)
            && SetAll(plan, verdict) == SetResult(tried[|tried| - 1], verdict))
    decreases |plan|
  {
    if plan != [] {
      assert AllAccepted(plan, verdict) <==>
               verdict(plan[0]) == CURLE_OK && AllAccepted(plan[1..], verdict) by {
        assert forall i :: 0 < i < |plan| ==> plan[i] == plan[1..][i - 1];
      }
      if verdict(plan[0]) == CURLE_OK {
        AttemptShape(plan[1..], verdict);
        var rest := Attempt(plan[1..], verdict);
        assert ([plan[0]] + rest)[1..] == rest;
        assert plan == [plan[0]] + plan[1..];
      }
    }
  }

  /** One step of a run of Options::Set calls: the first setting is
      issued, and the run goes on only if libcurl accepts it. */
  lemma AttemptCons(s: Setting, rest: seq<Setting>, verdict: Setting -> CurlCode)
    ensures Attempt([s] + rest, verdict) ==
              if verdict(s) != CURLE_OK then [s] else [s] + Attempt(rest, verdict)
    ensures SetAll([s] + rest, verdict) ==
              if verdict(s) != CURLE_OK then SetResult(s, verdict) else SetAll(rest, verdict)
  {
    assert ([s] + rest)[0] == s;
    assert ([s] + rest)[1..] == rest;
  }

  /** Options: the checked setopt wrapper around an easy handle. */
  class Options {
    const eh: EasyHandle

    constructor (eh: EasyHandle)
      ensures this.eh == eh
    {
      this.eh := eh;
    }

    /** Options::Set: issue the setting; a non-zero CURLcode is thrown
        as a CurlException. */
    method Set(s: Setting) returns (r: Outcome)
      modifies eh`settings
      ensures eh.settings == old(eh.settings) + [s]
      ensures r == SetResult(s, eh.verdict)
    {
      var code := eh.Setopt(s);
      if code != CURLE_OK {
        r := Fail(CurlException(s.opt, code));
      } else {
        r := Pass;
      }
    }
  }
}
