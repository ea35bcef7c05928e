/** The Negotiate (SPNEGO/Kerberos) guard placed in front of the tool server: one pass per
    request that checks the `Authorization` header, decodes the token, runs one security-context
    step, and either challenges, fails, or hands the request on with `remote_user` set. */
module KerbMiddleware {
  import opened Wrappers

  newtype byte = x: int | 0 <= x < 256

  /** An incoming request: its headers (names in lower case, as the framework looks them up)
      and the `request.state.remote_user` slot the guard writes. */
  class Request {
    const headers: map<string, string>
    var remoteUser: Option<string>

    constructor(headers: map<string, string>)
      ensures this.headers == headers && remoteUser == None
    {
      this.headers := headers;
      remoteUser := None;
    }
  }

  /** What the downstream application answers. */
  datatype Response = Response(status: int, body: string)

  /** The outcome of one `ctx.step(token)`: a GSS failure, or the output token (empty when the
      step produced none), whether the context is now complete, and the initiator's name. */
  datatype StepResult = StepFailed(error: string) | Stepped(outToken: seq<byte>, complete: bool, initiatorName: string)

  /** The GSSAPI library: whether acceptor credentials can be read from the keytab, and the
      step function of a fresh acceptor context. */
  datatype Gss = Gss(credentialsAvailable: bool, step: seq<byte> -> StepResult)

  /** `base64.b64decode` (None when it raises) and `base64.b64encode(...).decode()`. */
  datatype Base64 = Base64(decode: string -> Option<seq<byte>>, encode: seq<byte> -> string)

  /** The observable actions of one pass, in order. */
  datatype Event = Decoded(text: string) | AcquiredCredentials | SteppedWith(token: seq<byte>) | CalledNext(user: string)

  datatype GuardError = InvalidBase64 | GssError(what: string) | UnboundHeaders

  /** `HTTPException(401, headers)`, an exception escaping the guard, or the downstream response. */
  datatype GuardResult = Unauthorized(headers: map<string, string>) | Crashed(error: GuardError) | Passed(response: Response)

  /** Result, actions taken, and the `remote_user` written (None when it is not written). */
  datatype Verdict = Verdict(result: GuardResult, trace: seq<Event>, remoteUser: Option<string>)

  const Scheme := "Negotiate "

  /** `request.headers.get("Authorization", "")`. */
  function AuthHeader(headers: map<string, string>): (auth: string)
    ensures "authorization" in headers ==> auth == headers["authorization"]
    ensures "authorization" !in headers ==> auth == ""
  {
    if "authorization" in headers then headers["authorization"] else ""
  }

  /** Index of the first `c` in `s`. */
  function FirstIndex(s: string, c: char): (r: Option<nat>)
    ensures r.Some? ==> r.value < |s| && s[r.value] == c && forall k :: 0 <= k < r.value ==> s[k] != c
    ensures r.None? ==> c !in s
  {
    if s == [] then None
    else if s[0] == c then Some(0)
    else match FirstIndex(s[1..], c)
      case None => None
      case Some(i) => Some(i + 1)
  }

  /** Python's `s.split(c, 1)`. */
  function SplitOnce(s: string, c: char): (parts: seq<string>)
    ensures |parts| == 1 || |parts| == 2
    ensures |parts| == 1 <==> c !in s
    ensures |parts| == 1 ==> parts[0] == s
    ensures |parts| == 2 ==> parts[0] + [c] + parts[1] == s && c !in parts[0]
  {
    match FirstIndex(s, c)
    case None => [s]
    case Some(i) => [s[..i], s[i + 1..]]
  }

  /** After the `Negotiate ` prefix, `split(" ", 1)[1]` is exactly the text after the prefix. */
  lemma TokenTextAfterScheme(auth: string)
    requires Scheme <= auth
    ensures SplitOnce(auth, ' ') == ["Negotiate", auth[|Scheme|..]]
  {
    assert auth[9] == ' ';
    forall k | 0 <= k < 9 ensures auth[k] != ' ' {
      assert auth[k] == Scheme[k];
    }
    assert FirstIndex(auth, ' ') == Some(9);
    assert auth[..9] == Scheme[..9] == "Negotiate";
  }

  /** The header of a 401 that carries no output token. */
  const BareChallenge: map<string, string> := map["WWW-Authenticate" := "Negotiate"]

  /** `kerberos_guard` as written. */
  function Guard(headers: map<string, string>, gss: Gss, b64: Base64, callNext: string -> Response): (v: Verdict)
    ensures v.trace == [] <==> !(Scheme <= AuthHeader(headers))
    ensures v.trace == [] ==> v.result == Unauthorized(BareChallenge) && v.remoteUser == None
    ensures v.trace != [] ==> v.trace[0] == Decoded(AuthHeader(headers)[|Scheme|..])
    ensures forall i :: 0 <= i < |v.trace| && v.trace[i].SteppedWith? ==>
      i == 2 && b64.decode(AuthHeader(headers)[|Scheme|..]) == Some(v.trace[i].token) && gss.credentialsAvailable
    ensures v.result.Passed? <==> v.remoteUser.Some?
    ensures v.result.Passed? ==>
      |v.trace| == 4 && v.trace[2].SteppedWith? &&
      var s := gss.step(v.trace[2].token);
      s.Stepped? && s.complete && v.remoteUser == Some(s.initiatorName) &&
      v.trace[3] == CalledNext(s.initiatorName) && v.result.response == callNext(s.initiatorName)
    ensures v.result.Unauthorized? && v.trace != [] ==>
      |v.trace| == 3 && v.trace[2].SteppedWith? &&
      var s := gss.step(v.trace[2].token);
      s.Stepped? && !s.complete && s.outToken != [] &&
      v.result.headers == map["WWW-Authenticate" := Scheme + b64.encode(s.outToken)]
    ensures v.result == Crashed(UnboundHeaders) <==>
      |v.trace| == 3 && v.trace[2].SteppedWith? &&
      var s := gss.step(v.trace[2].token);
      s.Stepped? && !s.complete && s.outToken == []
    // and forwards, from the header, the decoded token and the step's outcome:
    ensures Scheme <= AuthHeader(headers) && b64.decode(AuthHeader(headers)[|Scheme|..]).None? ==>
      v.result == Crashed(InvalidBase64) && v.remoteUser == None
    ensures Scheme <= AuthHeader(headers) && b64.decode(AuthHeader(headers)[|Scheme|..]).Some? && !gss.credentialsAvailable ==>
      v.result.Crashed? && v.result.error.GssError? && v.remoteUser == None
    ensures Scheme <= AuthHeader(headers) && b64.decode(AuthHeader(headers)[|Scheme|..]).Some? && gss.credentialsAvailable ==>
      |v.trace| >= 3 && v.trace[2] == SteppedWith(b64.decode(AuthHeader(headers)[|Scheme|..]).value)
    ensures Scheme <= AuthHeader(headers) && b64.decode(AuthHeader(headers)[|Scheme|..]).Some? && gss.credentialsAvailable ==>
      var s := gss.step(b64.decode(AuthHeader(headers)[|Scheme|..]).value);
      && (s.StepFailed? ==> v.result == Crashed(GssError(s.error)) && v.remoteUser == None)
      && (s.Stepped? && s.complete ==>
            v.result == Passed(callNext(s.initiatorName)) && v.remoteUser == Some(s.initiatorName))
      && (s.Stepped? && !s.complete && s.outToken != [] ==>
            v.result == Unauthorized(map["WWW-Authenticate" := Scheme + b64.encode(s.outToken)]) && v.remoteUser == None)
      && (s.Stepped? && !s.complete && s.outToken == [] ==>
            v.result == Crashed(UnboundHeaders) && v.remoteUser == None)
    // `call_next` runs only when the request is passed on
    ensures !v.result.Passed? ==> |v.trace| <= 3 && forall i :: 0 <= i < |v.trace| ==> !v.trace[i].CalledNext?
  {
    var auth := AuthHeader(headers);
    if !(Scheme <= auth) then Verdict(Unauthorized(BareChallenge), [], None)
    else
      TokenTextAfterScheme(auth);
      var text := SplitOnce(auth, ' ')[1];
      match b64.decode(text)
      case None => Verdict(Crashed(InvalidBase64), [Decoded(text)], None)
      case Some(token) =>
        if !gss.credentialsAvailable then
          Verdict(Crashed(GssError("no acceptor credentials")), [Decoded(text)], None)
        else
          var trace := [Decoded(text), AcquiredCredentials, SteppedWith(token)];
          match gss.step(token)
          case StepFailed(e) => Verdict(Crashed(GssError(e)), trace, None)
          case Stepped(out, complete, name) =>
            // `headers` is bound only when the step produced an output token
            var challenge := if out != [] then Some(map["WWW-Authenticate" := Scheme + b64.encode(out)]) else None;
            if !complete then
              if challenge.None? then Verdict(Crashed(UnboundHeaders), trace, None)
              else Verdict(Unauthorized(challenge.value), trace, None)
            else
              Verdict(Passed(callNext(name)), trace + [CalledNext(name)], Some(name))
  }

  /** The guard run on a request: the verdict of `Guard`, with `remote_user` written only when
      the request is passed on. */
  method KerberosGuard(request: Request, gss: Gss, b64: Base64, callNext: string -> Response)
    returns (result: GuardResult, trace: seq<Event>)
    modifies request
    ensures var v := Guard(request.headers, gss, b64, callNext);
      && result == v.result && trace == v.trace
      && request.remoteUser == (if v.remoteUser.Some? then v.remoteUser else old(request.remoteUser))
  {
    var auth := AuthHeader(request.headers);
    if !(Scheme <= auth) {
      return Unauthorized(BareChallenge), [];
    }
    TokenTextAfterScheme(auth);
    var text := SplitOnce(auth, ' ')[1];
    trace := [Decoded(text)];
    var decoded := b64.decode(text);
    if decoded.None? {
      return Crashed(InvalidBase64), trace;
    }
    var token := decoded.value;
    if !gss.credentialsAvailable {
      return Crashed(GssError("no acceptor credentials")), trace;
    }
    trace := trace + [AcquiredCredentials, SteppedWith(token)];
    var step := gss.step(token);
    if step.StepFailed? {
      return Crashed(GssError(step.error)), trace;
    }
    var headers: Option<map<string, string>> := None;  // unbound until assigned
    if step.outToken != [] {
      headers := Some(map["WWW-Authenticate" := Scheme + b64.encode(step.outToken)]);
    }
    if !step.complete {
      if headers.None? {
        return Crashed(UnboundHeaders), trace;
      }
      return Unauthorized(headers.value), trace;
    }
    request.remoteUser := Some(step.initiatorName);
    trace := trace + [CalledNext(step.initiatorName)];
    result := Passed(callNext(step.initiatorName));
  }

  /** An incomplete step with no output token reaches the unbound `headers`: the request ends in
      an error instead of a 401 challenge. */
  lemma UnboundHeadersOnSilentIncompleteStep()
    ensures var gss := Gss(true, (t: seq<byte>) => Stepped([], false, ""));
      var b64 := Base64((s: string) => Some([1 as byte]), (b: seq<byte>) => "");
      Guard(map["authorization" := "Negotiate YQ=="], gss, b64, (u: string) => Response(200, u)).result
        == Crashed(UnboundHeaders)
  {
    var auth := "Negotiate YQ==";
    TokenTextAfterScheme(auth);
  }

  /** The evidently intended guard: an incomplete step without an output token gets the bare
      `Negotiate` challenge; every other case is as written. */
  function CorrectedGuard(headers: map<string, string>, gss: Gss, b64: Base64, callNext: string -> Response): (v: Verdict)
    ensures v.result != Crashed(UnboundHeaders)
    ensures v.result.Unauthorized? ==>
      "WWW-Authenticate" in v.result.headers && Scheme[..9] <= v.result.headers["WWW-Authenticate"]
    ensures v.trace == Guard(headers, gss, b64, callNext).trace
    ensures Guard(headers, gss, b64, callNext).result != Crashed(UnboundHeaders) ==> v == Guard(headers, gss, b64, callNext)
    ensures Guard(headers, gss, b64, callNext).result == Crashed(UnboundHeaders) ==>
      v.result == Unauthorized(BareChallenge) && v.remoteUser == None
    ensures v.trace != [] && v.trace[|v.trace| - 1].SteppedWith? ==>
      var s := gss.step(v.trace[|v.trace| - 1].token);
      s.Stepped? && !s.complete ==> v.result.Unauthorized? && v.remoteUser == None
  {
    var w := Guard(headers, gss, b64, callNext);
    if w.result == Crashed(UnboundHeaders) then Verdict(Unauthorized(BareChallenge), w.trace, None) else w
  }
}
