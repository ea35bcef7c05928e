/** The identity-injecting tool proxy: configuration read from the environment, the outbound
    TLS context, the two-convention dial of the backend, the backend router that snapshots the
    backend's tool catalog, and the proxy server that republishes every backend tool with an
    `_auth` record injected into the forwarded arguments. */
module Proxy {
  import opened Wrappers
  import opened Json
  import opened ToolCatalog

  // ===================== configuration =====================

  /** The process environment. */
  type Env = map<string, string>

  /** `os.getenv(name)`. */
  function GetEnv(env: Env, name: string): Option<string> {
    if name in env then Some(env[name]) else None
  }

  /** Python truthiness of an optional string (`if TLS_CA:`): present and non-empty. */
  predicate Truthy(o: Option<string>) {
    o.Some? && o.value != ""
  }

  const DefaultBackendUrl := "http://127.0.0.1:9001/mcp"

  /** `BACKEND_URL`: the backend endpoint, with its default. */
  function BackendUrlFromEnv(env: Env): (url: string)
    ensures "BACKEND_MCP_URL" in env ==> url == env["BACKEND_MCP_URL"]
    ensures "BACKEND_MCP_URL" !in env ==> url == DefaultBackendUrl
  {
    GetEnv(env, "BACKEND_MCP_URL").GetOr(DefaultBackendUrl)
  }

  /** `str.lower` on one character, for the characters whose lower case is ASCII. */
  function LowerChar(c: char): char {
    if 'A' <= c <= 'Z' then (c as int - 'A' as int + 'a' as int) as char else c
  }

  function UpperChar(c: char): char {
    if 'a' <= c <= 'z' then (c as int - 'a' as int + 'A' as int) as char else c
  }

  function Lower(s: string): (r: string)
    ensures |r| == |s|
    ensures forall i :: 0 <= i < |s| ==> r[i] == LowerChar(s[i])
  {
    if s == [] then [] else [LowerChar(s[0])] + Lower(s[1..])
  }

  /** The spellings accepted for the skip-verify flag, after lowering. */
  const SkipVerifyWords: set<string> := {"1", "true", "yes"}

  /** `TLS_SKIP_VERIFY`: the lowered value of `BACKEND_TLS_SKIP_VERIFY` (default "") is one of
      the accepted words. */
  function SkipVerifyFlag(env: Env): (on: bool)
    ensures on ==> "BACKEND_TLS_SKIP_VERIFY" in env && 1 <= |env["BACKEND_TLS_SKIP_VERIFY"]| <= 4
  {
    Lower(GetEnv(env, "BACKEND_TLS_SKIP_VERIFY").GetOr("")) in SkipVerifyWords
  }

  /** `v` spells the lower-case word `w` with any of its letters in upper case. */
  predicate CaseVariant(v: string, w: string) {
    |v| == |w| && forall i :: 0 <= i < |w| ==> v[i] == w[i] || v[i] == UpperChar(w[i])
  }

  predicate NoUpper(w: string) {
    forall i :: 0 <= i < |w| ==> !('A' <= w[i] <= 'Z')
  }

  lemma LowerMatches(v: string, w: string)
    requires NoUpper(w)
    ensures Lower(v) == w <==> CaseVariant(v, w)
  {
    if |v| == |w| {
      if Lower(v) == w {
        forall i | 0 <= i < |w| ensures v[i] == w[i] || v[i] == UpperChar(w[i]) {
          assert LowerChar(v[i]) == w[i];
        }
      }
      if CaseVariant(v, w) {
        forall i | 0 <= i < |w| ensures Lower(v)[i] == w[i] {
          assert v[i] == w[i] || v[i] == UpperChar(w[i]);
        }
      }
    }
  }

  /** The flag is set exactly when the variable is present and spells "1", "true" or "yes"
      in any mix of cases; an unset or empty variable leaves it off. */
  lemma SkipVerifyFlagSpellings(env: Env)
    ensures SkipVerifyFlag(env) <==>
      "BACKEND_TLS_SKIP_VERIFY" in env &&
      var v := env["BACKEND_TLS_SKIP_VERIFY"];
      CaseVariant(v, "1") || CaseVariant(v, "true") || CaseVariant(v, "yes")
  {
    var raw := GetEnv(env, "BACKEND_TLS_SKIP_VERIFY").GetOr("");
    LowerMatches(raw, "1");
    LowerMatches(raw, "true");
    LowerMatches(raw, "yes");
    if "BACKEND_TLS_SKIP_VERIFY" !in env {
      assert Lower(raw) == "";
    }
  }

  /** The backend TLS settings read once at import time. */
  datatype TlsSettings = TlsSettings(ca: Option<string>, cert: Option<string>, key: Option<string>, skipVerify: bool)

  /** The module-level `TLS_CA`, `TLS_CERT`, `TLS_KEY` and `TLS_SKIP_VERIFY`. */
  function TlsSettingsFromEnv(env: Env): (tls: TlsSettings)
    ensures tls.ca.Some? <==> "BACKEND_TLS_CA" in env
    ensures tls.cert.Some? <==> "BACKEND_TLS_CERT" in env
    ensures tls.key.Some? <==> "BACKEND_TLS_KEY" in env
    ensures tls.ca.Some? ==> tls.ca.value == env["BACKEND_TLS_CA"]
    ensures tls.cert.Some? ==> tls.cert.value == env["BACKEND_TLS_CERT"]
    ensures tls.key.Some? ==> tls.key.value == env["BACKEND_TLS_KEY"]
    ensures tls.skipVerify == SkipVerifyFlag(env)
  {
    TlsSettings(GetEnv(env, "BACKEND_TLS_CA"), GetEnv(env, "BACKEND_TLS_CERT"),
                GetEnv(env, "BACKEND_TLS_KEY"), SkipVerifyFlag(env))
  }

  // ===================== TLS context and keyword options =====================

  datatype VerifyMode = CertNone | CertOptional | CertRequired

  /** The parts of an `ssl.SSLContext` that the proxy sets: hostname checking, verification
      mode, an extra CA file on top of the system roots, and the client certificate chain. */
  datatype SslContext = SslContext(checkHostname: bool, verifyMode: VerifyMode,
                                   caFile: Option<string>, certChain: Option<(string, string)>)

  /** `ssl.create_default_context(ssl.Purpose.SERVER_AUTH)`: hostname checked, certificate required. */
  const DefaultClientContext := SslContext(true, CertRequired, None, None)

  predicate IsHttps(url: string) {
    "https://" <= url
  }

  /** The outbound context `_build_ssl_ctx` produces for `url` under `tls`. */
  function SslContextFor(url: string, tls: TlsSettings): (ctx: Option<SslContext>)
    ensures ctx.None? <==> !IsHttps(url)
    ensures ctx.Some? ==> (ctx.value.caFile.Some? <==> Truthy(tls.ca))
    ensures ctx.Some? && ctx.value.caFile.Some? ==> ctx.value.caFile == tls.ca
    ensures ctx.Some? && tls.skipVerify ==> !ctx.value.checkHostname && ctx.value.verifyMode == CertNone
    ensures ctx.Some? && !tls.skipVerify ==> ctx.value.checkHostname && ctx.value.verifyMode == CertRequired
    ensures ctx.Some? ==> (ctx.value.certChain.Some? <==> Truthy(tls.cert) && Truthy(tls.key))
    ensures ctx.Some? && ctx.value.certChain.Some? ==> ctx.value.certChain.value == (tls.cert.value, tls.key.value)
  {
    if !IsHttps(url) then None
    else
      Some(SslContext(
        !tls.skipVerify,
        if tls.skipVerify then CertNone else CertRequired,
        if Truthy(tls.ca) then tls.ca else None,
        if Truthy(tls.cert) && Truthy(tls.key) then Some((tls.cert.value, tls.key.value)) else None))
  }

  /** A value of the alternate keyword options: `verify=False`, `verify=<CA path>` or `cert=(cert, key)`. */
  datatype HttpxValue = VerifyOff | VerifyCa(path: string) | CertPair(cert: string, key: string)

  /** The `httpx_kwargs` dict of the second dial convention. */
  function HttpxKwargsFor(url: string, tls: TlsSettings): (kw: map<string, HttpxValue>)
    ensures !IsHttps(url) ==> kw == map[]
    ensures kw.Keys <= {"verify", "cert"}
    ensures "verify" in kw <==> IsHttps(url) && (tls.skipVerify || Truthy(tls.ca))
    ensures "verify" in kw && tls.skipVerify ==> kw["verify"] == VerifyOff
    ensures "verify" in kw && !tls.skipVerify ==> kw["verify"] == VerifyCa(tls.ca.value)
    ensures "cert" in kw <==> IsHttps(url) && Truthy(tls.cert) && Truthy(tls.key)
    ensures "cert" in kw ==> kw["cert"] == CertPair(tls.cert.value, tls.key.value)
  {
    if !IsHttps(url) then map[]
    else
      var v: map<string, HttpxValue> :=
        if tls.skipVerify then map["verify" := VerifyOff]
        else if Truthy(tls.ca) then map["verify" := VerifyCa(tls.ca.value)]
        else map[];
      if Truthy(tls.cert) && Truthy(tls.key) then v["cert" := CertPair(tls.cert.value, tls.key.value)] else v
  }

  /** Both conventions carry the same decisions, with one asymmetry: under skip-verify the
      context still loads the CA file while the keyword options drop it. */
  lemma ConventionsAgree(url: string, tls: TlsSettings)
    requires IsHttps(url)
    ensures var ctx := SslContextFor(url, tls).value; var kw := HttpxKwargsFor(url, tls);
      && (ctx.verifyMode == CertNone <==> "verify" in kw && kw["verify"] == VerifyOff)
      && (ctx.certChain.Some? <==> "cert" in kw)
      && (ctx.caFile.Some? && !tls.skipVerify <==> "verify" in kw && kw["verify"].VerifyCa?)
  {
  }

  // ===================== the backend as seen through the transport library =====================

  /** Exceptions the model distinguishes. */
  datatype Exc = TypeError | AssertionError(msg: string) | OtherError(what: string)

  /** A call that returns a value or raises. */
  datatype Raises<+T> = Returned(value: T) | Raised(exc: Exc)

  /** The read/write stream pair of a dialled connection. */
  datatype Streams = Streams(id: nat)

  /** The transport library and the backend server behind it, as functions of their inputs:
      the two dial conventions (`ssl=` and `httpx_kwargs=`), and the session's `initialize`,
      `list_tools` and `call_tool`. */
  datatype Backend = Backend(
    dialSsl: (string, Option<SslContext>) -> Raises<Streams>,
    dialHttpx: (string, map<string, HttpxValue>) -> Raises<Streams>,
    initialize: Streams -> Raises<()>,
    listTools: Streams -> Raises<seq<ToolDef>>,
    callTool: (Streams, string, Args) -> Raises<Json>)

  /** One attempt to dial: which convention, with which options. */
  datatype DialAttempt = SslConvention(ctx: Option<SslContext>) | HttpxConvention(kwargs: map<string, HttpxValue>)

  /** The outcome of `_dial_backend`: the `ssl=` convention, and the keyword convention only
      when the first raised `TypeError`. */
  function Dialled(url: string, tls: TlsSettings, backend: Backend): (r: Raises<Streams>)
    ensures backend.dialSsl(url, SslContextFor(url, tls)) != Raised(TypeError) ==>
      r == backend.dialSsl(url, SslContextFor(url, tls))
    ensures backend.dialSsl(url, SslContextFor(url, tls)) == Raised(TypeError) ==>
      r == backend.dialHttpx(url, HttpxKwargsFor(url, tls))
    ensures r == backend.dialSsl(url, SslContextFor(url, tls)) || r == backend.dialHttpx(url, HttpxKwargsFor(url, tls))
    ensures r == Raised(TypeError) ==> backend.dialHttpx(url, HttpxKwargsFor(url, tls)) == Raised(TypeError)
    ensures r.Returned? && backend.dialSsl(url, SslContextFor(url, tls)).Raised? ==>
      backend.dialSsl(url, SslContextFor(url, tls)) == Raised(TypeError)
  {
    var first := backend.dialSsl(url, SslContextFor(url, tls));
    if first == Raised(TypeError) then backend.dialHttpx(url, HttpxKwargsFor(url, tls)) else first
  }

  // ===================== stubs: identity verifier and token broker =====================

  datatype UserInfo = UserInfo(principal: string)

  /** `KerberosVerifier.verify_ap_req`: without a (non-empty) `x-kerberos-ap-req` header the caller
      is anonymous; with one, a fixed principal (the stub does not check the assertion). */
  function VerifyApReq(headers: map<string, string>): (info: UserInfo)
    ensures info.principal == "anonymous@EXAMPLE" || info.principal == "jane.doe@EXAMPLE.COM"
    ensures info.principal == "anonymous@EXAMPLE" <==>
      "x-kerberos-ap-req" !in headers || headers["x-kerberos-ap-req"] == ""
  {
    if Truthy(GetEnv(headers, "x-kerberos-ap-req")) then UserInfo("jane.doe@EXAMPLE.COM")
    else UserInfo("anonymous@EXAMPLE")
  }

  function DigitChar(d: nat): char
    requires d < 10
  {
    ('0' as int + d) as char
  }

  predicate AllDigits(s: string) {
    forall i :: 0 <= i < |s| ==> '0' <= s[i] <= '9'
  }

  /** Digits as `str` writes a natural number: at least one, and no leading zero unless the
      number is zero itself. */
  predicate Canonical(s: string) {
    |s| >= 1 && AllDigits(s) && (s[0] == '0' ==> |s| == 1)
  }

  /** `str(n)` for a natural number. */
  function Decimal(n: nat): (s: string)
    ensures Canonical(s)
    ensures s[0] == '0' <==> n == 0
  {
    if n < 10 then [DigitChar(n)] else Decimal(n / 10) + [DigitChar(n % 10)]
  }

  /** The number a string of decimal digits denotes. */
  function DecimalValue(s: string): nat
    requires AllDigits(s)
  {
    if s == [] then 0 else DecimalValue(s[..|s| - 1]) * 10 + (s[|s| - 1] as int - '0' as int)
  }

  lemma {:induction false} DecimalRoundTrip(n: nat)
    ensures DecimalValue(Decimal(n)) == n
  {
    if n >= 10 {
      var s := Decimal(n);
      assert s[..|s| - 1] == Decimal(n / 10);
      DecimalRoundTrip(n / 10);
    }
  }

  /** A leading digit other than zero makes the number positive. */
  lemma {:induction false} LeadingNonZeroPositive(s: string)
    requires |s| >= 1 && AllDigits(s) && s[0] != '0'
    ensures DecimalValue(s) >= 1
    decreases |s|
  {
    if |s| > 1 {
      LeadingNonZeroPositive(s[..|s| - 1]);
    }
  }

  /** `str(n)` is the only canonical spelling of `n`: any digits without a leading zero that
      read back as `n` are exactly `Decimal(n)`. */
  lemma {:induction false} DecimalUnique(s: string, n: nat)
    requires Canonical(s) && DecimalValue(s) == n
    ensures s == Decimal(n)
    decreases |s|
  {
    var d := s[|s| - 1] as int - '0' as int;
    if |s| == 1 {
      assert n == d;
      assert s == [DigitChar(d)];
    } else {
      var p := s[..|s| - 1];
      assert p[0] == s[0];
      LeadingNonZeroPositive(p);
      DecimalUnique(p, DecimalValue(p));
      assert n / 10 == DecimalValue(p) && n % 10 == d;
      assert s == p + [DigitChar(d)];
    }
  }

  const TokenPrefix := "fn_token_db_reader_"

  /** `TokenBrokerClient.get_function_token` at wall-clock second `now`: the prefix followed by
      the decimal timestamp, which can be read back from the token. */
  function FunctionToken(now: nat): (token: string)
    ensures |token| > |TokenPrefix| && token[..|TokenPrefix|] == TokenPrefix
    ensures Canonical(token[|TokenPrefix|..]) && DecimalValue(token[|TokenPrefix|..]) == now
  {
    DecimalRoundTrip(now);
    var token := TokenPrefix + Decimal(now);
    assert token[|TokenPrefix|..] == Decimal(now);
    token
  }

  // ===================== argument forwarding =====================

  const AuthKey := "_auth"

  /** The `_auth` record: `{user_principal, function_token}`. */
  function AuthRecord(principal: string, token: string): (j: Json)
    ensures j.JObj? && j.fields.Keys == {"user_principal", "function_token"}
    ensures j.fields["user_principal"] == JStr(principal) && j.fields["function_token"] == JStr(token)
  {
    JObj(map["user_principal" := JStr(principal), "function_token" := JStr(token)])
  }

  /** The forwarded arguments: the caller's keys plus `_auth`, every other value unchanged,
      and `_auth` holding `auth` whatever the caller put there. */
  function WithAuth(kwargs: Args, auth: Json): (forwarded: Args)
    ensures forwarded.Keys == kwargs.Keys + {AuthKey}
    ensures forwarded[AuthKey] == auth
    ensures forall k :: k in kwargs && k != AuthKey ==> forwarded[k] == kwargs[k]
  {
    kwargs[AuthKey := auth]
  }

  /** A caller-supplied `_auth` is overwritten, not rejected: the forwarded dict has the same
      size and the caller's value is gone; removing `_auth` gives back the caller's other keys. */
  lemma CallerAuthOverwritten(kwargs: Args, auth: Json)
    ensures WithAuth(kwargs, auth) - {AuthKey} == kwargs - {AuthKey}
    ensures AuthKey in kwargs ==> |WithAuth(kwargs, auth)| == |kwargs|
    ensures AuthKey !in kwargs ==> |WithAuth(kwargs, auth)| == |kwargs| + 1
  {
  }

  // ===================== proxy registrations =====================

  /** A tool published by the proxy: its name, description, and the backend tool its closure
      forwards to. */
  datatype ProxyTool = ProxyTool(name: string, description: string, target: string)

  /** `f"[PROXY] {tool_def.get('description','')}"`. */
  function ProxyDescription(def: ToolDef): (d: string)
    ensures |d| >= 8 && d[..8] == "[PROXY] "
    ensures def.description.Some? ==> d[8..] == def.description.value
    ensures def.description.None? ==> d == "[PROXY] "
  {
    "[PROXY] " + def.description.GetOr("")
  }

  /** Exactly one registration per catalog entry, under the entry's name, forwarding to that
      same backend tool, with the `[PROXY]` description. */
  predicate OnePerEntry(regs: seq<ProxyTool>, catalog: map<string, ToolDef>) {
    && |regs| == |catalog|
    && (forall i, j :: 0 <= i < j < |regs| ==> regs[i].name != regs[j].name)
    && (forall i :: 0 <= i < |regs| ==>
          regs[i].name in catalog && regs[i].target == regs[i].name &&
          regs[i].description == ProxyDescription(catalog[regs[i].name]))
    && (forall n :: n in catalog ==> Published(regs, n))
  }

  /** Some registration carries the name `n`. */
  predicate Published(regs: seq<ProxyTool>, n: string) {
    exists i :: 0 <= i < |regs| && regs[i].name == n
  }

  // ===================== backend router =====================

  class BackendRouter {
    const backendUrl: string
    const tls: TlsSettings
    const backend: Backend
    /** `_sess`: the streams of the open session, once `start` has dialled. */
    var sess: Option<Streams>
    /** `_tools`: the catalog snapshot. */
    var tools: map<string, ToolDef>

    /** No catalog without a session, and every entry is keyed by its tool's name. */
    ghost predicate Valid()
      reads this
    {
      && (sess.None? ==> tools == map[])
      && (forall n :: n in tools ==> tools[n].name == n)
    }

    constructor(backendUrl: string, tls: TlsSettings, backend: Backend)
      ensures Valid()
      ensures this.backendUrl == backendUrl && this.tls == tls && this.backend == backend
      ensures sess.None? && tools == map[]
    {
      this.backendUrl := backendUrl;
      this.tls := tls;
      this.backend := backend;
      sess := None;
      tools := map[];
    }

    /** `_build_ssl_ctx`: start from the default client context and adjust it step by step. */
    method BuildSslCtx() returns (ctx: Option<SslContext>)
      ensures ctx == SslContextFor(backendUrl, tls)
    {
      if !IsHttps(backendUrl) {
        return None;
      }
      var c := DefaultClientContext;
      if Truthy(tls.ca) {
        c := c.(caFile := tls.ca);
      }
      if tls.skipVerify {
        c := c.(checkHostname := false);
        // the ssl module refuses CERT_NONE while hostname checking is on; the order above avoids it
        assert !c.checkHostname;
        c := c.(verifyMode := CertNone);
      }
      if Truthy(tls.cert) && Truthy(tls.key) {
        c := c.(certChain := Some((tls.cert.value, tls.key.value)));
      }
      ctx := Some(c);
    }

    /** `_dial_backend`: the `ssl=` convention first; the keyword convention only if that raised
      `TypeError`; any other failure of the first attempt propagates. */
    method DialBackend() returns (r: Raises<Streams>, attempts: seq<DialAttempt>)
      ensures r == Dialled(backendUrl, tls, backend)
      ensures 1 <= |attempts| <= 2 && attempts[0] == SslConvention(SslContextFor(backendUrl, tls))
      ensures |attempts| == 2 <==> backend.dialSsl(backendUrl, SslContextFor(backendUrl, tls)) == Raised(TypeError)
      ensures |attempts| == 2 ==> attempts[1] == HttpxConvention(HttpxKwargsFor(backendUrl, tls))
    {
      var sslCtx := BuildSslCtx();
      attempts := [SslConvention(sslCtx)];
      var first := backend.dialSsl(backendUrl, sslCtx);
      if first != Raised(TypeError) {
        return first, attempts;
      }
      var httpxKwargs: map<string, HttpxValue> := map[];
      if IsHttps(backendUrl) {
        if tls.skipVerify {
          httpxKwargs := httpxKwargs["verify" := VerifyOff];
        } else if Truthy(tls.ca) {
          httpxKwargs := httpxKwargs["verify" := VerifyCa(tls.ca.value)];
        }
        if Truthy(tls.cert) && Truthy(tls.key) {
          httpxKwargs := httpxKwargs["cert" := CertPair(tls.cert.value, tls.key.value)];
        }
      }
      assert httpxKwargs == HttpxKwargsFor(backendUrl, tls);
      attempts := attempts + [HttpxConvention(httpxKwargs)];
      r := backend.dialHttpx(backendUrl, httpxKwargs);
    }

    /** `start`: dial, open the session, initialize it, and snapshot the listed tools by name.
        The session is kept even when `initialize` or `list_tools` then raises. */
    method Start() returns (r: Raises<()>)
      requires Valid()
      modifies this
      ensures Valid()
      ensures var d := Dialled(backendUrl, tls, backend);
        if d.Raised? then r == Raised(d.exc) && sess == old(sess) && tools == old(tools)
        else
          sess == Some(d.value) &&
          var init := backend.initialize(d.value);
          var reply := backend.listTools(d.value);
          if init.Raised? then r == Raised(init.exc) && tools == old(tools)
          else if reply.Raised? then r == Raised(reply.exc) && tools == old(tools)
          else r == Returned(()) && tools == ByName(reply.value)
    {
      var dial, _ := DialBackend();
      if dial.Raised? {
        return Raised(dial.exc);
      }
      sess := Some(dial.value);
      var init := backend.initialize(dial.value);
      if init.Raised? {
        return Raised(init.exc);
      }
      var reply := backend.listTools(dial.value);
      if reply.Raised? {
        return Raised(reply.exc);
      }
      tools := ByName(reply.value);
      r := Returned(());
    }

    /** `list_tools`: the snapshot itself; empty before `start`, each entry under its name. */
    function ListTools(): (catalog: map<string, ToolDef>)
      reads this
      ensures Valid() && sess.None? ==> catalog == map[]
      ensures Valid() ==> forall n :: n in catalog ==> catalog[n].name == n
    {
      tools
    }

    /** `call_tool`: asserts that a session exists, then forwards over it. */
    method CallTool(toolName: string, args: Args) returns (r: Raises<Json>)
      ensures sess.None? ==> r == Raised(AssertionError("Backend session not initialized"))
      ensures sess.Some? ==> r == backend.callTool(sess.value, toolName, args)
    {
      if sess.None? {
        return Raised(AssertionError("Backend session not initialized"));
      }
      r := backend.callTool(sess.value, toolName, args);
    }
  }

  // ===================== proxy server =====================

  class ProxyMcp {
    const router: BackendRouter
    /** The tools registered on the proxy's own server, in registration order. */
    var registered: seq<ProxyTool>

    constructor(backendUrl: string, tls: TlsSettings, backend: Backend)
      ensures fresh(router) && router.Valid()
      ensures router.backendUrl == backendUrl && router.tls == tls && router.backend == backend
      ensures router.sess.None? && router.tools == map[] && registered == []
    {
      router := new BackendRouter(backendUrl, tls, backend);
      registered := [];
    }

    /** `_register_proxy_tool`: publish `toolName` with the `[PROXY]` description; the published
        tool forwards to the backend tool of the same name. */
    method RegisterProxyTool(toolName: string, def: ToolDef)
      modifies this
      ensures registered == old(registered) + [ProxyTool(toolName, ProxyDescription(def), toolName)]
    {
      registered := registered + [ProxyTool(toolName, ProxyDescription(def), toolName)];
    }

    /** `initialize`: start the router, then register one proxy tool per catalog entry. When
        `start` raises, nothing is registered. */
    method Initialize() returns (r: Raises<()>, added: seq<ProxyTool>)
      requires router.Valid()
      modifies this, router
      ensures router.Valid()
      ensures var d := Dialled(router.backendUrl, router.tls, router.backend);
        if d.Raised? then r == Raised(d.exc) && router.sess == old(router.sess) && router.tools == old(router.tools)
        else
          router.sess == Some(d.value) &&
          var init := router.backend.initialize(d.value);
          var reply := router.backend.listTools(d.value);
          if init.Raised? then r == Raised(init.exc) && router.tools == old(router.tools)
          else if reply.Raised? then r == Raised(reply.exc) && router.tools == old(router.tools)
          else r == Returned(()) && router.tools == ByName(reply.value)
      ensures r.Raised? ==> added == [] && registered == old(registered)
      ensures r.Returned? ==> registered == old(registered) + added && OnePerEntry(added, router.tools)
    {
      added := [];
      r := router.Start();
      if r.Raised? {
        return;
      }
      added := RegisterCatalog(router.ListTools());
    }

    /** The loop of `initialize` over the catalog's items, one `_register_proxy_tool` call each. */
    method RegisterCatalog(catalog: map<string, ToolDef>) returns (added: seq<ProxyTool>)
      modifies this
      ensures registered == old(registered) + added && OnePerEntry(added, catalog)
    {
      added := [];
      var remaining := catalog.Keys;
      while remaining != {}
        invariant remaining <= catalog.Keys
        invariant registered == old(registered) + added
        invariant |added| + |remaining| == |catalog|
        invariant forall i, j :: 0 <= i < j < |added| ==> added[i].name != added[j].name
        invariant forall i :: 0 <= i < |added| ==>
          added[i].name in catalog && added[i].name !in remaining && added[i].target == added[i].name &&
          added[i].description == ProxyDescription(catalog[added[i].name])
        invariant forall n :: n in catalog && n !in remaining ==> Published(added, n)
        decreases remaining
      {
        var toolName :| toolName in remaining;
        var tool := ProxyTool(toolName, ProxyDescription(catalog[toolName]), toolName);
        RegisterProxyTool(toolName, catalog[toolName]);
        ghost var before := added;
        added := added + [tool];
        assert Published(added, toolName) by { assert added[|added| - 1].name == toolName; }
        forall n | n in catalog && n !in remaining - {toolName} ensures Published(added, n) {
          if n != toolName {
            assert Published(before, n);
            var i :| 0 <= i < |before| && before[i].name == n;
            assert added[i] == before[i];
          }
        }
        remaining := remaining - {toolName};
      }
    }

    /** The closure `proxy_tool` registered for `tool`: verify the caller, obtain a function
        token at second `now`, forward a copy of the arguments with `_auth` set, and return the
        backend's reply (or the router's assertion failure before `start`). */
    method InvokeProxyTool(tool: ProxyTool, headers: map<string, string>, kwargs: Args, now: nat)
      returns (r: Raises<Json>)
      ensures var info := VerifyApReq(headers);
        var forwarded := WithAuth(kwargs, AuthRecord(info.principal, FunctionToken(now)));
        && (router.sess.None? ==> r == Raised(AssertionError("Backend session not initialized")))
        && (router.sess.Some? ==> r == router.backend.callTool(router.sess.value, tool.target, forwarded))
    {
      var userInfo := VerifyApReq(headers);
      var fnToken := FunctionToken(now);
      var forwardArgs := kwargs;  // dict(kwargs): the caller's dict is a value and stays as it was
      forwardArgs := forwardArgs[AuthKey := AuthRecord(userInfo.principal, fnToken)];
      r := router.CallTool(tool.target, forwardArgs);
    }
  }

  /** The entry point and `run` up to serving: `ProxyMCP(BACKEND_URL)` configured from the
      environment, then `initialize`. On success the proxy publishes exactly one `[PROXY]` tool
      per tool the backend listed. */
  method RunProxy(env: Env, backend: Backend) returns (proxy: ProxyMcp, r: Raises<()>)
    ensures fresh(proxy) && fresh(proxy.router)
    ensures proxy.router.backendUrl == BackendUrlFromEnv(env) && proxy.router.tls == TlsSettingsFromEnv(env)
    ensures var d := Dialled(BackendUrlFromEnv(env), TlsSettingsFromEnv(env), backend);
      r.Returned? ==>
        d.Returned? && backend.listTools(d.value).Returned? &&
        proxy.router.tools == ByName(backend.listTools(d.value).value) &&
        OnePerEntry(proxy.registered, ByName(backend.listTools(d.value).value))
    ensures r.Raised? ==> proxy.registered == [] && proxy.router.tools == map[]
  {
    proxy := new ProxyMcp(BackendUrlFromEnv(env), TlsSettingsFromEnv(env), backend);
    var added;
    r, added := proxy.Initialize();
    assert r.Returned? ==> proxy.registered == added;
  }
}
