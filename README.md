# Identity-aware tool proxy: a Dafny model

This project models the core of a small identity-aware MCP tool proxy:

- **Proxy and backend router** (`proxy.py`). The proxy reads its backend TLS settings from the environment. It dials the backend over one of two transport-library conventions, and snapshots the backend's tool catalog. It republishes every backend tool as a `[PROXY]` tool. On each call, that tool does three things:
  - asks a Kerberos verifier stub who the caller is;
  - gets a function token from a broker stub;
  - forwards a copy of the arguments with an `_auth` record injected.
- **Negotiate guard** (`kerb_middleware.py`). This HTTP middleware checks the `Authorization: Negotiate <token>` header and runs one GSS security-context step. It then challenges the caller, fails, or hands the request on with `remote_user` set.
- **Identity graph** (`id_graph.py`). A multigraph has users, functional database accounts and tables. `can_user_access` follows the path user --assume--> account --access--> table and asks the access edge whether it lists the user.
- **Chat client** (`client_llm_v2.py`). The client lists the server's tools and turns them into function-call schemas. Its conversation loop executes the tool calls the model asks for. Each call appends an assistant/tool message pair to the history.

## Files

| File | Contents |
|---|---|
| `wrappers.dfy` | `Option`. |
| `seqs.dfy` | `Distinct` and `Dedup`: first-occurrence order, which is the key order of a Python dict. |
| `json.dfy` | JSON-like values used for tool arguments and schemas. |
| `tool_catalog.dfy` | `ToolDef` and the name-keyed catalog `{t.name: t for t in tools}`. Both the proxy and the client build it. |
| `proxy.dfy` | The proxy: configuration, the TLS context, the keyword options, the dial, the stubs, forwarding, and the classes `BackendRouter` and `ProxyMcp`. |
| `kerb_middleware.dfy` | The guard as a function (`Guard`) and as a method on a `Request` object (`KerberosGuard`), plus its corrected variant. |
| `id_graph.dfy` | The `MultiDiGraph` class, the networkx `out_edges` order, the access decision, the `can_user_access` loops, and the example graph. |
| `client_llm.dfy` | Schemas, the history discipline, the conversation as a function (`Converse`), and the loops (`RunToolCalls`, `RunLlmSession`). |

Foreign code is modelled as values of function type that the caller supplies:

- the transport library and the backend session (`Proxy.Backend`);
- GSSAPI (`KerbMiddleware.Gss`);
- base64 (`KerbMiddleware.Base64`);
- the chat-completion endpoint, the MCP session and `json.loads` (`ClientLlm.Services`).

The wall clock is the parameter `now`. The process environment is the parameter `env`.

## Model

| member | source | states |
|---|---|---|
| Proxy.BackendUrlFromEnv | proxy.py:14 | The backend URL is `BACKEND_MCP_URL` when it is set, and the default endpoint otherwise. |
| Proxy.Lower | proxy.py:26 | `.lower()` lowers every character, position by position, and keeps the length. |
| Proxy.LowerMatches | proxy.py:26 | A value lowers to a lower-case word exactly when it spells that word in any mix of cases. |
| Proxy.SkipVerifyFlagSpellings | proxy.py:26 | The skip-verify flag is on exactly when `BACKEND_TLS_SKIP_VERIFY` is set and spells "1", "true" or "yes" in any case. When it is unset or empty, the flag is off. |
| Proxy.SkipVerifyFlag | proxy.py:26 | The flag is on only when `BACKEND_TLS_SKIP_VERIFY` is set to a value of one to four characters, as the accepted words have. |
| Proxy.TlsSettingsFromEnv | proxy.py:23-26 | The CA, certificate and key are present exactly when their variables are set, and then hold their values. The skip-verify setting is the flag parse. |
| Proxy.SslContextFor | proxy.py:49-62 | There is no context exactly when the URL is not https. A context has these parts: (1) the CA file exactly when `BACKEND_TLS_CA` is truthy; (2) without skip-verify, hostname checking on and `CERT_REQUIRED`; with skip-verify, hostname checking off and `CERT_NONE`; (3) a client chain exactly when both cert and key are truthy. |
| Proxy.HttpxKwargsFor | proxy.py:82-90 | The options are empty for non-https URLs, and their only keys are `verify` and `cert`. `verify` is set under skip-verify (False) or with a truthy CA (the path). `cert` is set exactly when both cert and key are truthy. |
| Proxy.ConventionsAgree | proxy.py:53-90 | The two conventions agree on disabling verification and on the client certificate. Under skip-verify, the context keeps the CA file but the options drop it. |
| Proxy.Dialled | proxy.py:69-96 | When the `ssl=` dial does anything but raise `TypeError` (succeed or raise something else), that outcome is the result, with no fallback. When it raises `TypeError`, the result is exactly the `httpx_kwargs=` dial with `HttpxKwargsFor`. Hence a `TypeError` result means both conventions raised it. |
| Proxy.VerifyApReq | proxy.py:30-35 | The principal is one of the two stub principals. It is anonymous exactly when `x-kerberos-ap-req` is absent or empty. |
| Proxy.Decimal | proxy.py:40 | `str(n)` is a non-empty string of digits with no leading zero. It starts with `0` exactly when `n` is zero. |
| Proxy.DecimalRoundTrip | proxy.py:40 | Reading the digits of `str(n)` gives back `n`. |
| Proxy.DecimalUnique | proxy.py:40 | Any digits without a leading zero that read back as `n` are exactly `str(n)`. |
| Proxy.FunctionToken | proxy.py:38-40 | The token is `fn_token_db_reader_` followed by digits without a leading zero that read back as the timestamp. By `DecimalUnique`, that suffix is exactly `str(now)`. |
| Proxy.AuthRecord | proxy.py:135-138 | The `_auth` record has exactly the keys `user_principal` and `function_token`, holding the principal and the token. |
| Proxy.WithAuth | proxy.py:134-138 | The forwarded keys are the caller's keys plus `_auth`. `_auth` holds the injected record. Every other value is unchanged. |
| Proxy.CallerAuthOverwritten | proxy.py:134-138 | A caller-supplied `_auth` is overwritten, not rejected. Apart from `_auth` the forwarded dict equals the caller's. Its size grows by one only when `_auth` was absent. |
| ToolCatalog.Names | proxy.py:104 | The names of a listing, position by position. |
| ToolCatalog.ByName | proxy.py:104 | The dict comprehension: its keys are exactly the listed names. Each key maps to a listed tool of that name. |
| ToolCatalog.ByNameLastWins | proxy.py:104 | Each key maps to the last listed tool of that name. |
| ToolCatalog.KeyOrderSpec | client_llm_v2.py:22 | The dict's key order lists every key exactly once, as many names as entries. |
| Proxy.BackendRouter.constructor | proxy.py:44-47 | A new router has no session and an empty catalog. |
| Proxy.BackendRouter.BuildSslCtx | proxy.py:49-62 | Adjusting the default client context step by step yields `SslContextFor`. |
| Proxy.BackendRouter.DialBackend | proxy.py:64-96 | The `ssl=` convention is always tried first. The `httpx_kwargs=` convention is tried exactly when the first attempt raised `TypeError`, and with exactly the `HttpxKwargsFor` options. Any other outcome of the first attempt is the result. |
| Proxy.BackendRouter.Start | proxy.py:98-104 | A failed dial leaves the state unchanged. Otherwise the session is kept even when `initialize` or `list_tools` raises, and the catalog then keeps its old value. On success the catalog becomes `ByName` of the listing. There is never a catalog without a session. |
| Proxy.BackendRouter.ListTools | proxy.py:106-107 | Before `start` the catalog is empty. Every entry is keyed by its tool's name. |
| Proxy.BackendRouter.CallTool | proxy.py:109-111 | Before `start`, the call fails with the assertion "Backend session not initialized". After `start`, it forwards over the session. |
| Proxy.ProxyMcp.constructor | proxy.py:115-119 | A new proxy has a fresh router without a session, and no registrations. |
| Proxy.ProxyDescription | proxy.py:127 | The description is `[PROXY] ` followed by the tool's description, or nothing when it has none. |
| Proxy.ProxyMcp.RegisterProxyTool | proxy.py:126-127 | Appends one tool with the `[PROXY]` description that forwards to the backend tool of the same name. |
| Proxy.ProxyMcp.RegisterCatalog | proxy.py:123-124 | There is exactly one registration per catalog entry. Names are distinct, each is in the catalog, and the target equals the name. |
| Proxy.ProxyMcp.Initialize | proxy.py:121-124 | The router ends in the state `start` leaves: the dial, `initialize` and `list_tools` outcomes decide the session and the catalog, and on success the catalog is `ByName` of the backend's listing. If `start` raises, nothing is registered. Otherwise the registrations added are one per entry of that catalog. |
| Proxy.ProxyMcp.InvokeProxyTool | proxy.py:128-139 | The backend receives the caller's arguments with `_auth` = {principal of the verifier, token at `now`}, sent to the tool of the same name. Before `start`, the call fails with the router's assertion. |
| Proxy.RunProxy | proxy.py:141-152 | The proxy is built from `BACKEND_MCP_URL` and the TLS variables. When initialization succeeds, the backend was dialled and listed its tools, and exactly one `[PROXY]` tool is published per listed name. When it fails, nothing is published and the catalog stays empty. |
| KerbMiddleware.AuthHeader | kerb_middleware.py:7 | The `Authorization` value when present, the empty string otherwise. |
| KerbMiddleware.FirstIndex | kerb_middleware.py:11 | The first occurrence of a character, or its absence. |
| KerbMiddleware.SplitOnce | kerb_middleware.py:11 | One part exactly when the separator is absent, and then the whole string. Otherwise two parts that rejoin with the separator to the string, the first without the separator. |
| KerbMiddleware.TokenTextAfterScheme | kerb_middleware.py:11 | After the `Negotiate ` prefix, `split(" ", 1)[1]` is exactly the text that follows the prefix. |
| KerbMiddleware.Guard | kerb_middleware.py:6-20 | Without the `Negotiate ` prefix: a bare 401 and nothing else happens. A GSS step happens only after a successful decode with credentials. The request passes exactly when `remote_user` is written, and that is after a complete step, with the downstream response for the initiator. An incomplete step with an output token gives a 401 carrying the encoded token. An incomplete step without one crashes on the unbound `headers`. Forwards: a failed decode crashes with the base64 error; a successful decode with credentials makes exactly one step, on the decoded token; a failed step crashes with its GSS error; a complete step passes with `remote_user` set to the initiator; an incomplete step with a token gives that 401; an incomplete step without one crashes on the unbound `headers`. Unless the request is passed on, at most three actions happen and `call_next` is never called. |
| KerbMiddleware.KerberosGuard | kerb_middleware.py:6-20 | The imperative guard on a request gives the result and actions of `Guard`. It writes `remote_user` only when the request is passed on. |
| KerbMiddleware.UnboundHeadersOnSilentIncompleteStep | kerb_middleware.py:15-18 | A concrete request on which the guard as written ends in the unbound-`headers` error. |
| KerbMiddleware.CorrectedGuard | kerb_middleware.py:15-18 | The corrected guard never hits the unbound `headers`: where the original crashes there, it answers a 401 with exactly the bare `Negotiate` challenge and writes no `remote_user`. Everywhere else its verdict is the original's. Every 401 carries a `Negotiate` challenge and the actions are the same as the original's. |
| IdGraph.MultiDiGraph.constructor | id_graph.py:4 | An empty multigraph. |
| IdGraph.MultiDiGraph.AddNode | id_graph.py:7-16 | A new node gets its attributes. An existing node has them merged in. Edges are unchanged. |
| IdGraph.MultiDiGraph.AddEdge | id_graph.py:20-28 | Appends a parallel edge and adds missing endpoints without attributes. Existing nodes are unchanged. |
| IdGraph.Between | id_graph.py:37 | The parallel edges u -> v are exactly the graph's edges from u to v. |
| IdGraph.Targets | id_graph.py:37 | The neighbours reached from u are exactly the targets of u's edges. |
| IdGraph.Group | id_graph.py:37 | Grouping by neighbours lists exactly the edges from u to those neighbours. |
| IdGraph.OutEdges | id_graph.py:37 | `out_edges(u)` lists only edges of the graph that leave u. |
| IdGraph.OutEdgesMembers | id_graph.py:37 | `out_edges(u)` lists exactly the graph's edges leaving u. |
| IdGraph.AccessTo | id_graph.py:40-41 | The inner filter keeps exactly the access edges into the table. |
| IdGraph.Candidates | id_graph.py:37-41 | Every edge the nested search meets is an access edge of the graph into the table. |
| IdGraph.Allows | id_graph.py:42 | An edge lists the user exactly when it has an `allowed_users` set containing the user. A missing set denies. |
| IdGraph.Access | id_graph.py:37-43 | Granted access rests on an access edge of the graph into the table that lists the user. |
| IdGraph.CandidatesOnPaths | id_graph.py:37-42 | Every access edge the nested search meets ends a path user --assume--> account --access--> table. |
| IdGraph.PathsAreCandidates | id_graph.py:37-42 | Every such path is met by the search. |
| IdGraph.AccessSound | id_graph.py:31-43 | Granted access rests on a path whose access edge lists the user. |
| IdGraph.NoAssumeNoAccess | id_graph.py:37-39 | Without an outgoing assume edge, access is denied. |
| IdGraph.AccessWhenEveryPathAllows | id_graph.py:31-43 | When some path exists and every path's access edge lists the user, access is granted. |
| IdGraph.CanUserAccess | id_graph.py:31-43 | The nested loops with early return compute `Access`: the first access edge met decides. |
| IdGraph.FirstAccessEdgeDecides | id_graph.py:40-42 | A concrete graph where the code denies access although a path's access edge lists the user. |
| IdGraph.AnyAllows | id_graph.py:32-35 | Some edge of a list lists the user. |
| IdGraph.CorrectedAccess | id_graph.py:32-35 | The corrected decision also grants only on an access edge into the table that lists the user. |
| IdGraph.CorrectedAccessIff | id_graph.py:32-35 | The corrected decision grants exactly when some path user --assume--> account --access--> table has an access edge that lists the user. |
| IdGraph.AccessImpliesCorrectedAccess | id_graph.py:31-43 | Whatever the code grants, the corrected decision grants too. |
| IdGraph.BuildExampleGraph | id_graph.py:4-28 | The module's graph: six nodes with their attributes and four edges in order. |
| IdGraph.AddExampleNodes | id_graph.py:7-16 | The six `add_node` calls. |
| IdGraph.ExampleUserOutEdges | id_graph.py:20-21 | Each example user's out-edges are their one assume edge. |
| IdGraph.ExampleAccountOutEdges | id_graph.py:25-28 | The account's out-edges are table1's edge, then table2's. |
| IdGraph.ExampleAnswers | id_graph.py:46-48 | On the example graph: a_foo reaches table1, a_foo does not reach table2, and a_bar reaches table2. |
| IdGraph.ExampleChecks | id_graph.py:46-48 | The three calls on the built graph return True, False, True. |
| ClientLlm.ToOpenAiSchema | client_llm_v2.py:27-36 | The schema is a `function` entry whose name is the tool's name and whose parameters are its input schema. The description is `null` exactly when the tool has none. |
| ClientLlm.SchemaRoundTrip | client_llm_v2.py:27-36 | The schema keeps the tool's name, description and input schema: reading it back gives the tool. |
| ClientLlm.SchemaOnlyFromTool | client_llm_v2.py:27-36 | Every value the reader accepts is the schema of the tool it reads. |
| ClientLlm.SchemasOnePerEntry | client_llm_v2.py:45-46 | There is exactly one schema per catalog entry: as many schemas as entries, each the schema of an entry, every entry covered, and no schema twice. |
| ClientLlm.InitialHistory | client_llm_v2.py:49-65 | The seed history is the system prompt and then the user's prompt. It is well formed whatever the services. |
| ClientLlm.ToolRound | client_llm_v2.py:82-111 | A round appends an even number of messages, at most two per call, and exactly two per call when no call fails. |
| ClientLlm.ToolRoundPaired | client_llm_v2.py:82-111 | A round appends assistant/tool pairs. Each tool message carries the call's id and name and the text the tool returned on the parsed arguments. |
| ClientLlm.ToolRoundEchoes | client_llm_v2.py:82-111 | Each call adds exactly one pair that records the call unchanged. The round handles every call, or stops at the first call whose arguments do not parse or whose tool raises. |
| ClientLlm.PairedAppend | client_llm_v2.py:92-111 | Rounds appended one after another keep the pairing. |
| ClientLlm.PairedAt | client_llm_v2.py:84-111 | At every even position there is an assistant call. The next message answers it with the same id and name. The tool gets the parsed arguments while the assistant message keeps the raw text. |
| ClientLlm.Converse | client_llm_v2.py:67-116 | The loop never removes or rewrites history: the history it starts from is a prefix of the history it ends with. |
| ClientLlm.ConverseSpec | client_llm_v2.py:67-116 | The history only grows and keeps its discipline. The loop ends with an answer only on a reply without tool calls, and the answer is that reply's content. |
| ClientLlm.MoreFuelSameRun | client_llm_v2.py:67 | The bound on model requests only cuts conversations short. It never changes a conversation that ended within it. |
| ClientLlm.LlmSession | client_llm_v2.py:38-65 | When listing the tools fails, the session fails with no history. Otherwise its history starts with the seed history. |
| ClientLlm.LlmSessionHistory | client_llm_v2.py:49-65 | The history starts with exactly the system prompt and the user's prompt, followed by answered pairs. |
| ClientLlm.RunToolCalls | client_llm_v2.py:82-112 | The tool-call loop leaves the history extended by exactly the round's messages and reports the round's error. |
| ClientLlm.RunLlmSession | client_llm_v2.py:38-116 | The session's loops give the outcome and final history of `LlmSession`. |

## Left out

- I/O is not modelled. This covers the sockets and the streams behind `streamablehttp_client`, reading certificate and key files, the keytab, logging, `print`, and `input`. Loading the CA file or the client certificate chain happens in the source before any dial is attempted, so a bad path raises there. The model folds such a failure into the outcome of the first (`ssl=`) dial, whose attempt is still logged by `Proxy.BackendRouter.DialBackend`.
- `PROXY_HOST`, `PROXY_PORT`, serving (`mcp_run`) and the `Server`/`@mcp.tool` framework are not modelled. A registration is the value `ProxyTool`. The framework's `HTTPException` handling is reduced to the `Unauthorized` result.
- Proxy.ProxyMcp.RegisterCatalog: registers the catalog entries in an unspecified order, not in the dict's insertion order. The catalog is kept as a `map`, which has no order.
- Proxy.ProxyDescription: a description that is present but `None` renders as `[PROXY] None` in Python. The model treats it as absent, giving `[PROXY] `.
- Proxy.Lower: lowers ASCII letters only. No non-ASCII character lowers to a character of "1", "true" or "yes", so the flag decision is the same.
- `Proxy.VerifyApReq` and `Proxy.FunctionToken` model the stubs as written. The verifier never fails. The broker never fails and depends only on the clock.
- GSSAPI and base64 are oracles. Acquiring acceptor credentials is reduced to one boolean. Base64 decoding failure is one error.
- IdGraph.Access: a user that is not a node makes networkx iterate the characters of the string. That path is not modelled: the model lists no out-edges for such a user.
- IdGraph.Allows: an `allowed_users` value that is not a set (a list or a string) is not modelled.
- IdGraph: drawing the graph with matplotlib is not modelled.
- JSON floating-point numbers are not modelled.
- ClientLlm.RunLlmSession: the `while True` loop is bounded by `maxRequests`, the number of model requests allowed. `OutOfRounds` reports that the bound was reached. `ClientLlm.MoreFuelSameRun` shows that the bound changes nothing else.
- ClientLlm.Services: the fixed request options (model name, `tool_choice`, temperature) are not modelled. The chat oracle stands for that configured endpoint. `str(result)` of a tool result is the text the `callTool` oracle returns.
- `access_mcp_tools` and `access_mcp_echo` are not modelled: they are an interactive console loop and a single demonstration call.
- `tls-demo`, certificate forging, `main.py`, `main_ssl.py`, `fastmcp_proxy.py` and `proxy_client.py` are not part of this model.

In four places the code does something other than what a reader of its comments and interfaces would expect, and the model follows the code:

- A caller-supplied `_auth` is overwritten, not rejected with a bad-request error (`Proxy.CallerAuthOverwritten`).
- A certificate without its key, or a key without its certificate, is silently ignored. It does not raise a configuration error.
- On success, the guard drops a mutual-authentication output token instead of delivering it.
- The identity verifier and the token broker are stubs that cannot fail.

## Findings

| source | as written | input that shows it | evidently intended | confidence | as-written member | corrected member |
|---|---|---|---|---|---|---|
| kerb_middleware.py:15-18 | `headers` is bound only when the step returns an output token, but the 401 for an incomplete context always reads it | an `Authorization: Negotiate YQ==` request whose step returns no token and an incomplete context | a 401 with the bare `Negotiate` challenge | high; not executed | `KerbMiddleware.UnboundHeadersOnSilentIncompleteStep` | `KerbMiddleware.CorrectedGuard` |
| id_graph.py:37-43 | the first access edge into the table that the search meets decides, even when a later path would allow the user | edges u->acct (assume), acct->t (access, allowed {}), acct->t (access, allowed {"u"}); `can_user_access("u", "t")` is False | True exactly when some path user --assume--> account --access--> table lists the user, as the function's documentation says | medium; not executed | `IdGraph.FirstAccessEdgeDecides` | `IdGraph.CorrectedAccessIff` |
