# MCP client backend core, modelled in Dafny

This project models the core of the MCP client backend:

- the Python service that connects to Model Context Protocol (MCP) tool servers;
- the registry that keeps those servers by name;
- its JSON-RPC 2.0 dispatcher;
- its session store;
- its message catalogue;
- its configuration loading;
- the request shaping of its LLM service;
- the relative-time helpers of the web front end.

Each core source file becomes one module:

| module | file | form |
|---|---|---|
| `McpClient` | `mcp_backend/app/services/mcp_client.py` | classes `Server` and `ClientManager`, each with state; the caches are rebuilt by loops |
| `McpSdk` | the MCP Python SDK as `mcp_client.py` calls it | an oracle class `Remote` |
| `JsonRpc` | `mcp_backend/app/api/jsonrpc.py` | pure request handling, plus a `Dispatcher` class holding the method registry |
| `Sessions` | `mcp_backend/app/services/session_service.py` | `Session` and `SessionService` classes; record rules as functions |
| `I18n` | `mcp_backend/app/i18n/__init__.py` | a `Catalog` class for the module globals; the lookup as functions |
| `Config` | `mcp_backend/app/core/config.py` | a `Settings` class whose loaders rebuild its lists in loops |
| `ServerConfigModel` | `mcp_backend/app/models/mcp_server_config.py` | pure validation |
| `ProviderConfigModel` | `mcp_backend/app/models/llm_provider_config.py` | pure validation |
| `LlmService` | `mcp_backend/app/services/llm_service.py` | `Service`, `ServiceManager` and `ProviderManager` classes; formatting loops as methods |
| `DateFormat` | `mcp_frontend/src/utils/date.ts` | pure functions and lemmas |

`Base`, `Text` and `Json` are shared helpers:

- Python exceptions are `Error(kind, message)` values inside a `Result`.
- Some string methods are modelled: `startswith`, `in`, `split`, `join`, `lower`, `str(int)`.
- JSON values keep their dict fields in insertion order, as a Python dict does. The helpers cover `d.get`, `d[k] = v`, `del`, `{**a, **b}`, truthiness, `str`, `repr` and `json.dumps`.

## How the environment is modelled

- **The MCP session** is the class `McpSdk.Remote`. It keeps one `log` of every request the client sends. The reply to a request is given by a fixed script, indexed by the request's position in the log.
  - Quantifying over scripts covers every behaviour of a server.
  - Counting requests in the log states "no remote call", "at most one retry" and "each server is closed once".
- **Session files** are a map from session id to the stored JSON. A file that `json.load` rejects is `Corrupt`. `_save_session` puts the record in the map.
- **Other inputs.** The clock (`int(time.time())`), `uuid4()`, importing a language module, and reading a configuration file are all parameters.
- **Start-up order in `I18n`.** The `Catalog` constructor leaves nothing selected. The call to `set_language(DEFAULT_LANGUAGE)` that the module makes on import is `SetLanguage`.

Notes on what `mcp_client.py` does, which the model keeps:

- A server is connected exactly when it holds a session. There is no per-server connect lock and no "connecting" state.
- Only tools and resources are cached per server. `list_prompts` asks the server every time.
- The manager retries a tool call or a resource read only when the error text contains "未初始化" or "连接已断开". It then cleans the server up, initialises it again and makes one more attempt. Any other failure is raised at once.
- `Server.execute_tool` refreshes an empty tool cache before it checks the tool name. So an unknown tool name never calls the tool, but it can cost one `list_tools` request.

## Model

| member | source | states |
|---|---|---|
| `McpClient.ToolsFromListed` | mcp_backend/app/services/mcp_client.py:226-235 | a tool is cached exactly when some "tools" field of the `list_tools` reply lists it |
| `McpClient.ListsToolLast` | mcp_backend/app/services/mcp_client.py:226-235 | a tool is listed exactly when the earlier fields list it or the last field is "tools" and lists it |
| `McpClient.ToolsFromAppend` | mcp_backend/app/services/mcp_client.py:226-235 | listing the fields of a reply one after another gives the tools of each field in field order |
| `McpClient.ResourcesFromCurrentShape` | mcp_backend/app/services/mcp_client.py:256-265 | the current reply shape caches every resource; a missing name shows as 'Unknown', and a present uri is kept |
| `McpClient.ResourcesFrom` | mcp_backend/app/services/mcp_client.py:256-277 | a failed listing or an unknown reply shape caches nothing; the current shape gives one entry per resource |
| `McpClient.TupleResourcesTagged` | mcp_backend/app/services/mcp_client.py:266-277 | in the older tuple shape, a resource is cached exactly when some "resources"-tagged tuple lists it; other tuples add nothing |
| `McpClient.TupleResourcesAppend` | mcp_backend/app/services/mcp_client.py:266-277 | the tuples are scanned in order: the resources of a prefix come first |
| `McpClient.ListsResourceLast` | mcp_backend/app/services/mcp_client.py:266-277 | a resource is listed exactly when the earlier tuples list it or the last tuple is tagged "resources" and lists it |
| `McpClient.DictPromptsAllOrNothing` | mcp_backend/app/services/mcp_client.py:347-375 | one non-dict prompt in a dict-shaped reply makes the whole list empty, not just the later entries |
| `McpClient.PromptsFrom` | mcp_backend/app/services/mcp_client.py:338-375 | a failed listing or an unknown reply shape gives []; an SDK-shaped reply gives one entry per prompt |
| `McpClient.PromptsFromSdkShape` | mcp_backend/app/services/mcp_client.py:338-346 | each SDK prompt gives its name, or "Unknown", and its description, or "" |
| `McpClient.PromptsFromDictShape` | mcp_backend/app/services/mcp_client.py:347-355 | when every item is a dict, each gives its "name" (default "Unknown") and "description" (default "") |
| `McpClient.PromptsFromFailures` | mcp_backend/app/services/mcp_client.py:315-375 | a failed request, an unknown shape, or a dict reply without a "prompts" list gives [] |
| `McpClient.TextsNonEmpty` | mcp_backend/app/services/mcp_client.py:431-434 | only non-empty texts of a tool result are collected, at most one per content item |
| `McpClient.PublicAttrs` | mcp_backend/app/services/mcp_client.py:442 | the dict built from an object has no more fields than the object has attributes |
| `McpClient.PublicAttrsLookup` | mcp_backend/app/services/mcp_client.py:442 | that dict holds exactly the attributes not starting with "_", with their values |
| `McpClient.ContentTextsRecoverable` | mcp_backend/app/services/mcp_client.py:430-437 | newline-free texts joined by `execute_tool` split back into the same texts |
| `McpClient.NormalisedShapes` | mcp_backend/app/services/mcp_client.py:425-443 | a result with texts becomes their newline join; one without texts stays the object; another object becomes its public attributes; a plain value is kept |
| `McpClient.ListingFailure` | mcp_backend/app/services/mcp_client.py:474-480 | RuntimeError and ValueError pass through unchanged; anything else surfaces as one of those two |
| `McpClient.ToolCallOutcome` | mcp_backend/app/services/mcp_client.py:401-472 | an unlisted tool gives "工具未找到"; a failed call gives "工具 … 执行失败"; success means the tool was listed, the call succeeded and the result is normalised |
| `McpClient.SseUrl` | mcp_backend/app/services/mcp_client.py:139-146 | the normalised URL always has an http:// or https:// scheme and a query that carries timeout=10000 |
| `McpClient.SseUrlNormalised` | mcp_backend/app/services/mcp_client.py:139-146 | a URL without a scheme gets "http://" in front; a URL with one keeps it; "&timeout=10000" is added exactly when the URL already has a "?", and "?timeout=10000" otherwise |
| `McpClient.TargetOf` | mcp_backend/app/services/mcp_client.py:76-103 | the type defaults to stdio; only stdio and sse connect; an sse target's URL is the normalised "url" value |
| `McpClient.UnsupportedTypeRefused` | mcp_backend/app/services/mcp_client.py:102-103 | any other type is refused with "不支持的连接类型: " and the type |
| `McpClient.PhaseError` | mcp_backend/app/services/mcp_client.py:152-214 | over stdio the SDK's error passes through; over SSE each step raises a RuntimeError that names the step |
| `McpClient.SseOpenFailureNamesUrl` | mcp_backend/app/services/mcp_client.py:159-166 | a timed-out or refused SSE connection names the URL it tried |
| `McpClient.HandshakeOutcome` | mcp_backend/app/services/mcp_client.py:116-214 | a session opens exactly when all three steps succeed; the first failing step decides the error |
| `McpClient.AttemptsAppend` | mcp_backend/app/services/mcp_client.py:697-719 | counting tool calls and resource reads over a log adds up across concatenation |
| `McpClient.AttemptsSplit` | mcp_backend/app/services/mcp_client.py:697-719 | counting over adjacent stretches of one log adds up |
| `McpClient.AttemptsSingle` | mcp_backend/app/services/mcp_client.py:697-719 | one request counts once exactly when it is a tool call or a resource read |
| `McpClient.HousekeepingHasNoAttempts` | mcp_backend/app/services/mcp_client.py:70-114 | connecting, listing and cleaning up never call a tool or read a resource |
| `McpClient.HousekeepingJoin` | mcp_backend/app/services/mcp_client.py:70-114 | two adjacent stretches of requests that call no tool and read no resource join into one such stretch |
| `McpClient.ToolRequestsAccounting` | mcp_backend/app/services/mcp_client.py:401-416 | the requests of one `execute_tool` hold at most one tool call, of this tool only; when the tool is called, that call is the last request, after at most one `list_tools` refresh |
| `McpClient.FindTool` | mcp_backend/app/services/mcp_client.py:403 | finds nothing exactly when no tool has the name; otherwise finds the first tool with that name |
| `McpClient.CollectTexts` | mcp_backend/app/services/mcp_client.py:431-434 | the loop collects exactly the non-empty texts, in order |
| `McpClient.Server.constructor` | mcp_backend/app/services/mcp_client.py:60-68 | a new server has no session, an empty stack and empty caches |
| `McpClient.Server.Cleanup` | mcp_backend/app/services/mcp_client.py:482-519 | cleanup drops the session, closes every context (one close request), and empties both caches |
| `McpClient.Server.CacheTools` | mcp_backend/app/services/mcp_client.py:216-241 | no session raises "服务器未初始化"; a failed request raises and keeps the cache; otherwise the cache is rebuilt from the reply |
| `McpClient.Server.CacheResources` | mcp_backend/app/services/mcp_client.py:243-296 | no session raises; otherwise the cache is rebuilt, and a failed request leaves it empty without raising |
| `McpClient.Server.AppendResources` | mcp_backend/app/services/mcp_client.py:258-264 | the loop appends one entry per resource of the current reply shape, in order, and changes nothing else |
| `McpClient.Server.AppendTuples` | mcp_backend/app/services/mcp_client.py:268-277 | the loop appends the resources of the "resources"-tagged tuples, in order, and changes nothing else |
| `McpClient.Server.ListTools` | mcp_backend/app/services/mcp_client.py:298-302 | a non-empty cache is returned with no request; otherwise one `list_tools` refreshes it, and a failed refresh raises and keeps the cache |
| `McpClient.Server.ListResources` | mcp_backend/app/services/mcp_client.py:304-313 | returns the cache, refreshing it when it is empty; a refresh that raises gives [] |
| `McpClient.Server.ListPrompts` | mcp_backend/app/services/mcp_client.py:315-375 | never raises and never caches; no session, or any failure, gives [] |
| `McpClient.Server.CollectSdkPrompts` | mcp_backend/app/services/mcp_client.py:338-346 | the loop over an SDK-shaped reply gives one entry per prompt, in order |
| `McpClient.Server.CollectDictPrompts` | mcp_backend/app/services/mcp_client.py:347-355 | the loop over a dict-shaped reply gives one entry per prompt when every item is a dict, and [] when one is not |
| `McpClient.Server.ExecuteTool` | mcp_backend/app/services/mcp_client.py:377-480 | with no session, raises "未初始化或连接已断开" with no request; otherwise the requests are the optional refresh and at most one call, of this tool and only when it is listed; the tool cache is refilled only by a successful refresh of an empty cache; success is the normalised reply of that call |
| `McpClient.Server.RunTool` | mcp_backend/app/services/mcp_client.py:392-472 | with no session, raises "未初始化或连接已断开" and sends nothing; otherwise the outcome follows the listed tools and the reply of the call, and the tool cache is refilled only by a successful refresh of an empty cache |
| `McpClient.Server.Handshake` | mcp_backend/app/services/mcp_client.py:116-214 | opens the transport, creates and initialises the session; on success the session and two contexts are recorded |
| `McpClient.Server.StartSession` | mcp_backend/app/services/mcp_client.py:116-210 | creates and initialises the session over an open transport; on success the session is recorded with one more context; the caches stay; no tool call or read |
| `McpClient.Server.Initialize` | mcp_backend/app/services/mcp_client.py:70-114 | on success both caches are filled from the replies; on any failure the server is cleaned up and the error re-raised; never calls a tool |
| `McpClient.Server.Connect` | mcp_backend/app/services/mcp_client.py:76-109 | a config with no usable connection type raises with no request; otherwise the first failing handshake step, or a failed tool listing, decides the error; on success both caches are filled from the replies |
| `McpClient.Server.ConnectTo` | mcp_backend/app/services/mcp_client.py:79-109 | the same for a chosen stdio or SSE target: exactly five requests on success, and a session with its two contexts |
| `McpClient.DistinctCons` | mcp_backend/app/services/mcp_client.py:524 | a key list stays duplicate-free when its new head is not already in it |
| `McpClient.Without` | mcp_backend/app/services/mcp_client.py:786 | `del` keeps the order of the other keys and removes only that key |
| `McpClient.ContentOf` | mcp_backend/app/services/mcp_client.py:620-630 | no contents, or empty contents, read as ("", "text/plain") |
| `McpClient.ContentOfDefaults` | mcp_backend/app/services/mcp_client.py:620-630 | text wins over a blob; a missing MIME type defaults to text/plain or application/octet-stream; only the first content counts |
| `McpClient.Preflight` | mcp_backend/app/services/mcp_client.py:744-766 | an accepted config has type stdio or sse, and a missing type becomes stdio |
| `McpClient.PreflightRefuses` | mcp_backend/app/services/mcp_client.py:744-779 | `connect_to_server` refuses a config exactly when its defaulted type is stdio without "command", sse without a string "url", or anything else |
| `McpClient.PreflightAddsOnlyType` | mcp_backend/app/services/mcp_client.py:746-747 | defaulting the type changes no other key |
| `McpClient.ClientManager.constructor` | mcp_backend/app/services/mcp_client.py:523-524 | the registry starts empty |
| `McpClient.StartServer` | mcp_backend/app/services/mcp_client.py:531-532 | builds a server with the given name and config and initialises it; it succeeds exactly when its scripted initialisation connects, and then holds a session after five requests with the tool cache filled from the scripted listing; a failure leaves no session; no tool call or read |
| `McpClient.ClientManager.CleanupEntry` | mcp_backend/app/services/mcp_client.py:528-529 | a registered server is cleaned up with one close request; an unknown name sends nothing |
| `McpClient.ClientManager.Register` | mcp_backend/app/services/mcp_client.py:533 | the name now maps to the server; a new name goes last in key order, a known one keeps its place |
| `McpClient.ClientManager.AddServer` | mcp_backend/app/services/mcp_client.py:526-533 | an existing entry is cleaned up first, with one close request; the call succeeds exactly when the new server's scripted initialisation, which starts after that request, connects; only then is the server stored; a failure leaves the map as it was |
| `McpClient.ClientManager.GetServer` | mcp_backend/app/services/mcp_client.py:535-537 | finds something exactly when the name is registered, and then finds the server of that name |
| `McpClient.ClientManager.ListServers` | mcp_backend/app/services/mcp_client.py:721-723 | lists every registered name exactly once |
| `McpClient.ClientManager.ConnectedAmong` | mcp_backend/app/services/mcp_client.py:727 | keeps exactly the names whose server holds a session |
| `McpClient.ClientManager.ListConnectedServers` | mcp_backend/app/services/mcp_client.py:725-727 | a name is listed exactly when it is registered and its server holds a session |
| `McpClient.ClientManager.IsServerConnected` | mcp_backend/app/services/mcp_client.py:729-732 | agrees with `list_connected_servers` |
| `McpClient.ClientManager.ListTools` | mcp_backend/app/services/mcp_client.py:539-544 | an unknown server raises "服务器不存在"; otherwise gives the server's cached or refreshed tools |
| `McpClient.ClientManager.GetServerTools` | mcp_backend/app/services/mcp_client.py:546-552 | the same list, with every failure turned into [] |
| `McpClient.ClientManager.ListResources` | mcp_backend/app/services/mcp_client.py:554-559 | an unknown server raises; otherwise gives the server's cached or refreshed resources |
| `McpClient.ClientManager.GetServerResources` | mcp_backend/app/services/mcp_client.py:561-567 | an unknown server, and an empty cache without a session, give [] with no request; a non-empty cache is returned; otherwise the refreshed list, [] on failure |
| `McpClient.ClientManager.ListPrompts` | mcp_backend/app/services/mcp_client.py:569-574 | an unknown server raises; otherwise gives the server's prompt list |
| `McpClient.ClientManager.GetServerPrompts` | mcp_backend/app/services/mcp_client.py:576-582 | the same list, with every failure turned into [] |
| `McpClient.ClientManager.EnsureConnected` | mcp_backend/app/services/mcp_client.py:685-693 | a connected server is left alone, its tool cache kept; an unconnected one succeeds exactly when its scripted initialisation connects, which adds the five requests of `initialize` and refills the tool cache from the scripted listing; neither path calls a tool or reads a resource |
| `McpClient.ClientManager.Reconnect` | mcp_backend/app/services/mcp_client.py:709-711 | cleans up and initialises again; it succeeds exactly when the handshake and the tool listing after the close succeed, and then refills the tool cache; no tool call or read |
| `McpClient.ClientManager.RetryRead` | mcp_backend/app/services/mcp_client.py:636-660 | after a successful reconnect, exactly one more read follows it and the result is that read's content, or "重试读取资源失败" with its error; a failed reconnect reads nothing and fails |
| `McpClient.ClientManager.FirstRead` | mcp_backend/app/services/mcp_client.py:604-618 | no read happens exactly when the server is unconnected and its scripted initialisation does not connect, and then it raises "重新初始化服务器 … 失败"; otherwise exactly one read of this URI, as the last request, at the next position of a live session or right after the five requests of `initialize`, and its scripted reply is the result |
| `McpClient.ClientManager.ReadFrom` | mcp_backend/app/services/mcp_client.py:604-662 | the first read happens exactly when the server is live or its scripted initialisation connects, at the position `FirstRead` names; at most two reads; a first read that succeeds is the answer; a failure not signalling a lost connection raises at once; a lost connection followed by a successful reconnect makes exactly two reads and answers with the second one's outcome |
| `McpClient.ClientManager.ReadAgain` | mcp_backend/app/services/mcp_client.py:636-660 | after a first read that signalled a lost connection: a successful reconnect leads to exactly one more read, two in all, whose outcome is the answer; a failed one reads nothing more and raises "重试读取资源失败" |
| `McpClient.ClientManager.ReadResource` | mcp_backend/app/services/mcp_client.py:584-662 | an unknown server raises with no request; otherwise as `ReadFrom`: no read exactly when the server is unconnected and does not connect, else a first read at the scripted position, and a second one when the first signals a lost connection and the reconnect succeeds, which then decides the answer |
| `McpClient.NoSessionSignalsDisconnect` | mcp_backend/app/services/mcp_client.py:392-396 | the error `execute_tool` raises without a session, and the one a tool-cache refresh raises, both contain the text that makes the manager reconnect and retry |
| `McpClient.ClientManager.CallOnce` | mcp_backend/app/services/mcp_client.py:697-700 | one attempt makes at most one tool call, and only of this tool; on a live session its outcome is the scripted listing and call, and it sends exactly a refresh when the cache is empty plus the call when the tool is listed |
| `McpClient.ClientManager.RetryTool` | mcp_backend/app/services/mcp_client.py:706-717 | after a successful reconnect, the outcome is that of calling the tool on the refilled (or refreshed) cache, exactly one call when the tool is listed, and "重试执行工具失败" wraps a failure; a failed reconnect calls nothing and fails |
| `McpClient.ClientManager.RetryCall` | mcp_backend/app/services/mcp_client.py:713-717 | on the server just reconnected, the answer is the call's outcome against the refilled cache (refreshed when empty), with exactly one call when the tool is listed, and "重试执行工具失败" wraps a failure |
| `McpClient.ClientManager.FirstTool` | mcp_backend/app/services/mcp_client.py:685-700 | nothing is called exactly when the server is unconnected and its scripted initialisation does not connect; otherwise the outcome is `execute_tool`'s on the scripted remote: the listing is the cache or a refresh, and the call reply is read at the next position of a live session, or after the five requests of `initialize` and the listing they cached; it ends after exactly `FirstLen` requests: the five of `initialize` when the server was not live, a refresh when the cache in use is empty, and the call when the tool is listed |
| `McpClient.ClientManager.CallConnected` | mcp_backend/app/services/mcp_client.py:696-700 | the call of the first attempt, once connected: its outcome is `FirstToolOutcome` and it sends exactly `FirstLen` requests in all, counting those of `initialize` |
| `McpClient.ClientManager.ToolFrom` | mcp_backend/app/services/mcp_client.py:685-719 | the first attempt is absent exactly when the server is unconnected and does not connect, and is otherwise `FirstTool`'s scripted outcome, ending at a fixed position `mid` after its `FirstLen` requests; the reconnect of the retry starts right after `mid`; at most two calls; a first call that succeeds is the answer; a failure not signalling a lost connection raises at once; a lost connection followed by a successful reconnect gives the retry's outcome, with exactly one more call when the tool is listed |
| `McpClient.ClientManager.ToolAgain` | mcp_backend/app/services/mcp_client.py:706-717 | after a first call that signalled a lost connection: at most two calls in all; a successful reconnect gives the retry's outcome; a failed one calls nothing more and raises "重试执行工具失败" |
| `McpClient.ClientManager.ExecuteTool` | mcp_backend/app/services/mcp_client.py:664-719 | an unknown server raises with no request; otherwise as `ToolFrom`: the first attempt is pinned to the scripted listing and call and to the position where it ends, or absent exactly when initialisation does not connect, and a lost connection and a successful reconnect lead to the second call, whose reply decides the answer |
| `McpClient.ClientManager.DisconnectFromServer` | mcp_backend/app/services/mcp_client.py:781-788 | True exactly when the name was registered; the server is cleaned up and its entry removed |
| `McpClient.ClientManager.DisconnectAll` | mcp_backend/app/services/mcp_client.py:790-794 | every server is cleaned up, in key order, and the map is left empty |
| `McpClient.ClientManager.CleanupAll` | mcp_backend/app/services/mcp_client.py:790-793 | every server is cleaned up, with one close per server, in key order |
| `McpClient.ClientManager.ConnectToServer` | mcp_backend/app/services/mcp_client.py:734-779 | False with nothing changed on a bad config; otherwise True exactly when the scripted initialisation of the completed config connects, starting after the one close request of an existing entry, and then the name is connected with that config; other entries stay; no tool call or read |
| `McpClient.ClientManager.ReplaceServer` | mcp_backend/app/services/mcp_client.py:771-776 | an existing entry is disconnected and dropped, with one close request; True exactly when the following scripted initialisation connects, and then the name is connected with this config, last in key order; False leaves no entry; other entries stay; no tool call or read |
| `JsonRpc.Invalidity` | mcp_backend/app/api/jsonrpc.py:99-106 | a dict request passes exactly when "jsonrpc" is "2.0" and "method" is present |
| `JsonRpc.Success` | mcp_backend/app/api/jsonrpc.py:121-125 | a success response is exactly {jsonrpc: "2.0", result, id} |
| `JsonRpc.ErrorObject` | mcp_backend/app/api/jsonrpc.py:131-140 | the error object holds code and message, and "data" exactly when it is not None |
| `JsonRpc.Failure` | mcp_backend/app/api/jsonrpc.py:129-136 | an error response is exactly {jsonrpc: "2.0", error, id} |
| `JsonRpc.InvalidRequestAnswered` | mcp_backend/app/api/jsonrpc.py:95-106 | a dict request failing validation is answered with -32600 if it has an "id" key, and not at all otherwise |
| `JsonRpc.AnsweredWithId` | mcp_backend/app/api/jsonrpc.py:117-160 | a request whose id is not None is always answered, with that id |
| `JsonRpc.ErrorCodes` | mcp_backend/app/api/jsonrpc.py:118-160 | -32601 for an unregistered method, -32602 for a handler TypeError, -32000 for any other exception; otherwise a success response |
| `JsonRpc.ReplyCodes` | mcp_backend/app/api/jsonrpc.py:117-160 | each outcome of a named method gives its response: -32601, -32602 with the TypeError text, -32000 with the translated server error, or the result |
| `JsonRpc.ReplyWithId` | mcp_backend/app/api/jsonrpc.py:117-158 | a request with a non-null id is answered with a "2.0" response carrying that id |
| `JsonRpc.NotificationsUnanswered` | mcp_backend/app/api/jsonrpc.py:112-160 | without an "id" key nothing is ever answered; with id None, only a failure is answered |
| `JsonRpc.EmptyBatchRaises` | mcp_backend/app/api/jsonrpc.py:90-91 | an empty batch raises InvalidRequest to the caller instead of answering |
| `JsonRpc.DictBatch` | mcp_backend/app/api/jsonrpc.py:162-173 | a batch of dict requests never raises, and answers at most once per request |
| `JsonRpc.DictBatchAnswersEach` | mcp_backend/app/api/jsonrpc.py:162-173 | a batch of dict requests with non-null ids has one answer per request, in order |
| `JsonRpc.ResponsesAll` | mcp_backend/app/api/jsonrpc.py:167-171 | when each of the first n requests is answered, the batch gathers exactly those answers, in order |
| `JsonRpc.AllNotificationsBatch` | mcp_backend/app/api/jsonrpc.py:173 | a batch of notifications answers None |
| `JsonRpc.StoppedStays` | mcp_backend/app/api/jsonrpc.py:168-171 | an exception that escapes one request ends the whole batch |
| `JsonRpc.Single` | mcp_backend/app/api/jsonrpc.py:87-160 | every answer is a JSON-RPC 2.0 response; a dict without an "id" key is never answered |
| `JsonRpc.Reply` | mcp_backend/app/api/jsonrpc.py:117-160 | always an answer; a notification with id None is not answered; a response is a "2.0" response carrying the request's id |
| `JsonRpc.Handle` | mcp_backend/app/api/jsonrpc.py:87-173 | a single request is answered with a "2.0" response; a batch answer is a non-empty list; an empty batch raises to the caller |
| `JsonRpc.Responses` | mcp_backend/app/api/jsonrpc.py:167-171 | the first n requests of a batch gather at most n responses |
| `JsonRpc.Dispatcher.constructor` | mcp_backend/app/api/jsonrpc.py:73-74 | the registry starts empty |
| `JsonRpc.Dispatcher.RegisterMethod` | mcp_backend/app/api/jsonrpc.py:76-78 | registering a name again replaces its handler; other names keep theirs |
| `JsonRpc.Dispatcher.Method` | mcp_backend/app/api/jsonrpc.py:80-85 | the decorator registers the handler and returns it unchanged |
| `JsonRpc.Dispatcher.HandleRequest` | mcp_backend/app/api/jsonrpc.py:87-160 | the method computes `Handle` over the current registry |
| `JsonRpc.Dispatcher.HandleBatchRequest` | mcp_backend/app/api/jsonrpc.py:162-173 | the batch loop computes `Batch` over the current registry |
| `Sessions.ToLlmMessage` | mcp_backend/app/services/session_service.py:33-71 | only a tool message can raise, and then with the AttributeError of `.get` on its content |
| `Sessions.MessageDictFields` | mcp_backend/app/services/session_service.py:24-31 | a message dict holds the message's id, role, content and timestamp |
| `Sessions.ToolMessageConverted` | mcp_backend/app/services/session_service.py:35-44 | a tool message converts exactly when its content is a dict, into role, tool_call_id ("unknown_call" by default) and text |
| `Sessions.AssistantCallsConverted` | mcp_backend/app/services/session_service.py:45-60 | an assistant message with tool_calls keeps its text, or None when the text is empty, and carries the calls exactly when they are truthy |
| `Sessions.OtherMessageConverted` | mcp_backend/app/services/session_service.py:61-71 | any other message converts to its role and the "text" field of its content, or the content itself |
| `Sessions.ConvertedStep` | mcp_backend/app/services/session_service.py:98-110 | a message whose conversion raises is skipped and the list so far is kept; one that converts adds its entry at the end |
| `Sessions.ConvertedAll` | mcp_backend/app/services/session_service.py:98-110 | when no conversion raises, every message gives its entry, in order |
| `Sessions.KeepingAll` | mcp_backend/app/services/session_service.py:98-110 | when every conversion succeeds, keeping the converted messages gives each one's value, in order |
| `Sessions.Session.constructor` | mcp_backend/app/services/session_service.py:76-85 | a missing or empty id is replaced by a fresh one; the session starts with no messages and no settings |
| `Sessions.Session.AddMessage` | mcp_backend/app/services/session_service.py:87-92 | the new message goes last and nothing before it moves |
| `Sessions.Session.GetLlmMessages` | mcp_backend/app/services/session_service.py:98-110 | the loop keeps every message that converts, in order |
| `Sessions.Session.ClearMessages` | mcp_backend/app/services/session_service.py:112-115 | the messages are emptied and the update time set |
| `Sessions.Session.SetLlmInfo` | mcp_backend/app/services/session_service.py:117-121 | sets the provider and the model, and the update time |
| `Sessions.Session.SetMcpServer` | mcp_backend/app/services/session_service.py:123-126 | sets the server id and the update time |
| `Sessions.Session.ToDict` | mcp_backend/app/services/session_service.py:128-140 | exactly the nine keys, in order, holding the id, the title, the message dicts, both times, the metadata, and each optional setting or null when it is None |
| `Sessions.CreatedTitle` | mcp_backend/app/services/session_service.py:201-204 | a new session has its id, and its title equals its name |
| `Sessions.CreatedTimes` | mcp_backend/app/services/session_service.py:199-207 | created_at, updated_at and last_activity are the same moment |
| `Sessions.CreatedEmpty` | mcp_backend/app/services/session_service.py:208-211 | a new session has the given settings, no messages and no timeout flag |
| `Sessions.CompletedLookup` | mcp_backend/app/services/session_service.py:231-241 | `get_session` keeps every stored field and adds only the missing basic ones |
| `Sessions.CheckTimeout` | mcp_backend/app/services/session_service.py:435-471 | sets "timed_out" exactly when more than the timeout has passed since last activity, and drops it otherwise; a missing last_activity is set to now, and timed_out left as it was |
| `Sessions.CheckTimeoutKeeps` | mcp_backend/app/services/session_service.py:435-471 | the check touches no field but last_activity and timed_out |
| `Sessions.Fetch` | mcp_backend/app/services/session_service.py:219-251 | a missing file gives {}; invalid JSON gives the "无效会话" record; a dict file is completed and checked |
| `Sessions.FetchedRecord` | mcp_backend/app/services/session_service.py:219-251 | a non-empty fetched record has every basic field, and is flagged exactly when it has timed out |
| `Sessions.UpdatedLookup` | mcp_backend/app/services/session_service.py:273-295 | only supplied non-None settable fields change; "name" wins over "title", and both get the same value; both timestamps become now |
| `Sessions.RenamedLookup` | mcp_backend/app/services/session_service.py:272-274 | a non-None "name" becomes "title"; the new title is given exactly when one is; other keys stay |
| `Sessions.TitledLookup` | mcp_backend/app/services/session_service.py:277-280 | a given title sets both "title" and "name"; every other field keeps its stored value |
| `Sessions.Updated` | mcp_backend/app/services/session_service.py:263-300 | a missing or timed-out session is refused with the source's ValueError texts |
| `Sessions.Activated` | mcp_backend/app/services/session_service.py:302-320 | a missing session is refused; otherwise the activity is recorded |
| `Sessions.ActivatedLookup` | mcp_backend/app/services/session_service.py:309-314 | last_activity becomes now and the timeout flag is removed; nothing else changes |
| `Sessions.NewEntryFields` | mcp_backend/app/services/session_service.py:356-373 | non-dict user content is wrapped as a text part; other content is kept; an empty tool_call_id is left out |
| `Sessions.Appended` | mcp_backend/app/services/session_service.py:347-390 | a missing or timed-out session is refused; a message list that is not a list raises |
| `Sessions.AppendedOneMore` | mcp_backend/app/services/session_service.py:375-385 | exactly one message is added at the end; earlier messages and every other field stay |
| `Sessions.Cleared` | mcp_backend/app/services/session_service.py:392-415 | a missing or timed-out session is refused; otherwise the messages are empty, the timestamps set, and nothing else changes |
| `Sessions.MessagesOf` | mcp_backend/app/services/session_service.py:336-343 | a missing session is refused; otherwise gives its messages, [] when it has none |
| `Sessions.ToolCallIdOf` | mcp_backend/app/services/session_service.py:515-518 | tool_call_id or toolCallId, and "unknown_call" when both are falsy |
| `Sessions.LlmEntry` | mcp_backend/app/services/session_service.py:479-531 | only user, assistant and tool messages that are well formed give an entry |
| `Sessions.LlmEntryFields` | mcp_backend/app/services/session_service.py:484-524 | the keys and content of each role's entry; an assistant's tool calls, with content None when the content is empty |
| `Sessions.LlmMessages` | mcp_backend/app/services/session_service.py:475-531 | at most one entry per message |
| `Sessions.LlmMessagesAppend` | mcp_backend/app/services/session_service.py:479-531 | converting a concatenation converts each part, in order |
| `Sessions.SkippedLeavesNothing` | mcp_backend/app/services/session_service.py:484-531 | a message with another role, such as system, leaves no entry |
| `Sessions.LlmMessagesRoles` | mcp_backend/app/services/session_service.py:484-524 | every entry starts with role user, assistant or tool |
| `Sessions.LlmMessagesAll` | mcp_backend/app/services/session_service.py:479-531 | when every message converts, each gives its own entry, in order |
| `Sessions.SessionService.constructor` | mcp_backend/app/services/session_service.py:146-168 | the stored sessions are kept as they are |
| `Sessions.SessionService.Save` | mcp_backend/app/services/session_service.py:417-433 | the record is stored under its id |
| `Sessions.SessionService.CreateSession` | mcp_backend/app/services/session_service.py:192-217 | the new record is returned and stored under its fresh id |
| `Sessions.SessionService.CheckSessionTimeout` | mcp_backend/app/services/session_service.py:435-471 | the checked record, saved when its flag or last activity changed and it has an id |
| `Sessions.SessionService.GetSession` | mcp_backend/app/services/session_service.py:219-251 | returns `Fetch`'s record and leaves the files `Fetch` describes |
| `Sessions.SessionService.UpdateSession` | mcp_backend/app/services/session_service.py:253-300 | the updated record is saved only when the guards pass |
| `Sessions.SessionService.UpdateSessionActivity` | mcp_backend/app/services/session_service.py:302-320 | the activated record is saved only when the session exists |
| `Sessions.SessionService.DeleteSession` | mcp_backend/app/services/session_service.py:322-334 | True exactly when there was a file, which is then gone |
| `Sessions.SessionService.GetMessages` | mcp_backend/app/services/session_service.py:336-343 | the messages of the fetched record, or the missing-session error |
| `Sessions.SessionService.AddMessage` | mcp_backend/app/services/session_service.py:345-390 | the message is returned and the record saved only when the guards pass |
| `Sessions.SessionService.ClearMessages` | mcp_backend/app/services/session_service.py:392-415 | True and the cleared record saved only when the guards pass |
| `Sessions.SessionService.GetLlmMessages` | mcp_backend/app/services/session_service.py:475-531 | the loop computes `LlmMessages` of the input |
| `I18n.FormatPlain` | mcp_backend/app/i18n/__init__.py:95 | a template without braces formats to itself |
| `I18n.FormatPrefix` | mcp_backend/app/i18n/__init__.py:95 | brace-free text in front of a template is kept as it is |
| `I18n.FormatPlainHead` | mcp_backend/app/i18n/__init__.py:95 | a character other than a brace is copied, and formatting goes on after it |
| `I18n.FormatOnePlaceholder` | mcp_backend/app/i18n/__init__.py:93-98 | a supplied named placeholder is substituted; a missing one is a KeyError |
| `I18n.FormatField` | mcp_backend/app/i18n/__init__.py:95 | a leading named field followed by brace-free text is filled when supplied, and a KeyError otherwise |
| `I18n.Format` | mcp_backend/app/i18n/__init__.py:95 | a formatting failure is a ValueError or an IndexError; a missing name is reported as a KeyError for the caller to catch |
| `I18n.FieldValue` | mcp_backend/app/i18n/__init__.py:95 | a field fails only with a ValueError or an IndexError |
| `I18n.NamedFieldValue` | mcp_backend/app/i18n/__init__.py:95 | a named field gives its supplied value, or a KeyError with its name; "0a" is such a name, as CPython reads only all-digit fields as positional |
| `I18n.PositionalFieldRaises` | mcp_backend/app/i18n/__init__.py:95 | an all-digit field is positional, and with keyword arguments only it raises IndexError |
| `I18n.BraceInFieldRaises` | mcp_backend/app/i18n/__init__.py:95 | a "{" inside a field name raises ValueError "unexpected '{' in field name" |
| `I18n.BraceNameValue` | mcp_backend/app/i18n/__init__.py:95 | a field name holding "{" raises that ValueError |
| `I18n.FieldEnd` | mcp_backend/app/i18n/__init__.py:95 | the closing brace of a field is found at matching depth, or the end of the text |
| `I18n.FieldEndNested` | mcp_backend/app/i18n/__init__.py:95 | a field holding one nested {…} ends at the second "}" |
| `I18n.FieldEndInner` | mcp_backend/app/i18n/__init__.py:95 | a nested {…} at the start of a field is skipped as a unit |
| `I18n.FieldEndSkip` | mcp_backend/app/i18n/__init__.py:95 | brace-free text in front does not change where the field ends |
| `I18n.PrefixLen` | mcp_backend/app/i18n/__init__.py:95 | the length of the longest prefix free of the stop characters |
| `I18n.PrefixLenNone` | mcp_backend/app/i18n/__init__.py:95 | text without stop characters is its own longest such prefix |
| `I18n.Step` | mcp_backend/app/i18n/__init__.py:82-87 | in a dict, a part is missing exactly when it is not a key; otherwise the walk moves to its value |
| `I18n.Walk` | mcp_backend/app/i18n/__init__.py:81-87 | walking no parts stays put; walking into something other than a dict never finds a value; a walk only fails with a TypeError |
| `I18n.MessageFor` | mcp_backend/app/i18n/__init__.py:79-98 | a missing part gives the key back; a walk failure is a TypeError; every other failure is a ValueError or an IndexError |
| `I18n.WalkAppend` | mcp_backend/app/i18n/__init__.py:81-87 | walking a dotted key walks its parts one after another |
| `I18n.MissingPartGivesKey` | mcp_backend/app/i18n/__init__.py:82-85 | a segment missing from the dict reached so far gives the key back |
| `I18n.NonStringGivesKey` | mcp_backend/app/i18n/__init__.py:89-91 | reaching something other than a string gives the key back |
| `I18n.PlaceholderFilling` | mcp_backend/app/i18n/__init__.py:93-98 | a template whose placeholder was not supplied comes back unformatted; a supplied one is filled in |
| `I18n.PastStringRaises` | mcp_backend/app/i18n/__init__.py:82-87 | a key that runs past a string containing its next part raises TypeError instead of giving the key back |
| `I18n.Catalog.constructor` | mcp_backend/app/i18n/__init__.py:19-20 | no language selected and no messages loaded |
| `I18n.Catalog.GetLanguage` | mcp_backend/app/i18n/__init__.py:23-25 | "en-US" when no language has been set; otherwise the current one |
| `I18n.Catalog.SetLanguage` | mcp_backend/app/i18n/__init__.py:28-59 | an unknown code is refused and nothing changes; a loaded module sets the language and its table; a module without MESSAGES still switches the language but leaves the table; a failed non-default code falls back to the default once |
| `I18n.Catalog.GetMessage` | mcp_backend/app/i18n/__init__.py:62-98 | an empty table first tries the default language (switching to it when its module imports); the result is `MessageFor` over the table then loaded |
| `ServerConfigModel.RequiredStr` | mcp_backend/app/models/mcp_server_config.py:8-10 | a required field is accepted exactly when it is a string, and keeps its value |
| `ServerConfigModel.OptionalStr` | mcp_backend/app/models/mcp_server_config.py:11-13 | absent or null gives None; a string gives itself |
| `ServerConfigModel.Strings` | mcp_backend/app/models/mcp_server_config.py:12 | a list of strings keeps its items, in order |
| `ServerConfigModel.StringPairs` | mcp_backend/app/models/mcp_server_config.py:13 | one pair per dict field, holding that field's key and string value, in order |
| `ServerConfigModel.Validate` | mcp_backend/app/models/mcp_server_config.py:5-31 | an accepted record has a known type and the supplied name and type; the id is the supplied one or a fresh one |
| `ServerConfigModel.ValidateAccepts` | mcp_backend/app/models/mcp_server_config.py:5-31 | a record is accepted exactly when its fields have their declared types, its type is stdio or sse, and a supplied command (stdio) or url (sse) is a non-empty string; the accepted record holds those values |
| `ServerConfigModel.UnknownKindRejected` | mcp_backend/app/models/mcp_server_config.py:15-19 | a type other than stdio and sse is rejected |
| `ServerConfigModel.EmptyRequiredFieldRejected` | mcp_backend/app/models/mcp_server_config.py:21-31 | a supplied null or empty command (for stdio) or url (for sse) is rejected |
| `ServerConfigModel.StdioWithoutCommandAccepted` | mcp_backend/app/models/mcp_server_config.py:21-25 | the check never runs on a default: every stdio record without a command whose other fields are well typed is accepted, with command None |
| `ServerConfigModel.ToParameters` | mcp_backend/app/models/mcp_server_config.py:33-46 | stdio gives command, args (default []) and env; sse gives url and env; anything else gives {} |
| `ServerConfigModel.ValidatedParametersNonEmpty` | mcp_backend/app/models/mcp_server_config.py:33-46 | a record that passed validation never takes the {} branch |
| `ProviderConfigModel.Validate` | mcp_backend/app/models/llm_provider_config.py:4-17 | an accepted record has a listed vendor type and the supplied strings; apiBase defaults to None and models to [] |
| `ProviderConfigModel.ValidateAccepts` | mcp_backend/app/models/llm_provider_config.py:4-17 | a record is accepted exactly when name, type and apiKey are strings, the type is a listed vendor, apiBase is absent, null or a string, and models is absent or a list of strings; the accepted record holds those values |
| `ProviderConfigModel.UnknownVendorRejected` | mcp_backend/app/models/llm_provider_config.py:12-17 | a type outside the vendor list is rejected |
| `ProviderConfigModel.DefaultApiBaseByVendor` | mcp_backend/app/models/llm_provider_config.py:19-28 | OpenAI, Anthropic, OpenRouter, DeepSeek and Qwen each get their own https URL; any other type, "其他" included, gets "" |
| `Config.DictEntriesAppend` | mcp_backend/app/core/config.py:55-67 | entries are kept in file order: what is kept from a prefix comes first |
| `Config.DictEntriesBound` | mcp_backend/app/core/config.py:55-67 | at most one configuration per entry, each from some entry |
| `Config.DictEntryDefaults` | mcp_backend/app/core/config.py:58-63 | id and name default to the key and type to stdio; supplied fields, including id, win |
| `Config.DictEntry` | mcp_backend/app/core/config.py:55-67 | an entry gives a config only when its value is a dict, and then with a known type |
| `Config.DictEntries` | mcp_backend/app/core/config.py:55-67 | every kept configuration has a known type |
| `Config.ListItemDefaults` | mcp_backend/app/core/config.py:70-76 | a missing name becomes the id, or "未命名服务器"; a missing type becomes stdio |
| `Config.ListItemFieldsLookup` | mcp_backend/app/core/config.py:70-76 | the id is kept; a missing name becomes the id or "未命名服务器"; a missing type becomes stdio |
| `Config.ListItem` | mcp_backend/app/core/config.py:70-76 | an item gives a config only when it is a dict, with a known type, and an item without an id gets the fresh one |
| `Config.ListItems` | mcp_backend/app/core/config.py:70-78 | at most one configuration per item, each with a known type |
| `Config.ServersFrom` | mcp_backend/app/core/config.py:43-91 | a missing or unreadable file, or data that is neither a dict nor a list, gives []; every configuration has a known type |
| `Config.OpenRouterNormalised` | mcp_backend/app/core/config.py:104-131 | any letter case of "openrouter" becomes "OpenRouter": as a list item's type, and as the provider of a single-provider file |
| `Config.SingleProviderShape` | mcp_backend/app/core/config.py:110-117 | the name is "provider" or "default"; "model" counts only when "models" is present but not a list |
| `Config.SingleProvider` | mcp_backend/app/core/config.py:102-122 | a single-provider file gives at most one configuration, of a listed vendor type |
| `Config.ProviderItem` | mcp_backend/app/core/config.py:126-133 | an item gives a configuration only when it is a dict, and then of a listed vendor type |
| `Config.ProviderItems` | mcp_backend/app/core/config.py:123-134 | at most one configuration per item, each of a listed vendor type |
| `Config.ProvidersFrom` | mcp_backend/app/core/config.py:93-146 | a missing or unreadable file gives []; a dict file gives at most one configuration; every type is a listed vendor |
| `Config.Settings.constructor` | mcp_backend/app/core/config.py:31-32 | both lists start empty |
| `Config.Settings.LoadMcpServers` | mcp_backend/app/core/config.py:43-91 | the list is replaced by what the file gives; any other shape or failure gives []; the provider list is untouched |
| `Config.Settings.LoadDictEntries` | mcp_backend/app/core/config.py:55-67 | the loop keeps exactly the validating entries of the dict format, in order |
| `Config.Settings.LoadListItems` | mcp_backend/app/core/config.py:70-78 | the loop keeps exactly the validating items of the list format, in order |
| `Config.Settings.LoadLlmProviders` | mcp_backend/app/core/config.py:93-146 | the list is replaced by what the file gives; the server list is untouched |
| `LlmService.VendorNamed` | mcp_backend/app/services/llm_service.py:48-58 | a name selects an adapter exactly when its lower case is openai, openrouter, deepseek or qwen |
| `LlmService.LowerTwice` | mcp_backend/app/services/llm_service.py:48 | lower-casing twice is lower-casing once |
| `LlmService.VendorIgnoresCase` | mcp_backend/app/services/llm_service.py:48-58 | dispatch does not depend on letter case |
| `LlmService.ErrorReply` | mcp_backend/app/services/llm_service.py:58-63 | {"error": message} |
| `LlmService.NoModelsReply` | mcp_backend/app/services/llm_service.py:79-83 | {"error": message, "models": []} |
| `LlmService.PrefixedAssoc` | mcp_backend/app/services/llm_service.py:145-219 | appending step by step equals appending the whole output |
| `LlmService.PrefixedNothing` | mcp_backend/app/services/llm_service.py:145 | an empty accumulator adds nothing |
| `LlmService.PrefixedTextNothing` | mcp_backend/app/services/llm_service.py:742 | an empty description adds nothing |
| `LlmService.PrefixedTextAssoc` | mcp_backend/app/services/llm_service.py:742-755 | building the description piece by piece equals building it whole |
| `LlmService.Gather` | mcp_backend/app/services/llm_service.py:145-219 | at most one entry per message |
| `LlmService.GatherFails` | mcp_backend/app/services/llm_service.py:145-219 | a loop fails exactly when some message raises, and then with the first such error |
| `LlmService.Kept` | mcp_backend/app/services/llm_service.py:145-219 | the kept positions are in range |
| `LlmService.KeptIncreasing` | mcp_backend/app/services/llm_service.py:145-219 | the kept positions are strictly increasing |
| `LlmService.KeptAt` | mcp_backend/app/services/llm_service.py:145-219 | when no message raises, each position is kept exactly when its message gives an entry |
| `LlmService.KeptMembers` | mcp_backend/app/services/llm_service.py:145-219 | a position is kept exactly when its message gives an entry |
| `LlmService.GatherOrder` | mcp_backend/app/services/llm_service.py:145-219 | the k-th entry is the entry of the k-th kept message |
| `LlmService.MessageProblem` | mcp_backend/app/services/llm_service.py:40-45 | a message passes exactly when it is a dict with "role" and with "content" or "tool_calls" |
| `LlmService.FirstProblem` | mcp_backend/app/services/llm_service.py:39-45 | a message list passes exactly when every message does |
| `LlmService.StrParts` | mcp_backend/app/services/llm_service.py:175-178 | joining succeeds exactly when every part is a string; otherwise "sequence item N: expected str instance" |
| `LlmService.JoinTexts` | mcp_backend/app/services/llm_service.py:173-178 | a list content joins exactly when every "text" a dict item has is a string |
| `LlmService.OpenRouterCall` | mcp_backend/app/services/llm_service.py:200-213 | a tool call gets its id, or a generated "call_" id, plus type "function" and its name and arguments |
| `LlmService.OpenRouterCalls` | mcp_backend/app/services/llm_service.py:196-214 | at most one call per item; non-dict items are skipped |
| `LlmService.OpenRouterSkips` | mcp_backend/app/services/llm_service.py:146-190 | non-dict messages, unknown roles and tool messages without tool_call_id are skipped |
| `LlmService.OpenRouterKeeps` | mcp_backend/app/services/llm_service.py:180-219 | a kept message has its role, its normalised content, a tool message's id and an assistant's calls |
| `LlmService.OpenRouterEntry` | mcp_backend/app/services/llm_service.py:146-219 | a non-dict message is skipped; a kept entry is a dict and comes from a dict message with a role OpenRouter accepts |
| `LlmService.OpenRouterOrder` | mcp_backend/app/services/llm_service.py:145-219 | formatting keeps exactly the messages that are not skipped, in order |
| `LlmService.OpenRouterMessages` | mcp_backend/app/services/llm_service.py:145-219 | formatting succeeds exactly when no message raises, and keeps at most one entry per message |
| `LlmService.Subscript` | mcp_backend/app/services/llm_service.py:745 | `x[k]` succeeds exactly when a dict has the key; otherwise KeyError or TypeError |
| `LlmService.ToolHead` | mcp_backend/app/services/llm_service.py:745 | a tool's header line exists exactly when the tool has a name |
| `LlmService.NamelessToolRaises` | mcp_backend/app/services/llm_service.py:744-745 | one tool without a name makes the whole call answer "对话失败" |
| `LlmService.DescribeTools` | mcp_backend/app/services/llm_service.py:742-755 | no tools describe as ""; a description exists only when every tool has a name |
| `LlmService.ChatEntry` | mcp_backend/app/services/llm_service.py:822-866 | a message gives an entry exactly when it is a dict and does not raise |
| `LlmService.ChatEntryKinds` | mcp_backend/app/services/llm_service.py:832-866 | the four entry kinds; only a tool call lacking name or arguments raises |
| `LlmService.ToolCallEntry` | mcp_backend/app/services/llm_service.py:834-847 | a "tool_call" content raises exactly when the call lacks name or arguments; otherwise one assistant call with a fresh id and the arguments as JSON text |
| `LlmService.ToolResultEntry` | mcp_backend/app/services/llm_service.py:849-854 | a content with name and result becomes a tool message with the result's str and a fresh call id |
| `LlmService.ChatShape` | mcp_backend/app/services/llm_service.py:817-866 | one system message first, then exactly one entry per dict message, in order |
| `LlmService.ChatMessages` | mcp_backend/app/services/llm_service.py:734-866 | the messages are built only when every tool has a name |
| `LlmService.ChatEntriesKept` | mcp_backend/app/services/llm_service.py:822-825 | a history message is kept exactly when it is a dict |
| `LlmService.ChatEntriesOrder` | mcp_backend/app/services/llm_service.py:822-866 | the k-th entry is the entry of the k-th kept message, and every entry starts with its role |
| `LlmService.Service.constructor` | mcp_backend/app/services/llm_service.py:17-22 | the service keeps the name, key, base URL and models of its configuration |
| `LlmService.Service.GetCompletion` | mcp_backend/app/services/llm_service.py:24-63 | the validation loop and dispatch compute `CompletionFor` |
| `LlmService.Service.CheckMessages` | mcp_backend/app/services/llm_service.py:39-45 | the validation loop finds the first failing message's error, or none |
| `LlmService.Service.Dispatch` | mcp_backend/app/services/llm_service.py:47-58 | the vendor branch computes `Dispatched` |
| `LlmService.Dispatched` | mcp_backend/app/services/llm_service.py:47-58 | a request is sent exactly when the name selects an adapter and, for OpenRouter, formatting does not raise; it carries the vendor, the model and the messages, formatted for OpenRouter; a refusal is an "error" reply |
| `LlmService.Service.GetAvailableModels` | mcp_backend/app/services/llm_service.py:65-83 | a model-list query is made exactly when the name selects an adapter; otherwise the "不支持的LLM供应商" reply with models [] |
| `LlmService.Service.FormatOpenRouter` | mcp_backend/app/services/llm_service.py:145-219 | the loop computes the formatted messages |
| `LlmService.Service.FormatEntry` | mcp_backend/app/services/llm_service.py:146-219 | one iteration computes that message's outcome |
| `LlmService.Service.FormatCalls` | mcp_backend/app/services/llm_service.py:194-217 | the inner loop computes the message's tool calls |
| `LlmService.CallsStep` | mcp_backend/app/services/llm_service.py:196-214 | one iteration of the inner loop adds one call for a dict item and nothing for any other item |
| `LlmService.CompletionFor` | mcp_backend/app/services/llm_service.py:24-63 | never raises; no model and no configured models is an IndexError reply; a request is sent exactly when validation passes and the name selects an adapter; otherwise an "error" reply |
| `LlmService.ServiceManager.constructor` | mcp_backend/app/services/llm_service.py:427-428 | the registry starts empty |
| `LlmService.ServiceManager.AddProvider` | mcp_backend/app/services/llm_service.py:430-432 | a service of the same name is replaced by a new one |
| `LlmService.ServiceManager.GetProvider` | mcp_backend/app/services/llm_service.py:434-436 | finds a service exactly when the name is registered |
| `LlmService.ServiceManager.RemoveProvider` | mcp_backend/app/services/llm_service.py:438-441 | the name is gone; removing an absent name changes nothing |
| `LlmService.ServiceManager.GetProviderModels` | mcp_backend/app/services/llm_service.py:443-449 | an unknown name gives "供应商未找到" with models []; otherwise the service's own answer |
| `LlmService.ProviderManager.constructor` | mcp_backend/app/services/llm_service.py:714-715 | keeps the registry it is given |
| `LlmService.ProviderManager.ChatWithTools` | mcp_backend/app/services/llm_service.py:734-881 | an unknown provider gives "未找到LLM供应商"; a raising description or history gives "对话失败"; otherwise the formatted messages are handed on |
| `LlmService.ProviderManager.AppendHistory` | mcp_backend/app/services/llm_service.py:821-866 | the history loop appends the history entries |
| `LlmService.ProviderManager.DescribeAll` | mcp_backend/app/services/llm_service.py:742-755 | the tool loop computes the tool descriptions |
| `LlmService.ProviderManager.DescribeOne` | mcp_backend/app/services/llm_service.py:745-755 | one tool's description |
| `LlmService.ProviderManager.DescribeParams` | mcp_backend/app/services/llm_service.py:749-754 | the parameter lines, with "(必需)" for a required parameter |
| `DateFormat.PadZeroTwoDigits` | mcp_frontend/src/utils/date.ts:56-58 | below 100 (hours and minutes), two digits that read back as the number |
| `DateFormat.FormatTime` | mcp_frontend/src/utils/date.ts:47-49 | "HH:mm": five characters, a colon in the middle, both fields two digits reading back as hours and minutes |
| `DateFormat.JustNow` | mcp_frontend/src/utils/date.ts:78-87 | under a minute, the future included, is "刚刚" |
| `DateFormat.MinutesAgo` | mcp_frontend/src/utils/date.ts:89-93 | whole minutes, 1 to 59 |
| `DateFormat.HoursAgo` | mcp_frontend/src/utils/date.ts:95-99 | whole hours, 1 to 23 |
| `DateFormat.DaysAgo` | mcp_frontend/src/utils/date.ts:101-105 | whole days, 1 to 29 |
| `DateFormat.MonthsAgo` | mcp_frontend/src/utils/date.ts:107-111 | whole 30-day months, 1 to 11 |
| `DateFormat.YearsAgo` | mcp_frontend/src/utils/date.ts:113-115 | at twelve months or more, whole 360-day years, at least 1 |
| `DateFormat.Counts` | mcp_frontend/src/utils/date.ts:82-114 | the successive floor divisions equal the difference divided by each unit |
| `DateFormat.Passes` | mcp_frontend/src/utils/date.ts:81-115 | once a stage's threshold is passed, the result is the next unit's text for the staged count |
| `DateFormat.Bucket` | mcp_frontend/src/utils/date.ts:89-115 | a minute or more gives a count followed by one unit |
| `DateFormat.ExactlyOneUnit` | mcp_frontend/src/utils/date.ts:89-115 | a count followed by a unit reads as exactly that unit |
| `DateFormat.UnitFollowsDigits` | mcp_frontend/src/utils/date.ts:89-115 | digits followed by a unit end with that unit and no other |
| `DateFormat.OneUnit` | mcp_frontend/src/utils/date.ts:75-116 | every date gives "刚刚" or exactly one unit suffix |
| `DateFormat.TimeAgo` | mcp_frontend/src/utils/date.ts:75-116 | no date gives ""; an invalid date gives "NaN年前"; a valid date always gives some text |

## Left out

- **Async timing and concurrency.**
  - Not modelled: the `asyncio.wait_for` timeouts, task creation and cancellation (`_task`), `_cleanup_lock`, and the cross-task fallback that replaces the exit stack.
  - Operations run one after another. A timeout is one more failure the script can give.
- **The MCP SDK and its transports** (`stdio_client`, `sse_client`, `ClientSession`). These are foreign code, replaced by the scripted `Remote`.
  - The unpacking of the SSE transport into a read and a write channel always succeeds.
  - The `code` attribute of a tool-call error only affects logging, so it is left out.
- **`main()` and `test_sse_connection` in mcp_client.py.** `main()` is demonstration code. `test_sse_connection` returns (True, …) for a string url; a url that is not a string raises in `startswith`, which the model treats as a refusal in `Preflight`.
- **`McpClient.ClientManager.ConnectToServer` returns a new config instead of mutating the caller's.** It works on a copy of the config with the type filled in; the caller's dict is not changed in place, so aliasing of that dict is not captured.
- **`McpClient.ToolCallOutcome` returns an object's `str()` as an opaque display text.** When a result object has a list `content` with no text, it stays the object, which `json.dumps` rejects. The model returns that object's display text without computing it.
- **Python's exact error texts.**
  - Pydantic's validation messages are one fixed text per record type.
  - `repr` quotes strings simply and escapes nothing.
  - `json.dumps` escapes only quotes and backslashes; the `ensure_ascii` escaping of non-ASCII characters is not modelled.
  - `str.lower()` is ASCII-only.
  - KeyError and TypeError messages follow CPython's wording but are not guaranteed to match it.
- **Logging.** `logger` and `print` have no effect on the state and are left out.
- **File I/O.** This covers `os.makedirs`, the directory check in `SessionService.__init__`, open/write failures of `_save_session` (a save always succeeds), and the file system behind the configuration paths.
  - `delete_session` removing an existing file always succeeds.
  - `get_sessions` is not modelled: it lists a directory, and each entry it returns is `get_session`'s record.
- **`Config.Settings.constructor` does not load.** `Settings.__init__` also creates the config directory and runs `load_mcp_servers` and `load_llm_providers`. In the model, construction gives the class defaults and loading is a separate call of `LoadMcpServers` and `LoadLlmProviders`.
- **Non-integer JSON numbers and non-string format arguments.** `Json` has integers only, so floats in tool arguments, tool results and JSON-RPC params or ids cannot be represented. The keyword arguments of `I18n.Format` are strings, while Python formats any value with `str()`.
- **Floating-point timestamps.** `Message` and `Session` use `time.time()` floats; the model uses whole seconds. One clock reading stands for the several that an operation takes.
- **The HTTP adapters of llm_service.py.**
  - `_openai_completion`, `_deepseek_completion`, `_qwen_completion` and the request itself in `_openrouter_completion` are left out.
  - A model-list query that reaches an adapter is the value `FetchModels(vendor)`. It stands for all four adapters: the OpenAI and OpenRouter ones send a request, while `_deepseek_models` and `_qwen_models` return a fixed list of four names and send nothing. The lists and replies themselves are not modelled.
  - `LLMServiceManager.chat_with_tools`, which sends the request and parses the reply, is not part of this model; the model stops where `ProviderManager` hands the messages over.
  - A message list that reaches an adapter is a `Request`. The OpenRouter formatting is modelled on its own as `Service.FormatOpenRouter`.
  - Temperature, max_tokens and tools are not carried in a `Request`.
- **`get_service` and `list_services`** of the two LLM managers. They are lookup helpers that other code uses.
- **`LlmService.ProviderManager.ChatWithTools` does not model `model`.** The unused `model` argument and the tools that are handed over are not modelled. The fixed rules text of the system message is the `rules` constant, not spelled out.
- **`load_language_from_config` in i18n**, which reads the settings file.
- Format: a conversion (`{x!r}`) or a format spec (`{x:>5}`) after a field name, and an attribute or index after its first part (`{x.y}`, `{x[0]}`), are not applied. The value named by the first part is substituted as it is. The nested fields of a format spec are not looked up, and the errors a bad conversion, spec, attribute or index would raise are not modelled.
- **`formatDate` and `formatISODate` in date.ts.** They depend on local calendar arithmetic and on `Date.toISOString`. `formatTime` takes the hours and minutes a `Date` reports.
- **HTTP routers and front-end stores.** `mcp_backend/app/api/endpoints.py`, the routers, the front-end stores and the API wrappers are not part of this model.
