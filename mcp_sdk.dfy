/** The surface of the MCP Python SDK that mcp_backend/app/services/mcp_client.py
    talks to: the transports (`stdio_client`, `sse_client`), `ClientSession`
    and the shapes of its replies.

    The servers on the far side are an oracle. Every request the client sends
    is appended to one log, and the reply to a request is whatever a script
    gives for the request's position in that log. A script is an arbitrary
    function, so quantifying over scripts covers every behaviour of the
    servers, failures, timeouts and changing answers included. */
module McpSdk {
  import opened Base
  import opened Json

  /** `getattr(obj, name, default)` distinguishes a missing attribute. */
  datatype Attr<+T> = Missing | Present(v: T) {
    function Or(default: T): T {
      if Present? then v else default
    }
  }

  /** A tool as `list_tools` describes it. */
  datatype Tool = Tool(name: string, description: Option<string>, inputSchema: Json)

  /** Iterating a `ListToolsResult` yields `(field, value)` pairs; only the
      pair whose field is "tools" carries tools. */
  datatype ToolsField = ToolsField(field: string, tools: seq<Tool>)

  /** A resource as `list_resources` describes it. */
  datatype Resource = Resource(name: Attr<Json>, uri: Attr<Json>, mimeType: Attr<Json>)

  /** An element of the older tuple-shaped reply: a `(tag, resources)` tuple
      or something that is not a tuple. */
  datatype TupleItem = Tagged(tag: string, resources: seq<Resource>) | NotTuple

  datatype ResourcesReply =
    | WithResources(resources: seq<Resource>)   // has a `resources` attribute
    | AsTuple(items: seq<TupleItem>)             // a tuple
    | OtherResources                             // anything else

  datatype Prompt = Prompt(name: Attr<Json>, description: Attr<Json>)

  datatype PromptsReply =
    | WithPrompts(prompts: seq<Prompt>)          // has a `prompts` attribute
    | AsDict(fields: seq<(string, Json)>)        // a plain dict
    | OtherPrompts

  /** One element of `CallToolResult.content`; `text` is None for content
      without a text attribute (an image, say). */
  datatype ContentItem = ContentItem(text: Option<string>)

  /** What `call_tool` returns. */
  datatype ToolOutput =
    | ContentResult(content: seq<ContentItem>, display: string)
        // an object whose `content` is a list; `display` is its `str()`
    | AttrObject(attrs: seq<(string, Json)>)
        // an object without a list `content`; `attrs` is its `__dict__`
    | Plain(value: Json)
        // a value without `__dict__`

  /** One element of `ReadResourceResult.contents`. */
  datatype ResourceContent = ResourceContent(text: Option<string>, blob: Option<string>,
                                             mimeType: Attr<Option<string>>)

  /** What `read_resource` returns; None when there is no `contents`. */
  datatype ReadReply = ReadReply(contents: Option<seq<ResourceContent>>)

  /** `StdioServerParameters` */
  datatype StdioParams = StdioParams(command: string, args: seq<string>,
                                     env: Option<seq<(string, string)>>)

  /** Where a transport goes. */
  datatype Target = StdioTarget(params: StdioParams) | SseTarget(url: string)

  /** A request the client sends, tagged with the name of the server it is for. */
  datatype Request =
    | OpenTransport(server: string, target: Target)
    | CreateSession(server: string)
    | InitializeSession(server: string)
    | ListTools(server: string)
    | ListResources(server: string)
    | ListPrompts(server: string)
    | CallTool(server: string, tool: string, arguments: Json)
    | ReadResource(server: string, uri: string)
    | CloseAll(server: string)          // `exit_stack.aclose()`

  class Remote {
    /** Every request sent so far, in order. */
    var log: seq<Request>

    const opening: nat -> Result<()>
    const creating: nat -> Result<()>
    const initializing: nat -> Result<()>
    const toolLists: nat -> Result<seq<ToolsField>>
    const resourceLists: nat -> Result<ResourcesReply>
    const promptLists: nat -> Result<PromptsReply>
    const toolCalls: nat -> Result<ToolOutput>
    const resourceReads: nat -> Result<ReadReply>

    constructor (opening: nat -> Result<()>, creating: nat -> Result<()>,
                 initializing: nat -> Result<()>, toolLists: nat -> Result<seq<ToolsField>>,
                 resourceLists: nat -> Result<ResourcesReply>, promptLists: nat -> Result<PromptsReply>,
                 toolCalls: nat -> Result<ToolOutput>, resourceReads: nat -> Result<ReadReply>)
      ensures log == []
      ensures this.opening == opening && this.creating == creating
      ensures this.initializing == initializing && this.toolLists == toolLists
      ensures this.resourceLists == resourceLists && this.promptLists == promptLists
      ensures this.toolCalls == toolCalls && this.resourceReads == resourceReads
    {
      log := [];
      this.opening := opening;
      this.creating := creating;
      this.initializing := initializing;
      this.toolLists := toolLists;
      this.resourceLists := resourceLists;
      this.promptLists := promptLists;
      this.toolCalls := toolCalls;
      this.resourceReads := resourceReads;
    }

    /** Entering `stdio_client(params)` or `sse_client(url)`. */
    method Open(server: string, target: Target) returns (r: Result<()>)
      modifies this
      ensures log == old(log) + [OpenTransport(server, target)]
      ensures r == opening(|old(log)|)
    {
      r := opening(|log|);
      log := log + [OpenTransport(server, target)];
    }

    /** Entering `ClientSession(read, write)`. */
    method Create(server: string) returns (r: Result<()>)
      modifies this
      ensures log == old(log) + [CreateSession(server)]
      ensures r == creating(|old(log)|)
    {
      r := creating(|log|);
      log := log + [CreateSession(server)];
    }

    /** `session.initialize()` */
    method Initialize(server: string) returns (r: Result<()>)
      modifies this
      ensures log == old(log) + [InitializeSession(server)]
      ensures r == initializing(|old(log)|)
    {
      r := initializing(|log|);
      log := log + [InitializeSession(server)];
    }

    /** `session.list_tools()` */
    method GetTools(server: string) returns (r: Result<seq<ToolsField>>)
      modifies this
      ensures log == old(log) + [ListTools(server)]
      ensures r == toolLists(|old(log)|)
    {
      r := toolLists(|log|);
      log := log + [ListTools(server)];
    }

    /** `session.list_resources()` */
    method GetResources(server: string) returns (r: Result<ResourcesReply>)
      modifies this
      ensures log == old(log) + [ListResources(server)]
      ensures r == resourceLists(|old(log)|)
    {
      r := resourceLists(|log|);
      log := log + [ListResources(server)];
    }

    /** `session.list_prompts()` */
    method GetPrompts(server: string) returns (r: Result<PromptsReply>)
      modifies this
      ensures log == old(log) + [ListPrompts(server)]
      ensures r == promptLists(|old(log)|)
    {
      r := promptLists(|log|);
      log := log + [ListPrompts(server)];
    }

    /** `session.call_tool(tool, arguments)` */
    method Call(server: string, tool: string, arguments: Json) returns (r: Result<ToolOutput>)
      modifies this
      ensures log == old(log) + [CallTool(server, tool, arguments)]
      ensures r == toolCalls(|old(log)|)
    {
      r := toolCalls(|log|);
      log := log + [CallTool(server, tool, arguments)];
    }

    /** `session.read_resource(uri)` */
    method Read(server: string, uri: string) returns (r: Result<ReadReply>)
      modifies this
      ensures log == old(log) + [ReadResource(server, uri)]
      ensures r == resourceReads(|old(log)|)
    {
      r := resourceReads(|log|);
      log := log + [ReadResource(server, uri)];
    }

    /** Closing every context a server entered; its errors are swallowed by
        the caller, so it has no outcome. */
    method Close(server: string)
      modifies this
      ensures log == old(log) + [CloseAll(server)]
    {
      log := log + [CloseAll(server)];
    }
  }
}
