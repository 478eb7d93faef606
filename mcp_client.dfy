/** The MCP client (mcp_backend/app/services/mcp_client.py): a `Server` holds
    one connection (transport, session, cached tool and resource lists) and a
    `ClientManager` keeps the servers by name, reconnecting and retrying once
    when a call fails because the connection is gone. */
module McpClient {
  import opened Base
  import opened Text
  import opened Json
  import opened McpSdk

  /** What the tool cache keeps per tool. */
  datatype ToolInfo = ToolInfo(name: string, description: Option<string>, inputSchema: Json)

  /** What the resource cache keeps per resource. */
  datatype ResourceInfo = ResourceInfo(name: Json, uri: Json, mimeType: Json)

  datatype PromptInfo = PromptInfo(name: Json, description: Json)

  /** A context entered on a server's exit stack. */
  datatype Context = TransportContext(target: Target) | SessionContext

  // ------------------------------------------------------------ tool lists

  function InfoOf(t: Tool): ToolInfo {
    ToolInfo(t.name, t.description, t.inputSchema)
  }

  function ToolInfos(ts: seq<Tool>): (r: seq<ToolInfo>)
    ensures |r| == |ts| && forall j :: 0 <= j < |ts| ==> r[j] == InfoOf(ts[j])
  {
    seq(|ts|, j requires 0 <= j < |ts| => InfoOf(ts[j]))
  }

  /** The tool cache built from a `list_tools` reply: the tools of every
      "tools" field, in order. */
  function ToolsFrom(fields: seq<ToolsField>): seq<ToolInfo>
    decreases |fields|
  {
    if fields == [] then []
    else
      var last := fields[|fields| - 1];
      ToolsFrom(fields[..|fields| - 1]) + (if last.field == "tools" then ToolInfos(last.tools) else [])
  }

  /** Some "tools" field of the reply lists `t`. */
  ghost predicate ListsTool(fields: seq<ToolsField>, t: ToolInfo) {
    exists i, j :: 0 <= i < |fields| && fields[i].field == "tools" &&
                   0 <= j < |fields[i].tools| && InfoOf(fields[i].tools[j]) == t
  }

  /** The fields before the last one, or the last one, list `t`. */
  lemma ListsToolLast(fields: seq<ToolsField>, t: ToolInfo)
    requires fields != []
    ensures var n := |fields| - 1;
            ListsTool(fields, t) <==>
            ListsTool(fields[..n], t) || (fields[n].field == "tools" && t in ToolInfos(fields[n].tools))
  {
    var n := |fields| - 1;
    var init := fields[..n];
    if ListsTool(fields, t) {
      var i, j :| 0 <= i < |fields| && fields[i].field == "tools" &&
                  0 <= j < |fields[i].tools| && InfoOf(fields[i].tools[j]) == t;
      if i < n {
        assert init[i] == fields[i];
      } else {
        assert ToolInfos(fields[n].tools)[j] == t;
      }
    }
    if ListsTool(init, t) {
      var i, j :| 0 <= i < |init| && init[i].field == "tools" &&
                  0 <= j < |init[i].tools| && InfoOf(init[i].tools[j]) == t;
      assert fields[i] == init[i];
    }
    if fields[n].field == "tools" && t in ToolInfos(fields[n].tools) {
      var j :| 0 <= j < |fields[n].tools| && ToolInfos(fields[n].tools)[j] == t;
      assert InfoOf(fields[n].tools[j]) == t;
    }
  }

  /** A tool is cached exactly when some "tools" field of the reply lists it. */
  lemma {:induction false} ToolsFromListed(fields: seq<ToolsField>, t: ToolInfo)
    ensures t in ToolsFrom(fields) <==> ListsTool(fields, t)
    decreases |fields|
  {
    if fields != [] {
      var n := |fields| - 1;
      ToolsFromListed(fields[..n], t);
      ListsToolLast(fields, t);
      var tail := if fields[n].field == "tools" then ToolInfos(fields[n].tools) else [];
      assert ToolsFrom(fields) == ToolsFrom(fields[..n]) + tail;
    }
  }

  /** The fields are read in order: the cache of a longer reply extends
      the cache of its prefix. */
  lemma {:induction false} ToolsFromAppend(a: seq<ToolsField>, b: seq<ToolsField>)
    ensures ToolsFrom(a + b) == ToolsFrom(a) + ToolsFrom(b)
    decreases |b|
  {
    if b == [] {
      assert a + b == a;
    } else {
      var n := |b| - 1;
      var tail := if b[n].field == "tools" then ToolInfos(b[n].tools) else [];
      ToolsFromAppend(a, b[..n]);
      assert (a + b)[..|a + b| - 1] == a + b[..n];
      assert (a + b)[|a + b| - 1] == b[n];
      assert ToolsFrom(a + b) == ToolsFrom(a + b[..n]) + tail;
      assert ToolsFrom(b) == ToolsFrom(b[..n]) + tail;
    }
  }

  /** `next((t for t in tools if t["name"] == tool), None)` succeeds. */
  predicate HasTool(tools: seq<ToolInfo>, tool: string) {
    exists i :: 0 <= i < |tools| && tools[i].name == tool
  }

  // -------------------------------------------------------- resource lists

  /** Missing attributes default to 'Unknown', '' and ''. */
  function ResourceInfoOf(r: Resource): ResourceInfo {
    ResourceInfo(r.name.Or(JStr("Unknown")), r.uri.Or(JStr("")), r.mimeType.Or(JStr("")))
  }

  function ResourceInfos(rs: seq<Resource>): (r: seq<ResourceInfo>)
    ensures |r| == |rs| && forall j :: 0 <= j < |rs| ==> r[j] == ResourceInfoOf(rs[j])
  {
    seq(|rs|, j requires 0 <= j < |rs| => ResourceInfoOf(rs[j]))
  }

  /** The resources of the "resources"-tagged tuples of the older reply shape. */
  function TupleResources(items: seq<TupleItem>): seq<ResourceInfo>
    decreases |items|
  {
    if items == [] then []
    else
      TupleResources(items[..|items| - 1]) + TaggedResources(items[|items| - 1])
  }

  /** What one tuple adds: the resources of a "resources" tuple, else nothing. */
  function TaggedResources(item: TupleItem): seq<ResourceInfo> {
    if item.Tagged? && item.tag == "resources" then ResourceInfos(item.resources) else []
  }

  /** The resource cache built from a `list_resources` outcome; a failed
      request leaves it empty instead of raising. */
  function ResourcesFrom(reply: Result<ResourcesReply>): (r: seq<ResourceInfo>)
    ensures reply.Err? || reply == Ok(OtherResources) ==> r == []
    ensures reply.Ok? && reply.value.WithResources? ==> |r| == |reply.value.resources|
  {
    match reply
    case Err(_) => []
    case Ok(WithResources(rs)) => ResourceInfos(rs)
    case Ok(AsTuple(items)) => TupleResources(items)
    case Ok(OtherResources) => []
  }

  /** In the current reply shape every listed resource is cached, in order,
      with a missing name shown as 'Unknown'. */
  lemma ResourcesFromCurrentShape(rs: seq<Resource>)
    ensures |ResourcesFrom(Ok(WithResources(rs)))| == |rs|
    ensures forall j :: 0 <= j < |rs| && rs[j].name.Missing? ==>
              ResourcesFrom(Ok(WithResources(rs)))[j].name == JStr("Unknown")
    ensures forall j :: 0 <= j < |rs| && rs[j].uri.Present? ==>
              ResourcesFrom(Ok(WithResources(rs)))[j].uri == rs[j].uri.v
  {
  }

  /** Some "resources"-tagged tuple of the older reply lists a resource
      that shows as `x`. */
  ghost predicate ListsResource(items: seq<TupleItem>, x: ResourceInfo) {
    exists i, j :: 0 <= i < |items| && items[i].Tagged? && items[i].tag == "resources" &&
                   0 <= j < |items[i].resources| && ResourceInfoOf(items[i].resources[j]) == x
  }

  /** The tuples before the last one, or the last one, list `x`. */
  lemma ListsResourceLast(items: seq<TupleItem>, x: ResourceInfo)
    requires items != []
    ensures var n := |items| - 1;
            ListsResource(items, x) <==>
            ListsResource(items[..n], x) ||
            (items[n].Tagged? && items[n].tag == "resources" && x in ResourceInfos(items[n].resources))
  {
    var n := |items| - 1;
    var init := items[..n];
    if ListsResource(items, x) {
      var i, j :| 0 <= i < |items| && items[i].Tagged? && items[i].tag == "resources" &&
                  0 <= j < |items[i].resources| && ResourceInfoOf(items[i].resources[j]) == x;
      if i < n {
        assert init[i] == items[i];
      } else {
        assert ResourceInfos(items[n].resources)[j] == x;
      }
    }
    if ListsResource(init, x) {
      var i, j :| 0 <= i < |init| && init[i].Tagged? && init[i].tag == "resources" &&
                  0 <= j < |init[i].resources| && ResourceInfoOf(init[i].resources[j]) == x;
      assert items[i] == init[i];
    }
    if items[n].Tagged? && items[n].tag == "resources" && x in ResourceInfos(items[n].resources) {
      var j :| 0 <= j < |items[n].resources| && ResourceInfos(items[n].resources)[j] == x;
      assert ResourceInfoOf(items[n].resources[j]) == x;
    }
  }

  /** In the tuple shape a resource is cached exactly when a
      "resources"-tagged tuple lists it; other tuples contribute nothing. */
  lemma {:induction false} TupleResourcesTagged(items: seq<TupleItem>, x: ResourceInfo)
    ensures x in TupleResources(items) <==> ListsResource(items, x)
    decreases |items|
  {
    if items != [] {
      var n := |items| - 1;
      TupleResourcesTagged(items[..n], x);
      ListsResourceLast(items, x);
    }
  }

  /** The tuples are read in order: the cache of a longer reply extends the
      cache of its prefix. */
  lemma {:induction false} TupleResourcesAppend(a: seq<TupleItem>, b: seq<TupleItem>)
    ensures TupleResources(a + b) == TupleResources(a) + TupleResources(b)
    decreases |b|
  {
    if b == [] {
      assert a + b == a;
    } else {
      var n := |b| - 1;
      TupleResourcesAppend(a, b[..n]);
      assert (a + b)[..|a + b| - 1] == a + b[..n];
      assert (a + b)[|a + b| - 1] == b[n];
      TupleResourcesLast(a + b);
      TupleResourcesLast(b);
      ConcatAssoc(TupleResources(a), TupleResources(b[..n]), TaggedResources(b[n]));
    }
  }

  /** One step of the scan: the last tuple adds its resources after the rest. */
  lemma TupleResourcesLast(items: seq<TupleItem>)
    requires items != []
    ensures TupleResources(items) == TupleResources(items[..|items| - 1]) + TaggedResources(items[|items| - 1])
  {
  }

  lemma ConcatAssoc<T>(x: seq<T>, y: seq<T>, z: seq<T>)
    ensures x + y + z == x + (y + z)
  {
  }

  // ---------------------------------------------------------- prompt lists

  function SdkPrompt(p: Prompt): PromptInfo {
    PromptInfo(p.name.Or(JStr("Unknown")), p.description.Or(JStr("")))
  }

  function SdkPrompts(ps: seq<Prompt>): (r: seq<PromptInfo>)
    ensures |r| == |ps| && forall j :: 0 <= j < |ps| ==> r[j] == SdkPrompt(ps[j])
  {
    seq(|ps|, j requires 0 <= j < |ps| => SdkPrompt(ps[j]))
  }

  /** `prompt.get('name', 'Unknown')`, `prompt.get('description', '')` */
  function DictPrompt(p: Json): PromptInfo {
    PromptInfo(GetOr(p, "name", JStr("Unknown")), GetOr(p, "description", JStr("")))
  }

  predicate AllObjects(xs: seq<Json>) {
    forall i :: 0 <= i < |xs| ==> xs[i].JObj?
  }

  function DictPrompts(xs: seq<Json>): (r: seq<PromptInfo>)
    ensures |r| == |xs| && forall j :: 0 <= j < |xs| ==> r[j] == DictPrompt(xs[j])
  {
    seq(|xs|, j requires 0 <= j < |xs| => DictPrompt(xs[j]))
  }

  /** The prompt list a `list_prompts` outcome yields. Any failure, including
      a dict-shaped reply whose "prompts" is not a list of dicts (`.get` on
      something else raises), yields an empty list. */
  function PromptsFrom(reply: Result<PromptsReply>): (r: seq<PromptInfo>)
    ensures reply.Err? || reply == Ok(OtherPrompts) ==> r == []
    ensures reply.Ok? && reply.value.WithPrompts? ==> |r| == |reply.value.prompts|
  {
    match reply
    case Err(_) => []
    case Ok(WithPrompts(ps)) => SdkPrompts(ps)
    case Ok(AsDict(fs)) =>
      var v := Lookup(fs, "prompts");
      if v.Some? && v.value.JArr? && AllObjects(v.value.items) then DictPrompts(v.value.items) else []
    case Ok(OtherPrompts) => []
  }

  /** An SDK-shaped reply gives one entry per prompt, in order; a missing
      name shows as 'Unknown' and a missing description as ''. */
  lemma PromptsFromSdkShape(ps: seq<Prompt>)
    ensures |PromptsFrom(Ok(WithPrompts(ps)))| == |ps|
    ensures forall j :: 0 <= j < |ps| ==>
              PromptsFrom(Ok(WithPrompts(ps)))[j].name == (if ps[j].name.Missing? then JStr("Unknown") else ps[j].name.v) &&
              PromptsFrom(Ok(WithPrompts(ps)))[j].description == (if ps[j].description.Missing? then JStr("") else ps[j].description.v)
  {
  }

  /** A dict-shaped reply whose "prompts" is a list of dicts gives one entry
      per dict, in order, with each key's value or its default. */
  lemma PromptsFromDictShape(fs: seq<(string, Json)>, xs: seq<Json>)
    requires Lookup(fs, "prompts") == Some(JArr(xs)) && AllObjects(xs)
    ensures |PromptsFrom(Ok(AsDict(fs)))| == |xs|
    ensures forall j :: 0 <= j < |xs| ==>
              PromptsFrom(Ok(AsDict(fs)))[j].name == Lookup(xs[j].fields, "name").GetOr(JStr("Unknown")) &&
              PromptsFrom(Ok(AsDict(fs)))[j].description == Lookup(xs[j].fields, "description").GetOr(JStr(""))
  {
  }

  /** A failed request, an unknown reply shape, and a dict reply without a
      "prompts" list all give no prompts. */
  lemma PromptsFromFailures(reply: Result<PromptsReply>)
    requires reply.Err? || reply == Ok(OtherPrompts) ||
             (reply.Ok? && reply.value.AsDict? && !(Lookup(reply.value.fields, "prompts").Some? &&
                                                    Lookup(reply.value.fields, "prompts").value.JArr?))
    ensures PromptsFrom(reply) == []
  {
  }

  /** A dict-shaped reply holding one non-dict prompt yields no prompts at
      all, not the ones before it. */
  lemma DictPromptsAllOrNothing(fs: seq<(string, Json)>, xs: seq<Json>, k: nat)
    requires Lookup(fs, "prompts") == Some(JArr(xs))
    requires k < |xs| && !xs[k].JObj?
    ensures PromptsFrom(Ok(AsDict(fs))) == []
  {
  }

  // ------------------------------------------------------------ tool calls

  /** The non-empty texts of a tool result's content, in order. */
  function Texts(items: seq<ContentItem>): seq<string>
    decreases |items|
  {
    if items == [] then []
    else
      var last := items[|items| - 1];
      Texts(items[..|items| - 1]) +
        (if last.text.Some? && last.text.value != "" then [last.text.value] else [])
  }

  /** Only non-empty texts are collected. */
  lemma {:induction false} TextsNonEmpty(items: seq<ContentItem>)
    ensures forall i :: 0 <= i < |Texts(items)| ==> Texts(items)[i] != ""
    ensures |Texts(items)| <= |items|
    decreases |items|
  {
    if items != [] {
      TextsNonEmpty(items[..|items| - 1]);
    }
  }

  /** The attributes of an object not starting with an underscore. */
  function PublicAttrs(attrs: seq<(string, Json)>): (r: seq<(string, Json)>)
    ensures |r| <= |attrs|
    decreases |attrs|
  {
    if attrs == [] then []
    else if StartsWith(attrs[0].0, "_") then PublicAttrs(attrs[1..])
    else [attrs[0]] + PublicAttrs(attrs[1..])
  }

  /** The dict built from an object keeps exactly the public attributes,
      with their values. */
  lemma {:induction false} PublicAttrsLookup(attrs: seq<(string, Json)>, k: string)
    ensures Lookup(PublicAttrs(attrs), k) == if StartsWith(k, "_") then None else Lookup(attrs, k)
    decreases |attrs|
  {
    if attrs != [] {
      PublicAttrsLookup(attrs[1..], k);
    }
  }

  /** How `execute_tool` turns a `call_tool` result into its return value.
      An object with a list `content` becomes its texts joined by newlines;
      without any text it stays the object, which `json.dumps` rejects, so
      its `str()` is returned. Any other object becomes the dict of its
      public attributes; a plain value is returned as it is. */
  function Normalised(o: ToolOutput): Json {
    match o
    case ContentResult(items, display) =>
      var ts := Texts(items);
      if ts != [] then JStr(Join("\n", ts)) else JStr(display)
    case AttrObject(attrs) => JObj(PublicAttrs(attrs))
    case Plain(v) => v
  }

  /** When no text holds a newline, the texts can be recovered from the
      joined result by splitting it on newlines. */
  lemma ContentTextsRecoverable(items: seq<ContentItem>, display: string)
    requires Texts(items) != []
    requires forall i :: 0 <= i < |Texts(items)| ==> '\n' !in Texts(items)[i]
    ensures Normalised(ContentResult(items, display)).JStr?
    ensures Split(Normalised(ContentResult(items, display)).s, '\n') == Texts(items)
  {
    assert "\n" == ['\n'];
    JoinSplit(Texts(items), '\n');
  }

  /** The three shapes of a tool result: texts joined by newlines, or the
      object's `str()` without any text; the public attributes of any other
      object; a plain value unchanged. */
  lemma NormalisedShapes(o: ToolOutput)
    ensures o.ContentResult? && Texts(o.content) != [] ==> Normalised(o) == JStr(Join("\n", Texts(o.content)))
    ensures o.ContentResult? && Texts(o.content) == [] ==> Normalised(o) == JStr(o.display)
    ensures o.AttrObject? ==>
              Normalised(o).JObj? &&
              forall k :: Lookup(Normalised(o).fields, k) == if StartsWith(k, "_") then None else Lookup(o.attrs, k)
    ensures o.Plain? ==> Normalised(o) == o.value
  {
    if o.AttrObject? {
      forall k
        ensures Lookup(Normalised(o).fields, k) == if StartsWith(k, "_") then None else Lookup(o.attrs, k)
      {
        PublicAttrsLookup(o.attrs, k);
      }
    }
  }

  /** The error `execute_tool` raises when listing its tools failed:
      RuntimeError and ValueError pass through, anything else is wrapped. */
  function ListingFailure(e: Error): (r: Error)
    ensures r.kind == RuntimeError || r.kind == ValueError
    ensures e.kind == RuntimeError || e.kind == ValueError ==> r == e
  {
    if e.kind == RuntimeError || e.kind == ValueError then e
    else Error(RuntimeError, "工具执行失败: " + e.message)
  }

  /** The tool list `execute_tool` checks against: the cache, or what a
      refresh yields when the cache is empty. */
  function CachedOrListed(cache: seq<ToolInfo>, reply: Result<seq<ToolsField>>): Result<seq<ToolInfo>> {
    if cache != [] then Ok(cache)
    else match reply
      case Ok(fields) => Ok(ToolsFrom(fields))
      case Err(e) => Err(e)
  }

  /** The tool cache after `list_tools`: an empty cache on a live session
      is refilled from a listing that answers, and is otherwise kept. */
  function RefreshedCache(cache: seq<ToolInfo>, session: Option<nat>, reply: Result<seq<ToolsField>>): seq<ToolInfo> {
    if cache == [] && session.Some? && reply.Ok? then ToolsFrom(reply.value) else cache
  }

  /** The outcome of `Server.execute_tool` on a live session, given the tool
      list and the reply to the call (consulted only when the tool is
      listed). */
  function ToolCallOutcome(tool: string, listed: Result<seq<ToolInfo>>,
                           call: Result<ToolOutput>): (r: Result<Json>)
    ensures r.Err? ==> r.error.kind == RuntimeError || r.error.kind == ValueError
    ensures r.Ok? ==> listed.Ok? && HasTool(listed.value, tool) && call.Ok? && r.value == Normalised(call.value)
    ensures listed.Ok? && !HasTool(listed.value, tool) ==> r == Err(Error(ValueError, "工具未找到: " + tool))
    ensures listed.Ok? && HasTool(listed.value, tool) && call.Err? ==>
              r == Err(Error(RuntimeError, "工具 " + tool + " 执行失败: " + call.error.message))
  {
    if listed.Err? then Err(ListingFailure(listed.error))
    else if !HasTool(listed.value, tool) then Err(Error(ValueError, "工具未找到: " + tool))
    else match call
      case Err(e) => Err(Error(RuntimeError, "工具 " + tool + " 执行失败: " + e.message))
      case Ok(o) => Ok(Normalised(o))
  }

  // ------------------------------------------------------------ connecting

  /** `StdioServerParameters(command=config["command"], args=config.get("args", []),
      env=config.get("env", {}))`: a missing command raises KeyError first,
      values of the wrong type fail the parameter model's validation. */
  function StdioParamsOf(config: seq<(string, Json)>): Result<StdioParams> {
    var command := Lookup(config, "command");
    var args := GetOr(JObj(config), "args", JArr([]));
    var env := GetOr(JObj(config), "env", JObj([]));
    var invalid := Error(ValueError, "StdioServerParameters validation error");
    if command.None? then Err(Error(KeyError, "'command'"))
    else if !command.value.JStr? then Err(invalid)
    else if !(args.JArr? && forall i :: 0 <= i < |args.items| ==> args.items[i].JStr?) then Err(invalid)
    else if !(env.JNull? || (env.JObj? && forall i :: 0 <= i < |env.fields| ==> env.fields[i].1.JStr?)) then Err(invalid)
    else
      Ok(StdioParams(command.value.s,
                     seq(|args.items|, i requires 0 <= i < |args.items| => args.items[i].s),
                     if env.JNull? then None
                     else Some(seq(|env.fields|, i requires 0 <= i < |env.fields| => (env.fields[i].0, env.fields[i].1.s)))))
  }

  /** The URL `_initialize_sse_session` connects to: "http://" is prefixed
      when there is no scheme, and a timeout query parameter is appended. */
  function SseUrl(url: string): (u: string)
    ensures StartsWith(u, "http://") || StartsWith(u, "https://")
    ensures Contains(u, "timeout=10000") && Contains(u, "?")
  {
    var withScheme := if StartsWith(url, "http://") || StartsWith(url, "https://") then url else "http://" + url;
    var query := (if Contains(withScheme, "?") then "&" else "?") + "timeout=10000";
    StartsWithAppend(withScheme, query, "http://");
    StartsWithAppend(withScheme, query, "https://");
    ContainsAt(query, "timeout=10000", 1);
    ContainsAppend(withScheme, query, "timeout=10000");
    assert Contains(withScheme + query, "?") by {
      if Contains(withScheme, "?") {
        ContainsAppend(query, withScheme, "?");
      } else {
        ContainsAt(query, "?", 0);
        ContainsAppend(withScheme, query, "?");
      }
    }
    withScheme + query
  }

  /** The URL is kept whole: "http://" goes in front only when it has no
      scheme of its own, and the timeout joins its query with "&" when it
      already has one, else starts a query with "?". */
  lemma SseUrlNormalised(url: string)
    ensures (StartsWith(url, "http://") || StartsWith(url, "https://")) && '?' in url ==>
              SseUrl(url) == url + "&timeout=10000"
    ensures (StartsWith(url, "http://") || StartsWith(url, "https://")) && '?' !in url ==>
              SseUrl(url) == url + "?timeout=10000"
    ensures !(StartsWith(url, "http://") || StartsWith(url, "https://")) && '?' in url ==>
              SseUrl(url) == "http://" + url + "&timeout=10000"
    ensures !(StartsWith(url, "http://") || StartsWith(url, "https://")) && '?' !in url ==>
              SseUrl(url) == "http://" + url + "?timeout=10000"
  {
    ContainsChar(url, '?');
    ContainsChar("http://" + url, '?');
    assert '?' in "http://" + url <==> '?' in url by {
      assert "http://" + url == "http://" + url;
      forall k | 0 <= k < |"http://"|
        ensures ("http://" + url)[k] != '?'
      {
      }
      if '?' in url {
        var k :| 0 <= k < |url| && url[k] == '?';
        assert ("http://" + url)[7 + k] == '?';
      }
    }
  }

  /** Where `initialize` connects, or the error it raises before trying:
      the type defaults to "stdio", sse needs a "url" holding a string
      (`startswith` on anything else raises), other types are refused. */
  function TargetOf(config: seq<(string, Json)>): (r: Result<Target>)
    ensures r.Ok? ==> GetOr(JObj(config), "type", JStr("stdio")) in {JStr("stdio"), JStr("sse")}
    ensures r.Ok? && r.value.SseTarget? ==>
              Lookup(config, "url").Some? && Lookup(config, "url").value.JStr? &&
              r.value.url == SseUrl(Lookup(config, "url").value.s)
  {
    var kind := GetOr(JObj(config), "type", JStr("stdio"));
    if kind == JStr("stdio") then
      match StdioParamsOf(config)
      case Ok(p) => Ok(StdioTarget(p))
      case Err(e) => Err(e)
    else if kind == JStr("sse") then
      match Lookup(config, "url")
      case None => Err(Error(ValueError, "SSE 连接需要指定 url 参数"))
      case Some(JStr(u)) => Ok(SseTarget(SseUrl(u)))
      case Some(v) => Err(NoAttribute(v, "startswith"))
    else
      Err(Error(ValueError, "不支持的连接类型: " + PyStr(kind)))
  }

  /** A type other than stdio and sse is refused with its name in the message. */
  lemma UnsupportedTypeRefused(config: seq<(string, Json)>, kind: string)
    requires Lookup(config, "type") == Some(JStr(kind)) && kind != "stdio" && kind != "sse"
    ensures TargetOf(config) == Err(Error(ValueError, "不支持的连接类型: " + kind))
  {
  }

  /** The three steps of opening a session. */
  datatype Phase = OpenPhase | CreatePhase | InitializePhase

  /** The error a failed step surfaces as. Over stdio the SDK's error passes
      through; over SSE each step turns it into a RuntimeError naming the
      step, with the step's timeout when it timed out. */
  function PhaseError(target: Target, phase: Phase, e: Error): (r: Error)
    ensures target.StdioTarget? ==> r == e
    ensures target.SseTarget? ==> r.kind == RuntimeError
    ensures target.SseTarget? && phase == OpenPhase && e.kind !in {TimeoutError, ConnectionError} ==>
              r.message == "创建 SSE 连接时发生未知错误: " + e.message
  {
    if target.StdioTarget? then e
    else match phase
      case OpenPhase =>
        if e.kind == TimeoutError then Error(RuntimeError, "连接 SSE 服务器超时 (30秒): " + target.url)
        else if e.kind == ConnectionError then
          Error(RuntimeError, "连接 SSE 服务器失败: " + target.url + ", 错误: " + e.message)
        else Error(RuntimeError, "创建 SSE 连接时发生未知错误: " + e.message)
      case CreatePhase =>
        if e.kind == TimeoutError then Error(RuntimeError, "创建 SSE ClientSession 超时 (10秒)")
        else Error(RuntimeError, "创建 SSE ClientSession 失败: " + e.message)
      case InitializePhase =>
        if e.kind == TimeoutError then Error(RuntimeError, "初始化 SSE ClientSession 超时 (15秒)")
        else Error(RuntimeError, "初始化 SSE ClientSession 失败: " + e.message)
  }

  /** An SSE connection attempt that times out or is refused names the URL
      it tried; a timeout's message does not depend on the SDK's text. */
  lemma SseOpenFailureNamesUrl(url: string, e: Error)
    requires e.kind == TimeoutError || e.kind == ConnectionError
    ensures Contains(PhaseError(SseTarget(url), OpenPhase, e).message, url)
    ensures e.kind == TimeoutError ==>
              PhaseError(SseTarget(url), OpenPhase, e) == PhaseError(SseTarget(url), OpenPhase, Error(TimeoutError, ""))
  {
    var m := PhaseError(SseTarget(url), OpenPhase, e).message;
    if e.kind == TimeoutError {
      var p := "连接 SSE 服务器超时 (30秒): ";
      assert m[|p|..|p| + |url|] == url;
      ContainsAt(m, url, |p|);
    } else {
      var p := "连接 SSE 服务器失败: ";
      assert m[|p|..|p| + |url|] == url;
      ContainsAt(m, url, |p|);
    }
  }

  /** The outcome of the three steps, given each step's reply; a later reply
      is consulted only when the earlier steps succeeded. */
  function HandshakeOutcome(target: Target, open: Result<()>, create: Result<()>,
                            init: Result<()>): (r: Result<()>)
    ensures r.Ok? <==> open.Ok? && create.Ok? && init.Ok?
    ensures open.Err? ==> r == Err(PhaseError(target, OpenPhase, open.error))
  {
    if open.Err? then Err(PhaseError(target, OpenPhase, open.error))
    else if create.Err? then Err(PhaseError(target, CreatePhase, create.error))
    else if init.Err? then Err(PhaseError(target, InitializePhase, init.error))
    else Ok(())
  }

  /** Whether `initialize` succeeds when its first request sits at log
      position `t`: the configuration names a supported transport, the three
      handshake steps pass and the tool listing answers. */
  ghost predicate Connects(config: seq<(string, Json)>, remote: Remote, t: nat) {
    TargetOf(config).Ok? &&
    HandshakeOutcome(TargetOf(config).value, remote.opening(t), remote.creating(t + 1),
                     remote.initializing(t + 2)).Ok? &&
    remote.toolLists(t + 3).Ok?
  }

  /** What the retry of `read_resource` returns after a reconnect whose
      `initialize` starts at log position `t`: the five requests of a
      successful `initialize`, then the read at `t + 5`. */
  ghost function ReadRetryOutcome(remote: Remote, t: nat): Result<(string, Option<string>)> {
    match remote.resourceReads(t + 5)
    case Ok(reply) => Ok(ContentOf(reply))
    case Err(e) => Err(Error(RuntimeError, "重试读取资源失败: " + e.message))
  }

  /** The tool list a call checks against right after an `initialize` that
      starts at log position `t` connected: the cache it just filled (from
      the listing at `t + 3`), refreshed by the listing at `t + 5` when it
      is empty. */
  ghost function ListedAfterConnect(remote: Remote, t: nat): Result<seq<ToolInfo>>
    requires remote.toolLists(t + 3).Ok?
  {
    CachedOrListed(ToolsFrom(remote.toolLists(t + 3).value), remote.toolLists(t + 5))
  }

  /** Where that call lands: right after the five requests of `initialize`,
      or after the refresh when the listing left the cache empty. */
  ghost function CallAfterConnect(remote: Remote, t: nat): nat
    requires remote.toolLists(t + 3).Ok?
  {
    if ToolsFrom(remote.toolLists(t + 3).value) == [] then t + 6 else t + 5
  }

  /** What the retry of `execute_tool` returns after a reconnect whose
      `initialize` starts at log position `t`. */
  ghost function ToolRetryOutcome(remote: Remote, t: nat, tool: string): Result<Json>
    requires remote.toolLists(t + 3).Ok?
  {
    match ToolCallOutcome(tool, ListedAfterConnect(remote, t), remote.toolCalls(CallAfterConnect(remote, t)))
    case Ok(v) => Ok(v)
    case Err(e) => Err(Error(RuntimeError, "重试执行工具失败: " + e.message))
  }

  /** What the first attempt of the manager's `execute_tool` returns when it
      calls, from log position `t`: on a live session, the call against the
      server's `cache`; on a server it had to initialize, the call right
      after that `initialize` connected. */
  ghost function FirstToolOutcome(remote: Remote, t: nat, live: bool, cache: seq<ToolInfo>, tool: string): Result<Json>
    requires !live ==> remote.toolLists(t + 3).Ok?
  {
    if live then
      ToolCallOutcome(tool, CachedOrListed(cache, remote.toolLists(t)), remote.toolCalls(if cache == [] then t + 1 else t))
    else
      ToolCallOutcome(tool, ListedAfterConnect(remote, t), remote.toolCalls(CallAfterConnect(remote, t)))
  }

  /** How many requests one `execute_tool` on a live session sends from
      log position `t`: a refresh when `cache` is empty, then the call when
      the listing has the tool. */
  ghost function CallLen(remote: Remote, t: nat, cache: seq<ToolInfo>, tool: string): nat {
    var listed := CachedOrListed(cache, remote.toolLists(t));
    (if cache == [] then 1 else 0) + (if listed.Ok? && HasTool(listed.value, tool) then 1 else 0)
  }

  /** How many requests the first attempt of the manager's `execute_tool`
      sends when it calls: those of `CallLen`, after the five of
      `initialize` when the server was not live. */
  ghost function FirstLen(remote: Remote, t: nat, live: bool, cache: seq<ToolInfo>, tool: string): nat
    requires !live ==> remote.toolLists(t + 3).Ok?
  {
    if live then CallLen(remote, t, cache, tool)
    else 5 + CallLen(remote, t + 5, ToolsFrom(remote.toolLists(t + 3).value), tool)
  }

  /** The first attempt is one live `execute_tool` from position `k` with
      cache `c`: right away on a live session, or after the five requests
      of an `initialize` that connected and filled the cache. */
  lemma FirstAttemptAt(remote: Remote, config: seq<(string, Json)>, t0: nat, live: bool, cache: seq<ToolInfo>,
                       k: nat, c: seq<ToolInfo>, tool: string)
    requires live ==> k == t0 && c == cache
    requires !live ==> Connects(config, remote, t0) && k == t0 + 5 && c == ToolsFrom(remote.toolLists(t0 + 3).value)
    ensures FirstToolOutcome(remote, t0, live, cache, tool) ==
            ToolCallOutcome(tool, CachedOrListed(c, remote.toolLists(k)), remote.toolCalls(if c == [] then k + 1 else k))
    ensures FirstLen(remote, t0, live, cache, tool) == k - t0 + CallLen(remote, k, c, tool)
  {
  }

  // --------------------------------------------------------------- the log

  /** Requests for `server` that neither call a tool nor read a resource:
      all that connecting, listing and cleaning up send. */
  ghost predicate Housekeeping(log: seq<Request>, from: nat, server: string) {
    forall k :: from <= k < |log| ==>
      log[k].server == server && !log[k].CallTool? && !log[k].ReadResource?
  }

  /** A housekeeping request for the same server keeps a stretch of the log
      housekeeping. */
  lemma HousekeepingExtend(log: seq<Request>, from: nat, server: string, req: Request)
    requires Housekeeping(log, from, server)
    requires req.server == server && !req.CallTool? && !req.ReadResource?
    ensures Housekeeping(log + [req], from, server)
  {
  }

  /** Housekeeping up to the end of a prefix and from there on is
      housekeeping throughout. */
  lemma HousekeepingJoin(prefix: seq<Request>, log: seq<Request>, from: nat, server: string)
    requires prefix <= log && from <= |prefix|
    requires Housekeeping(prefix, from, server) && Housekeeping(log, |prefix|, server)
    ensures Housekeeping(log, from, server)
  {
    forall k | from <= k < |prefix|
      ensures log[k] == prefix[k]
    {
    }
  }

  /** A request that does the work a caller asked for: a tool call or a
      resource read. */
  predicate IsAttempt(req: Request) {
    req.CallTool? || req.ReadResource?
  }

  /** The number of attempts in a stretch of the log. */
  function Attempts(reqs: seq<Request>): nat
    decreases |reqs|
  {
    if reqs == [] then 0
    else Attempts(reqs[..|reqs| - 1]) + (if IsAttempt(reqs[|reqs| - 1]) then 1 else 0)
  }

  /** Every attempt from `from` on is `req`. */
  ghost predicate AttemptsAre(log: seq<Request>, from: nat, req: Request) {
    forall k :: from <= k < |log| && IsAttempt(log[k]) ==> log[k] == req
  }

  /** What `execute_tool` sends on a live session: a refresh of the tool
      list when the cache is empty, then the call when the tool is listed. */
  function ToolRequests(server: string, tool: string, arguments: Json, refresh: bool, calls: bool): seq<Request> {
    (if refresh then [Request.ListTools(server)] else []) + (if calls then [CallTool(server, tool, arguments)] else [])
  }

  /** Those requests hold at most one attempt, the call itself, and are
      housekeeping unless they end with it. */
  lemma ToolRequestsAccounting(log0: seq<Request>, server: string, tool: string, arguments: Json, refresh: bool, calls: bool)
    ensures var log := log0 + ToolRequests(server, tool, arguments, refresh, calls);
            Attempts(log[|log0|..]) <= 1 &&
            AttemptsAre(log, |log0|, CallTool(server, tool, arguments)) &&
            (Housekeeping(log, |log0|, server) || log[|log| - 1] == CallTool(server, tool, arguments)) &&
            (calls ==> |log| - 1 == |log0| + (if refresh then 1 else 0) && log[|log| - 1] == CallTool(server, tool, arguments))
  {
    var l := Request.ListTools(server);
    var c := CallTool(server, tool, arguments);
    var reqs := ToolRequests(server, tool, arguments, refresh, calls);
    var log := log0 + reqs;
    assert log[|log0|..] == reqs;
    if !calls {
      assert reqs == if refresh then [l] else [];
      assert Attempts(reqs) == 0 by {
        if refresh { assert reqs[..0] == []; }
      }
      assert forall k :: |log0| <= k < |log| ==> log[k] == l;
    } else if !refresh {
      assert reqs == [c];
      assert reqs[..0] == [];
      assert forall k :: |log0| <= k < |log| ==> log[k] == c;
    } else {
      assert reqs == [l, c];
      assert reqs[..1] == [l] && [l][..0] == [];
      assert forall k :: |log0| <= k < |log| ==> log[k] == l || log[k] == c;
    }
  }

  lemma {:induction false} AttemptsAppend(a: seq<Request>, b: seq<Request>)
    ensures Attempts(a + b) == Attempts(a) + Attempts(b)
    decreases |b|
  {
    if b != [] {
      AttemptsAppend(a, b[..|b| - 1]);
      assert (a + b)[..|a + b| - 1] == a + b[..|b| - 1];
    } else {
      assert a + b == a;
    }
  }

  /** Counting over adjacent stretches of one log adds up. */
  lemma AttemptsSplit(log: seq<Request>, a: nat, b: nat)
    requires a <= b <= |log|
    ensures Attempts(log[a..]) == Attempts(log[a..b]) + Attempts(log[b..])
  {
    assert log[a..] == log[a..b] + log[b..];
    AttemptsAppend(log[a..b], log[b..]);
  }

  /** Counting over a log that grew from `log1` adds the new requests. */
  lemma AttemptsExtend(log1: seq<Request>, log: seq<Request>, from: nat)
    requires log1 <= log && from <= |log1|
    ensures Attempts(log[from..]) == Attempts(log1[from..]) + Attempts(log[|log1|..])
  {
    AttemptsSplit(log, from, |log1|);
    assert log[from..|log1|] == log1[from..];
  }

  /** Attempts that are all `req` before and after the end of `log1` are
      all `req` throughout. */
  lemma AttemptsAreJoin(log1: seq<Request>, log: seq<Request>, from: nat, req: Request)
    requires log1 <= log && from <= |log1|
    requires AttemptsAre(log1, from, req) && AttemptsAre(log, |log1|, req)
    ensures AttemptsAre(log, from, req)
  {
    forall j | from <= j < |log| && IsAttempt(log[j])
      ensures log[j] == req
    {
      if j < |log1| {
        assert log[j] == log1[j];
      }
    }
  }

  lemma AttemptsSingle(req: Request)
    ensures Attempts([req]) == if IsAttempt(req) then 1 else 0
  {
    assert [req][..0] == [];
  }

  lemma {:induction false} HousekeepingHasNoAttempts(log: seq<Request>, from: nat, server: string)
    requires from <= |log| && Housekeeping(log, from, server)
    ensures Attempts(log[from..]) == 0
    decreases |log| - from
  {
    if from < |log| {
      var n := |log| - 1;
      assert Housekeeping(log[..n], from, server);
      HousekeepingHasNoAttempts(log[..n], from, server);
      assert log[from..][..|log[from..]| - 1] == log[..n][from..];
    }
  }

  /** The first tool named `tool`, as `next(...)` finds it. */
  method FindTool(tools: seq<ToolInfo>, tool: string) returns (found: Option<ToolInfo>)
    ensures found.None? <==> !HasTool(tools, tool)
    ensures found.Some? ==>
              exists i :: 0 <= i < |tools| && tools[i] == found.value && found.value.name == tool &&
                          forall k :: 0 <= k < i ==> tools[k].name != tool
  {
    var i := 0;
    while i < |tools|
      invariant 0 <= i <= |tools|
      invariant forall k :: 0 <= k < i ==> tools[k].name != tool
    {
      if tools[i].name == tool {
        return Some(tools[i]);
      }
      i := i + 1;
    }
    return None;
  }

  /** The loop collecting the non-empty texts of a tool result. */
  method CollectTexts(items: seq<ContentItem>) returns (ts: seq<string>)
    ensures ts == Texts(items)
  {
    ts := [];
    var i := 0;
    while i < |items|
      invariant 0 <= i <= |items|
      invariant ts == Texts(items[..i])
    {
      assert items[..i + 1][..i] == items[..i];
      if items[i].text.Some? && items[i].text.value != "" {
        ts := ts + [items[i].text.value];
      }
      i := i + 1;
    }
    assert items[..i] == items;
  }

  // ------------------------------------------------------------ the server

  class Server {
    const name: string
    const config: seq<(string, Json)>
    const remote: Remote
    /** The live `ClientSession`, identified by the log position of the
        request that created it. */
    var session: Option<nat>
    /** The contexts entered on the exit stack, oldest first. */
    var stack: seq<Context>
    var toolsCache: seq<ToolInfo>
    var resourcesCache: seq<ResourceInfo>

    /** A server without a session holds no open context. */
    ghost predicate Valid()
      reads this
    {
      session.None? ==> stack == []
    }

    /** What `cleanup` leaves: no session, no context, both caches empty. */
    ghost predicate Cleared()
      reads this
    {
      session.None? && stack == [] && toolsCache == [] && resourcesCache == []
    }

    constructor (name: string, config: seq<(string, Json)>, remote: Remote)
      ensures this.name == name && this.config == config && this.remote == remote
      ensures session.None? && stack == [] && toolsCache == [] && resourcesCache == []
      ensures Valid()
    {
      this.name := name;
      this.config := config;
      this.remote := remote;
      session := None;
      stack := [];
      toolsCache := [];
      resourcesCache := [];
    }

    /** `cleanup`: drop the session, close every context, empty both caches. */
    method Cleanup()
      modifies this, remote
      ensures session.None? && stack == [] && toolsCache == [] && resourcesCache == []
      ensures remote.log == old(remote.log) + [CloseAll(name)]
      ensures Valid()
    {
      session := None;
      remote.Close(name);
      stack := [];
      toolsCache := [];
      resourcesCache := [];
    }

    /** `_cache_tools`: without a session it raises; a failed request leaves
        the cache as it was; otherwise the cache is rebuilt from the reply. */
    method CacheTools() returns (r: Result<()>)
      modifies this, remote
      ensures session == old(session) && stack == old(stack) && resourcesCache == old(resourcesCache)
      ensures old(session).None? ==>
                r == Err(Error(RuntimeError, "服务器未初始化: " + name)) &&
                remote.log == old(remote.log) && toolsCache == old(toolsCache)
      ensures old(session).Some? ==> remote.log == old(remote.log) + [Request.ListTools(name)]
      ensures old(session).Some? && remote.toolLists(|old(remote.log)|).Err? ==>
                r == Err(remote.toolLists(|old(remote.log)|).error) && toolsCache == old(toolsCache)
      ensures old(session).Some? && remote.toolLists(|old(remote.log)|).Ok? ==>
                r == Ok(()) && toolsCache == ToolsFrom(remote.toolLists(|old(remote.log)|).value)
    {
      if session.None? {
        return Err(Error(RuntimeError, "服务器未初始化: " + name));
      }
      var reply := remote.GetTools(name);
      if reply.Err? {
        return Err(reply.error);
      }
      var fields := reply.value;
      toolsCache := [];
      var i := 0;
      while i < |fields|
        invariant 0 <= i <= |fields|
        invariant toolsCache == ToolsFrom(fields[..i])
        invariant session == old(session) && stack == old(stack) && resourcesCache == old(resourcesCache)
        invariant remote.log == old(remote.log) + [Request.ListTools(name)]
      {
        assert fields[..i + 1][..i] == fields[..i];
        if fields[i].field == "tools" {
          var tools := fields[i].tools;
          var j := 0;
          while j < |tools|
            invariant 0 <= j <= |tools|
            invariant toolsCache == ToolsFrom(fields[..i]) + ToolInfos(tools[..j])
            invariant session == old(session) && stack == old(stack) && resourcesCache == old(resourcesCache)
            invariant remote.log == old(remote.log) + [Request.ListTools(name)]
          {
            assert ToolInfos(tools[..j + 1]) == ToolInfos(tools[..j]) + [InfoOf(tools[j])];
            toolsCache := toolsCache + [InfoOf(tools[j])];
            j := j + 1;
          }
          assert tools[..j] == tools;
        }
        i := i + 1;
      }
      assert fields[..i] == fields;
      r := Ok(());
    }

    /** `_cache_resources`: without a session it raises; otherwise the cache
        is rebuilt from the reply and a failed request leaves it empty. */
    method CacheResources() returns (r: Result<()>)
      modifies this, remote
      ensures session == old(session) && stack == old(stack) && toolsCache == old(toolsCache)
      ensures old(session).None? ==>
                r == Err(Error(RuntimeError, "服务器未初始化: " + name)) &&
                remote.log == old(remote.log) && resourcesCache == old(resourcesCache)
      ensures old(session).Some? ==>
                r == Ok(()) && remote.log == old(remote.log) + [Request.ListResources(name)] &&
                resourcesCache == ResourcesFrom(remote.resourceLists(|old(remote.log)|))
    {
      if session.None? {
        return Err(Error(RuntimeError, "服务器未初始化: " + name));
      }
      resourcesCache := [];
      var reply := remote.GetResources(name);
      r := Ok(());
      if reply.Err? {
        return;
      }
      match reply.value {
        case WithResources(rs) =>
          AppendResources(rs);
        case AsTuple(items) =>
          AppendTuples(items);
        case OtherResources =>
      }
    }

    /** The loop of `_cache_resources` over one list of resources. */
    method AppendResources(rs: seq<Resource>)
      modifies this
      ensures resourcesCache == old(resourcesCache) + ResourceInfos(rs)
      ensures session == old(session) && stack == old(stack) && toolsCache == old(toolsCache)
    {
      var j := 0;
      while j < |rs|
        invariant 0 <= j <= |rs|
        invariant resourcesCache == old(resourcesCache) + ResourceInfos(rs[..j])
        invariant session == old(session) && stack == old(stack) && toolsCache == old(toolsCache)
      {
        assert ResourceInfos(rs[..j + 1]) == ResourceInfos(rs[..j]) + [ResourceInfoOf(rs[j])];
        resourcesCache := resourcesCache + [ResourceInfoOf(rs[j])];
        j := j + 1;
      }
      assert rs[..j] == rs;
    }

    /** The loop of `_cache_resources` over the older tuple reply. */
    method AppendTuples(items: seq<TupleItem>)
      modifies this
      ensures resourcesCache == old(resourcesCache) + TupleResources(items)
      ensures session == old(session) && stack == old(stack) && toolsCache == old(toolsCache)
    {
      var i := 0;
      while i < |items|
        invariant 0 <= i <= |items|
        invariant resourcesCache == old(resourcesCache) + TupleResources(items[..i])
        invariant session == old(session) && stack == old(stack) && toolsCache == old(toolsCache)
      {
        assert items[..i + 1][..i] == items[..i];
        if items[i].Tagged? && items[i].tag == "resources" {
          AppendResources(items[i].resources);
        }
        i := i + 1;
      }
      assert items[..i] == items;
    }

    /** `list_tools`: the cache, refreshed first when it is empty. */
    method ListTools() returns (r: Result<seq<ToolInfo>>)
      modifies this, remote
      ensures session == old(session) && stack == old(stack) && resourcesCache == old(resourcesCache)
      ensures old(toolsCache) != [] ==>
                r == Ok(old(toolsCache)) && toolsCache == old(toolsCache) && remote.log == old(remote.log)
      ensures old(toolsCache) == [] && old(session).None? ==>
                r == Err(Error(RuntimeError, "服务器未初始化: " + name)) && remote.log == old(remote.log)
      ensures old(toolsCache) == [] && old(session).Some? ==>
                remote.log == old(remote.log) + [Request.ListTools(name)] &&
                r == CachedOrListed([], remote.toolLists(|old(remote.log)|))
      ensures r.Ok? ==> r.value == toolsCache
      ensures toolsCache == RefreshedCache(old(toolsCache), old(session), remote.toolLists(|old(remote.log)|))
    {
      if toolsCache == [] {
        var c := CacheTools();
        if c.Err? {
          return Err(c.error);
        }
      }
      r := Ok(toolsCache);
    }

    /** `list_resources`: the cache, refreshed first when it is empty; a
        refresh that raises (no session) yields an empty list. */
    method ListResources() returns (r: seq<ResourceInfo>)
      modifies this, remote
      ensures session == old(session) && stack == old(stack) && toolsCache == old(toolsCache)
      ensures old(resourcesCache) != [] ==> r == old(resourcesCache) && remote.log == old(remote.log)
      ensures old(resourcesCache) == [] && old(session).None? ==> r == [] && remote.log == old(remote.log)
      ensures old(resourcesCache) == [] && old(session).Some? ==>
                remote.log == old(remote.log) + [Request.ListResources(name)] &&
                r == ResourcesFrom(remote.resourceLists(|old(remote.log)|))
      ensures r == resourcesCache
    {
      if resourcesCache == [] {
        var c := CacheResources();
        if c.Err? {
          return [];
        }
      }
      r := resourcesCache;
    }

    /** `list_prompts`: never raises; without a session, or on any failure,
        the list is empty. */
    method ListPrompts() returns (r: seq<PromptInfo>)
      modifies remote
      ensures old(session).None? ==> r == [] && remote.log == old(remote.log)
      ensures old(session).Some? ==>
                remote.log == old(remote.log) + [Request.ListPrompts(name)] &&
                r == PromptsFrom(remote.promptLists(|old(remote.log)|))
    {
      if session.None? {
        return [];
      }
      var reply := remote.GetPrompts(name);
      r := [];
      match reply {
        case Err(_) =>
        case Ok(WithPrompts(ps)) =>
          r := CollectSdkPrompts(ps);
        case Ok(AsDict(fs)) =>
          var v := Lookup(fs, "prompts");
          if v.Some? && v.value.JArr? {
            r := CollectDictPrompts(v.value.items);
          }
        case Ok(OtherPrompts) =>
      }
    }

    /** The loop of `list_prompts` over the SDK's prompt objects. */
    static method CollectSdkPrompts(ps: seq<Prompt>) returns (r: seq<PromptInfo>)
      ensures r == SdkPrompts(ps)
    {
      r := [];
      var j := 0;
      while j < |ps|
        invariant 0 <= j <= |ps|
        invariant r == SdkPrompts(ps[..j])
      {
        assert SdkPrompts(ps[..j + 1]) == SdkPrompts(ps[..j]) + [SdkPrompt(ps[j])];
        r := r + [SdkPrompt(ps[j])];
        j := j + 1;
      }
      assert ps[..j] == ps;
    }

    /** The loop of `list_prompts` over a dict reply's "prompts" list: a
        member that is not a dict makes the whole list empty. */
    static method CollectDictPrompts(xs: seq<Json>) returns (r: seq<PromptInfo>)
      ensures r == if AllObjects(xs) then DictPrompts(xs) else []
    {
      r := [];
      var j := 0;
      while j < |xs|
        invariant 0 <= j <= |xs|
        invariant r == DictPrompts(xs[..j])
        invariant AllObjects(xs[..j])
      {
        if !xs[j].JObj? {
          return [];
        }
        assert DictPrompts(xs[..j + 1]) == DictPrompts(xs[..j]) + [DictPrompt(xs[j])];
        r := r + [DictPrompt(xs[j])];
        j := j + 1;
      }
      assert xs[..j] == xs;
    }

    /** `execute_tool`: the tool must be listed; the tool is called once and
        its result normalised; every failure surfaces as a RuntimeError or
        ValueError. */
    method ExecuteTool(tool: string, arguments: Json) returns (r: Result<Json>)
      modifies this, remote
      ensures session == old(session) && stack == old(stack) && resourcesCache == old(resourcesCache)
      ensures old(session).None? ==>
                r == Err(Error(RuntimeError, "服务器 " + name + " 未初始化或连接已断开")) &&
                remote.log == old(remote.log) && toolsCache == old(toolsCache)
      ensures old(session).Some? ==>
                var t0 := |old(remote.log)|;
                var refresh := old(toolsCache) == [];
                var listed := CachedOrListed(old(toolsCache), remote.toolLists(t0));
                var calls := listed.Ok? && HasTool(listed.value, tool);
                r == ToolCallOutcome(tool, listed, remote.toolCalls(if refresh then t0 + 1 else t0)) &&
                remote.log == old(remote.log) + ToolRequests(name, tool, arguments, refresh, calls)
      ensures toolsCache == RefreshedCache(old(toolsCache), old(session), remote.toolLists(|old(remote.log)|))
      ensures old(remote.log) <= remote.log
      ensures Attempts(remote.log[|old(remote.log)|..]) <= 1
      ensures AttemptsAre(remote.log, |old(remote.log)|, CallTool(name, tool, arguments))
      ensures Housekeeping(remote.log, |old(remote.log)|, name) || remote.log[|remote.log| - 1] == CallTool(name, tool, arguments)
      ensures r.Ok? ==>
                remote.log != [] && remote.log[|remote.log| - 1] == CallTool(name, tool, arguments) &&
                remote.toolCalls(|remote.log| - 1).Ok? && r.value == Normalised(remote.toolCalls(|remote.log| - 1).value)
    {
      ghost var log0 := remote.log;
      ghost var refresh := toolsCache == [];
      ghost var live := session.Some?;
      r := RunTool(tool, arguments);
      if live {
        ghost var listed := CachedOrListed(old(toolsCache), remote.toolLists(|log0|));
        ghost var calls := listed.Ok? && HasTool(listed.value, tool);
        ghost var reqs := ToolRequests(name, tool, arguments, refresh, calls);
        assert remote.log == log0 + reqs;
        ToolRequestsAccounting(log0, name, tool, arguments, refresh, calls);
        assert log0 <= remote.log;
        assert r.Ok? ==> calls;
      } else {
        assert remote.log[|log0|..] == [];
      }
    }

    /** The steps of `execute_tool`, without the accounting of the log. */
    method RunTool(tool: string, arguments: Json) returns (r: Result<Json>)
      modifies this, remote
      ensures session == old(session) && stack == old(stack) && resourcesCache == old(resourcesCache)
      ensures old(session).None? ==>
                r == Err(Error(RuntimeError, "服务器 " + name + " 未初始化或连接已断开")) &&
                remote.log == old(remote.log) && toolsCache == old(toolsCache)
      ensures old(session).Some? ==>
                var t0 := |old(remote.log)|;
                var refresh := old(toolsCache) == [];
                var listed := CachedOrListed(old(toolsCache), remote.toolLists(t0));
                var calls := listed.Ok? && HasTool(listed.value, tool);
                r == ToolCallOutcome(tool, listed, remote.toolCalls(if refresh then t0 + 1 else t0)) &&
                remote.log == old(remote.log) + ToolRequests(name, tool, arguments, refresh, calls)
      ensures toolsCache == RefreshedCache(old(toolsCache), old(session), remote.toolLists(|old(remote.log)|))
    {
      if session.None? {
        return Err(Error(RuntimeError, "服务器 " + name + " 未初始化或连接已断开"));
      }
      ghost var log0 := remote.log;
      var listed := ListTools();
      if listed.Err? {
        assert remote.log == log0 + [Request.ListTools(name)];
        return Err(ListingFailure(listed.error));
      }
      var found := FindTool(listed.value, tool);
      if found.None? {
        assert old(toolsCache) != [] ==> remote.log == log0;
        return Err(Error(ValueError, "工具未找到: " + tool));
      }
      var call := remote.Call(name, tool, arguments);
      if call.Err? {
        return Err(Error(RuntimeError, "工具 " + tool + " 执行失败: " + call.error.message));
      }
      match call.value {
        case ContentResult(items, display) =>
          var ts := CollectTexts(items);
          r := Ok(if ts != [] then JStr(Join("\n", ts)) else JStr(display));
        case AttrObject(attrs) =>
          r := Ok(JObj(PublicAttrs(attrs)));
        case Plain(v) =>
          r := Ok(v);
      }
    }

    /** The three steps of opening a session over `target`. */
    method Handshake(target: Target) returns (r: Result<()>)
      modifies this, remote
      ensures toolsCache == old(toolsCache) && resourcesCache == old(resourcesCache)
      ensures r == HandshakeOutcome(target, remote.opening(|old(remote.log)|),
                                    remote.creating(|old(remote.log)| + 1),
                                    remote.initializing(|old(remote.log)| + 2))
      ensures r.Ok? ==>
                session == Some(|old(remote.log)| + 1) &&
                stack == old(stack) + [TransportContext(target), SessionContext] &&
                remote.log == old(remote.log) + [OpenTransport(name, target), CreateSession(name), InitializeSession(name)]
      ensures old(remote.log) <= remote.log && Housekeeping(remote.log, |old(remote.log)|, name)
    {
      ghost var log0 := remote.log;
      var open := remote.Open(name, target);
      HousekeepingExtend(log0, |log0|, name, OpenTransport(name, target));
      if open.Err? {
        return Err(PhaseError(target, OpenPhase, open.error));
      }
      ghost var log1 := remote.log;
      stack := stack + [TransportContext(target)];
      r := StartSession(target);
      HousekeepingJoin(log1, remote.log, |log0|, name);
    }

    /** The last two steps of a handshake: create the session, then
        initialise it. */
    method StartSession(target: Target) returns (r: Result<()>)
      modifies this, remote
      ensures toolsCache == old(toolsCache) && resourcesCache == old(resourcesCache)
      ensures r == HandshakeOutcome(target, Ok(()), remote.creating(|old(remote.log)|),
                                    remote.initializing(|old(remote.log)| + 1))
      ensures r.Ok? ==>
                session == Some(|old(remote.log)|) &&
                stack == old(stack) + [SessionContext] &&
                remote.log == old(remote.log) + [CreateSession(name), InitializeSession(name)]
      ensures old(remote.log) <= remote.log && Housekeeping(remote.log, |old(remote.log)|, name)
    {
      ghost var log0 := remote.log;
      var t0 := |remote.log|;
      var create := remote.Create(name);
      HousekeepingExtend(log0, t0, name, CreateSession(name));
      if create.Err? {
        return Err(PhaseError(target, CreatePhase, create.error));
      }
      ghost var log1 := remote.log;
      session := Some(t0);
      stack := stack + [SessionContext];
      var init := remote.Initialize(name);
      HousekeepingExtend(log1, t0, name, InitializeSession(name));
      if init.Err? {
        return Err(PhaseError(target, InitializePhase, init.error));
      }
      r := Ok(());
    }

    /** The `try` body of `initialize`: connect as the configuration says,
        then fill both caches. */
    method Connect() returns (r: Result<()>)
      modifies this, remote
      ensures old(remote.log) <= remote.log && Housekeeping(remote.log, |old(remote.log)|, name)
      ensures TargetOf(config).Err? ==> r == Err(TargetOf(config).error) && remote.log == old(remote.log)
      ensures TargetOf(config).Ok? ==>
                var t0 := |old(remote.log)|;
                var hs := HandshakeOutcome(TargetOf(config).value, remote.opening(t0),
                                           remote.creating(t0 + 1), remote.initializing(t0 + 2));
                (hs.Err? ==> r == hs) &&
                (hs.Ok? && remote.toolLists(t0 + 3).Err? ==> r == Err(remote.toolLists(t0 + 3).error)) &&
                (r.Ok? <==> hs.Ok? && remote.toolLists(t0 + 3).Ok?)
      ensures r.Ok? ==>
                var t0 := |old(remote.log)|;
                var target := TargetOf(config).value;
                TargetOf(config).Ok? &&
                session == Some(t0 + 1) &&
                stack == old(stack) + [TransportContext(target), SessionContext] &&
                remote.log == old(remote.log) + [OpenTransport(name, target), CreateSession(name),
                                                 InitializeSession(name), Request.ListTools(name), Request.ListResources(name)] &&
                toolsCache == ToolsFrom(remote.toolLists(t0 + 3).value) &&
                resourcesCache == ResourcesFrom(remote.resourceLists(t0 + 4))
    {
      var target := TargetOf(config);
      if target.Err? {
        return Err(target.error);
      }
      r := ConnectTo(target.value);
    }

    /** Connecting once the target is known: the handshake, then both caches. */
    method ConnectTo(target: Target) returns (r: Result<()>)
      modifies this, remote
      ensures old(remote.log) <= remote.log && Housekeeping(remote.log, |old(remote.log)|, name)
      ensures var t0 := |old(remote.log)|;
              var hs := HandshakeOutcome(target, remote.opening(t0),
                                         remote.creating(t0 + 1), remote.initializing(t0 + 2));
              (hs.Err? ==> r == hs) &&
              (hs.Ok? && remote.toolLists(t0 + 3).Err? ==> r == Err(remote.toolLists(t0 + 3).error)) &&
              (r.Ok? <==> hs.Ok? && remote.toolLists(t0 + 3).Ok?)
      ensures r.Ok? ==>
                var t0 := |old(remote.log)|;
                session == Some(t0 + 1) &&
                stack == old(stack) + [TransportContext(target), SessionContext] &&
                remote.log == old(remote.log) + [OpenTransport(name, target), CreateSession(name),
                                                 InitializeSession(name), Request.ListTools(name), Request.ListResources(name)] &&
                toolsCache == ToolsFrom(remote.toolLists(t0 + 3).value) &&
                resourcesCache == ResourcesFrom(remote.resourceLists(t0 + 4))
    {
      ghost var t0 := |remote.log|;
      r := Handshake(target);
      if r.Err? {
        return;
      }
      ghost var log3 := remote.log;
      r := CacheTools();
      HousekeepingExtend(log3, t0, name, Request.ListTools(name));
      if r.Err? {
        return;
      }
      ghost var log4 := remote.log;
      var _ := CacheResources();
      HousekeepingExtend(log4, t0, name, Request.ListResources(name));
    }

    /** `initialize`: connect, and on any failure clean up and raise. */
    method Initialize() returns (r: Result<()>)
      modifies this, remote
      ensures Valid()
      ensures r.Ok? <==> Connects(config, remote, |old(remote.log)|)
      ensures old(remote.log) <= remote.log && Housekeeping(remote.log, |old(remote.log)|, name)
      ensures r.Err? ==>
                session.None? && stack == [] && toolsCache == [] && resourcesCache == [] &&
                remote.log != [] && remote.log[|remote.log| - 1] == CloseAll(name)
      ensures TargetOf(config).Err? ==>
                r == Err(TargetOf(config).error) && remote.log == old(remote.log) + [CloseAll(name)]
      ensures TargetOf(config).Ok? ==>
                var t0 := |old(remote.log)|;
                var hs := HandshakeOutcome(TargetOf(config).value, remote.opening(t0),
                                           remote.creating(t0 + 1), remote.initializing(t0 + 2));
                (hs.Err? ==> r == hs) &&
                (hs.Ok? && remote.toolLists(t0 + 3).Err? ==> r == Err(remote.toolLists(t0 + 3).error)) &&
                (r.Ok? <==> hs.Ok? && remote.toolLists(t0 + 3).Ok?)
      ensures r.Ok? ==>
                var t0 := |old(remote.log)|;
                var target := TargetOf(config).value;
                TargetOf(config).Ok? &&
                session == Some(t0 + 1) &&
                stack == old(stack) + [TransportContext(target), SessionContext] &&
                remote.log == old(remote.log) + [OpenTransport(name, target), CreateSession(name),
                                                 InitializeSession(name), Request.ListTools(name), Request.ListResources(name)] &&
                toolsCache == ToolsFrom(remote.toolLists(t0 + 3).value) &&
                resourcesCache == ResourcesFrom(remote.resourceLists(t0 + 4))
    {
      r := Connect();
      if r.Err? {
        ghost var before := remote.log;
        Cleanup();
        assert remote.log[..|before|] == before;
      }
    }
  }

  /** `server = MCPServer(name, config)` followed by `server.initialize()`:
      the new server keeps a session only when it initializes. */
  method StartServer(name: string, config: seq<(string, Json)>, remote: Remote) returns (s: Server, r: Result<()>)
    modifies remote
    ensures fresh(s) && s.name == name && s.config == config && s.remote == remote && s.Valid()
    ensures r.Ok? <==> Connects(config, remote, |old(remote.log)|)
    ensures r.Ok? ==>
              s.session.Some? && |remote.log| == |old(remote.log)| + 5 &&
              s.toolsCache == ToolsFrom(remote.toolLists(|old(remote.log)| + 3).value)
    ensures r.Err? ==> s.session.None?
    ensures old(remote.log) <= remote.log && Housekeeping(remote.log, |old(remote.log)|, name)
  {
    s := new Server(name, config, remote);
    r := s.Initialize();
  }

  // ----------------------------------------------------------- the manager

  ghost predicate Distinct(names: seq<string>) {
    forall i, j :: 0 <= i < j < |names| ==> names[i] != names[j]
  }

  lemma DistinctCons(x: string, rest: seq<string>)
    ensures Distinct([x] + rest) <==> x !in rest && Distinct(rest)
  {
    var s := [x] + rest;
    if x !in rest && Distinct(rest) {
      forall i, j | 0 <= i < j < |s| ensures s[i] != s[j] {
        if i == 0 { assert s[j] == rest[j - 1]; } else { assert s[i] == rest[i - 1] && s[j] == rest[j - 1]; }
      }
    }
    if Distinct(s) {
      forall i, j | 0 <= i < j < |rest| ensures rest[i] != rest[j] {
        assert rest[i] == s[i + 1] && rest[j] == s[j + 1];
      }
      forall j | 0 <= j < |rest| ensures rest[j] != x {
        assert s[j + 1] == rest[j] && s[0] == x;
      }
    }
  }

  /** The key order of a dict after `del d[n]`. */
  function Without(names: seq<string>, n: string): (r: seq<string>)
    ensures forall m :: m in r <==> m in names && m != n
    ensures n !in names ==> r == names
    ensures Distinct(names) ==> Distinct(r)
    decreases |names|
  {
    if names == [] then []
    else
      DistinctCons(names[0], names[1..]);
      assert names == [names[0]] + names[1..];
      if names[0] == n then Without(names[1..], n)
      else
        DistinctCons(names[0], Without(names[1..], n));
        [names[0]] + Without(names[1..], n)
  }

  /** The closing requests `disconnect_all` sends, one per server in order. */
  function Closes(names: seq<string>): (r: seq<Request>)
    ensures |r| == |names| && forall k :: 0 <= k < |names| ==> r[k] == CloseAll(names[k])
  {
    seq(|names|, k requires 0 <= k < |names| => CloseAll(names[k]))
  }

  /** The failure messages that make the manager reconnect and retry. */
  predicate SignalsDisconnect(message: string) {
    Contains(message, "未初始化") || Contains(message, "连接已断开")
  }

  /** A server without a session fails a tool call, and a cache refresh,
      with a message that makes the manager reconnect. */
  lemma NoSessionSignalsDisconnect(name: string)
    ensures SignalsDisconnect("服务器 " + name + " 未初始化或连接已断开")
    ensures SignalsDisconnect("服务器未初始化: " + name)
  {
    var m := "服务器 " + name + " 未初始化或连接已断开";
    var p := "服务器 " + name + " ";
    assert m[|p|..|p| + |"未初始化"|] == "未初始化";
    ContainsAt(m, "未初始化", |p|);
    var n := "服务器未初始化: " + name;
    assert n[|"服务器"|..|"服务器"| + |"未初始化"|] == "未初始化";
    ContainsAt(n, "未初始化", |"服务器"|);
  }
  /** What `read_resource` on a registered server has done once the log has
      grown from position `t0` to `log`; `live` says whether the server held
      a session, and `at` is where the first read went: at `t0` on a live
      server, after the five requests of `initialize` otherwise, and None
      exactly when that `initialize` failed.
      - The only attempts are reads of `uri`, at most two, and an answer
        with content is the reply to the last request.
      - A first read that succeeds, or fails without signalling a lost
        connection, is the last request and decides the answer.
      - After a lost connection the server is cleaned up (one request) and
        initialised again from `at + 2`. When that connects, the second
        read follows its five requests and decides the answer; when it does
        not, there is no second read and the answer is an error. */
  ghost predicate ReadOutcome(remote: Remote, log: seq<Request>, t0: nat, name: string,
                              config: seq<(string, Json)>, live: bool, uri: string,
                              r: Result<(string, Option<string>)>, at: Option<nat>)
  {
    var read := Request.ReadResource(name, uri);
    t0 <= |log| && Attempts(log[t0..]) <= 2 && AttemptsAre(log, t0, read) &&
    (at.None? <==> !live && !Connects(config, remote, t0)) &&
    (at.Some? ==> at.value == if live then t0 else t0 + 5) &&
    (r.Ok? ==>
       log != [] && log[|log| - 1] == read && remote.resourceReads(|log| - 1).Ok? &&
       r.value == ContentOf(remote.resourceReads(|log| - 1).value)) &&
    (at.None? ==>
       r.Err? && StartsWith(r.error.message, "重新初始化服务器 " + name + " 失败: ") && Attempts(log[t0..]) == 0) &&
    (at.Some? ==>
       t0 <= at.value < |log| && log[at.value] == read && Attempts(log[t0..at.value]) == 0 &&
       (match remote.resourceReads(at.value)
        case Ok(reply) => at.value == |log| - 1 && r == Ok(ContentOf(reply))
        case Err(e) =>
          if !SignalsDisconnect(e.message) then
            at.value == |log| - 1 &&
            r == Err(Error(RuntimeError, "从服务器 " + name + " 读取资源 " + uri + " 失败: " + e.message))
          else
            (r.Err? ==> StartsWith(r.error.message, "重试读取资源失败: ")) &&
            (Connects(config, remote, at.value + 2) ==>
               |log| == at.value + 8 && log[at.value + 7] == read &&
               Attempts(log[t0..]) == 2 && r == ReadRetryOutcome(remote, at.value + 2)) &&
            (!Connects(config, remote, at.value + 2) ==> r.Err? && Attempts(log[t0..]) == 1)))
  }

  /** Initialising failed, so nothing was read. */
  lemma ReadOutcomeUninitialised(remote: Remote, log: seq<Request>, t0: nat, name: string,
                                 config: seq<(string, Json)>, uri: string, r: Result<(string, Option<string>)>)
    requires !Connects(config, remote, t0)
    requires t0 <= |log| && r.Err? && StartsWith(r.error.message, "重新初始化服务器 " + name + " 失败: ")
    requires Attempts(log[t0..]) == 0 && AttemptsAre(log, t0, Request.ReadResource(name, uri))
    ensures ReadOutcome(remote, log, t0, name, config, false, uri, r, None)
  {
  }

  /** The first read, the last request, decides the answer. */
  lemma ReadOutcomeFirst(remote: Remote, log: seq<Request>, t0: nat, name: string,
                         config: seq<(string, Json)>, live: bool, uri: string, r: Result<(string, Option<string>)>, at: nat)
    requires (live || Connects(config, remote, t0)) && at == if live then t0 else t0 + 5
    requires t0 <= at == |log| - 1 && log[at] == Request.ReadResource(name, uri)
    requires Attempts(log[t0..at]) == 0 && AttemptsAre(log, t0, Request.ReadResource(name, uri))
    requires remote.resourceReads(at).Ok? ==> r == Ok(ContentOf(remote.resourceReads(at).value))
    requires remote.resourceReads(at).Err? ==>
               !SignalsDisconnect(remote.resourceReads(at).error.message) &&
               r == Err(Error(RuntimeError, "从服务器 " + name + " 读取资源 " + uri + " 失败: " +
                                            remote.resourceReads(at).error.message))
    ensures ReadOutcome(remote, log, t0, name, config, live, uri, r, Some(at))
  {
    AttemptsSplit(log, t0, at);
    assert log[at..] == [Request.ReadResource(name, uri)];
    AttemptsSingle(Request.ReadResource(name, uri));
  }

  /** The first read, at the end of `log1`, lost the connection, and the
      retry grew the log to `log` as `RetryRead` promises. */
  lemma ReadOutcomeRetried(remote: Remote, log1: seq<Request>, log: seq<Request>, t0: nat, name: string,
                           config: seq<(string, Json)>, live: bool, uri: string,
                           r: Result<(string, Option<string>)>, at: nat)
    requires (live || Connects(config, remote, t0)) && at == if live then t0 else t0 + 5
    requires t0 <= at == |log1| - 1 && log1[at] == Request.ReadResource(name, uri)
    requires Attempts(log1[t0..at]) == 0 && AttemptsAre(log1, t0, Request.ReadResource(name, uri))
    requires remote.resourceReads(at).Err? && SignalsDisconnect(remote.resourceReads(at).error.message)
    requires log1 <= log
    requires Attempts(log[|log1|..]) <= 1 && AttemptsAre(log, |log1|, Request.ReadResource(name, uri))
    requires r.Err? ==> StartsWith(r.error.message, "重试读取资源失败: ")
    requires r.Ok? ==>
               log != [] && log[|log| - 1] == Request.ReadResource(name, uri) &&
               remote.resourceReads(|log| - 1).Ok? && r.value == ContentOf(remote.resourceReads(|log| - 1).value)
    requires Connects(config, remote, |log1| + 1) ==>
               |log| == |log1| + 7 && log[|log1| + 6] == Request.ReadResource(name, uri) &&
               Attempts(log[|log1|..]) == 1 && r == ReadRetryOutcome(remote, |log1| + 1)
    requires !Connects(config, remote, |log1| + 1) ==> r.Err? && Attempts(log[|log1|..]) == 0
    ensures ReadOutcome(remote, log, t0, name, config, live, uri, r, Some(at))
  {
    assert log[t0..at] == log1[t0..at];
    assert log[at] == log1[at];
    assert Attempts(log1[t0..]) == 1 by {
      AttemptsSplit(log1, t0, at);
      assert log1[at..] == [Request.ReadResource(name, uri)];
      AttemptsSingle(Request.ReadResource(name, uri));
    }
    AttemptsExtend(log1, log, t0);
    AttemptsAreJoin(log1, log, t0, Request.ReadResource(name, uri));
  }

  /** What the retry of the manager's `execute_tool` has done once the log
      has grown from `log0` to `log`: at most one attempt, a call of `tool`;
      an error names the retry; an answer is the normalised reply to the
      last request. When initialising from `|log0| + 1` connects, the answer
      is `ToolRetryOutcome`, and a listed tool was called; when it does not,
      nothing was called and the answer is an error. */
  ghost predicate RetriedTool(remote: Remote, log0: seq<Request>, log: seq<Request>, name: string,
                              config: seq<(string, Json)>, tool: string, arguments: Json, r: Result<Json>)
  {
    var call := CallTool(name, tool, arguments);
    var t := |log0| + 1;
    log0 <= log && Attempts(log[|log0|..]) <= 1 && AttemptsAre(log, |log0|, call) &&
    (r.Err? ==> StartsWith(r.error.message, "重试执行工具失败: ")) &&
    (r.Ok? ==>
       log != [] && log[|log| - 1] == call && remote.toolCalls(|log| - 1).Ok? &&
       r.value == Normalised(remote.toolCalls(|log| - 1).value)) &&
    (Connects(config, remote, t) ==>
       r == ToolRetryOutcome(remote, t, tool) &&
       (ListedAfterConnect(remote, t).Ok? && HasTool(ListedAfterConnect(remote, t).value, tool) ==> Attempts(log[|log0|..]) == 1)) &&
    (!Connects(config, remote, t) ==> r.Err? && Attempts(log[|log0|..]) == 0)
  }

  /** Initialising again failed, so nothing was called. */
  lemma RetriedToolUnconnected(remote: Remote, log0: seq<Request>, log: seq<Request>, name: string,
                               config: seq<(string, Json)>, tool: string, arguments: Json, msg: string)
    requires log0 <= log && !Connects(config, remote, |log0| + 1)
    requires Housekeeping(log, |log0|, name) && Attempts(log[|log0|..]) == 0
    ensures RetriedTool(remote, log0, log, name, config, tool, arguments,
                        Err(Error(RuntimeError, "重试执行工具失败: " + msg)))
  {
  }

  /** Initialising again connected with the six requests up to `log1`
      (the cache then holds the listing at `|log0| + 4`), and the call on
      the live session grew the log to `log` as `CallOnce` promises. */
  lemma RetriedToolCalled(remote: Remote, log0: seq<Request>, log1: seq<Request>, log: seq<Request>, name: string,
                          config: seq<(string, Json)>, tool: string, arguments: Json,
                          retry: Result<Json>, r: Result<Json>)
    requires log0 <= log1 <= log && |log1| == |log0| + 6 && Connects(config, remote, |log0| + 1)
    requires Housekeeping(log1, |log0|, name) && Attempts(log1[|log0|..]) == 0
    requires Attempts(log[|log1|..]) <= 1 && AttemptsAre(log, |log1|, CallTool(name, tool, arguments))
    requires retry.Ok? ==>
               log != [] && log[|log| - 1] == CallTool(name, tool, arguments) &&
               remote.toolCalls(|log| - 1).Ok? && retry.value == Normalised(remote.toolCalls(|log| - 1).value)
    requires var cache := ToolsFrom(remote.toolLists(|log0| + 4).value);
             var listed := CachedOrListed(cache, remote.toolLists(|log1|));
             retry == ToolCallOutcome(tool, listed, remote.toolCalls(if cache == [] then |log1| + 1 else |log1|)) &&
             (listed.Ok? && HasTool(listed.value, tool) ==> Attempts(log[|log1|..]) == 1)
    requires r == if retry.Err? then Err(Error(RuntimeError, "重试执行工具失败: " + retry.error.message)) else retry
    ensures RetriedTool(remote, log0, log, name, config, tool, arguments, r)
  {
    AttemptsExtend(log1, log, |log0|);
    AttemptsAreJoin(log1, log, |log0|, CallTool(name, tool, arguments));
  }

  /** What the manager's `execute_tool` on a registered server has done
      once the log has grown from position `t0` to `log`; `live` says whether
      the server held a session and `cache` is the tool cache it had.
      `first` is the first attempt's outcome, `FirstToolOutcome`, and None
      exactly when the server had to be initialised and that failed; `mid`
      is where the first attempt ended.
      - The only attempts are calls of `tool`, at most two, at most one of
        them before `mid`, and an answer is the normalised reply to the last
        request.
      - A first call that succeeds, or fails without signalling a lost
        connection, decides the answer.
      - After a lost connection the server is cleaned up and initialised
        again from `mid + 1`. When that connects, the answer is the retry's
        outcome; when it does not, there is no second call and the answer
        is an error. */
  ghost predicate ToolOutcome(remote: Remote, log: seq<Request>, t0: nat, name: string,
                              config: seq<(string, Json)>, live: bool, cache: seq<ToolInfo>,
                              tool: string, arguments: Json,
                              r: Result<Json>, first: Option<Result<Json>>, mid: nat)
  {
    var call := CallTool(name, tool, arguments);
    FirstPinned(remote, t0, config, live, cache, tool, first, mid) &&
    t0 <= mid <= |log| && Attempts(log[t0..mid]) <= 1 &&
    Attempts(log[t0..]) <= 2 && AttemptsAre(log, t0, call) &&
    (r.Ok? ==>
       log != [] && log[|log| - 1] == call && remote.toolCalls(|log| - 1).Ok? &&
       r.value == Normalised(remote.toolCalls(|log| - 1).value)) &&
    (first.None? ==>
       r.Err? && StartsWith(r.error.message, "重新初始化服务器 " + name + " 失败: ") && Attempts(log[t0..]) == 0) &&
    (first.Some? ==>
       match first.value
       case Ok(_) => r == first.value && Attempts(log[t0..]) == 1
       case Err(e) =>
         if !SignalsDisconnect(e.message) then
           r == Err(Error(RuntimeError, "在服务器 " + name + " 上执行工具 " + tool + " 失败: " + e.message)) &&
           Attempts(log[t0..]) <= 1
         else RetryPinned(remote, log, mid, config, tool, r))
  }

  /** The first attempt of the manager's `execute_tool` is the scripted one:
      none exactly when the server had to be initialised and that failed,
      else `FirstToolOutcome`, ending at `mid` after the `FirstLen`
      requests it sends. */
  ghost predicate FirstPinned(remote: Remote, t0: nat, config: seq<(string, Json)>, live: bool,
                              cache: seq<ToolInfo>, tool: string, first: Option<Result<Json>>, mid: nat)
  {
    (first.None? <==> !live && !Connects(config, remote, t0)) &&
    (first.Some? ==>
       (live || Connects(config, remote, t0)) && first.value == FirstToolOutcome(remote, t0, live, cache, tool) &&
       mid == t0 + FirstLen(remote, t0, live, cache, tool))
  }

  /** The retry after the first attempt, which ended at `mid`, lost the
      connection: the reconnect starts at `mid + 1`; when it connects the
      answer is the retry's outcome, and otherwise nothing more is called. */
  ghost predicate RetryPinned(remote: Remote, log: seq<Request>, mid: nat, config: seq<(string, Json)>,
                              tool: string, r: Result<Json>)
    requires mid <= |log|
  {
    (r.Err? ==> StartsWith(r.error.message, "重试执行工具失败: ")) &&
    (Connects(config, remote, mid + 1) ==>
       r == ToolRetryOutcome(remote, mid + 1, tool) &&
       (ListedAfterConnect(remote, mid + 1).Ok? && HasTool(ListedAfterConnect(remote, mid + 1).value, tool) ==>
          Attempts(log[mid..]) == 1)) &&
    (!Connects(config, remote, mid + 1) ==> r.Err? && Attempts(log[mid..]) == 0)
  }

  /** The first attempt decided the answer: initialising failed, or the
      call succeeded, or it failed without signalling a lost connection. */
  lemma ToolOutcomeFirst(remote: Remote, log: seq<Request>, t0: nat, name: string,
                         config: seq<(string, Json)>, live: bool, cache: seq<ToolInfo>, tool: string, arguments: Json,
                         r: Result<Json>, first: Option<Result<Json>>)
    requires first.None? <==> !live && !Connects(config, remote, t0)
    requires first.Some? ==>
               (live || Connects(config, remote, t0)) && first.value == FirstToolOutcome(remote, t0, live, cache, tool) &&
               |log| == t0 + FirstLen(remote, t0, live, cache, tool)
    requires t0 <= |log| && Attempts(log[t0..]) <= 1 && AttemptsAre(log, t0, CallTool(name, tool, arguments))
    requires first.None? ==>
               r.Err? && StartsWith(r.error.message, "重新初始化服务器 " + name + " 失败: ") && Attempts(log[t0..]) == 0
    requires first.Some? && first.value.Ok? ==> r == first.value && Attempts(log[t0..]) == 1
    requires first.Some? && first.value.Err? ==>
               !SignalsDisconnect(first.value.error.message) &&
               r == Err(Error(RuntimeError, "在服务器 " + name + " 上执行工具 " + tool + " 失败: " +
                                            first.value.error.message))
    requires r.Ok? ==>
               log != [] && log[|log| - 1] == CallTool(name, tool, arguments) && remote.toolCalls(|log| - 1).Ok? &&
               r.value == Normalised(remote.toolCalls(|log| - 1).value)
    ensures ToolOutcome(remote, log, t0, name, config, live, cache, tool, arguments, r, first, |log|)
  {
    assert log[t0..|log|] == log[t0..];
  }

  /** The first call, ending at `log1`, lost the connection, and the retry
      grew the log to `log` as `RetryTool` promises. */
  lemma ToolOutcomeRetried(remote: Remote, log1: seq<Request>, log: seq<Request>, t0: nat, name: string,
                           config: seq<(string, Json)>, live: bool, cache: seq<ToolInfo>, tool: string, arguments: Json,
                           r: Result<Json>, first: Option<Result<Json>>)
    requires (live || Connects(config, remote, t0)) && first == Some(FirstToolOutcome(remote, t0, live, cache, tool))
    requires |log1| == t0 + FirstLen(remote, t0, live, cache, tool)
    requires t0 <= |log1| && Attempts(log1[t0..]) <= 1 && AttemptsAre(log1, t0, CallTool(name, tool, arguments))
    requires first.Some? && first.value.Err? && SignalsDisconnect(first.value.error.message)
    requires RetriedTool(remote, log1, log, name, config, tool, arguments, r)
    ensures ToolOutcome(remote, log, t0, name, config, live, cache, tool, arguments, r, first, |log1|)
  {
    assert log[t0..|log1|] == log1[t0..];
    AttemptsExtend(log1, log, t0);
    AttemptsAreJoin(log1, log, t0, CallTool(name, tool, arguments));
  }

  /** What `read_resource` returns for a reply: the first content's text, or
      its blob, with the content's MIME type, whose default (used only when
      the attribute is missing) depends on which one it was. */
  function ContentOf(reply: ReadReply): (r: (string, Option<string>))
    ensures reply.contents.None? || reply.contents == Some([]) ==> r == ("", Some("text/plain"))
  {
    if reply.contents.Some? && reply.contents.value != [] then
      var c := reply.contents.value[0];
      if c.text.Some? && c.text.value != "" then (c.text.value, c.mimeType.Or(Some("text/plain")))
      else if c.blob.Some? && c.blob.value != "" then (c.blob.value, c.mimeType.Or(Some("application/octet-stream")))
      else ("", Some("text/plain"))
    else ("", Some("text/plain"))
  }

  /** Text wins over a blob; a missing MIME type defaults by kind, a present
      one (even None) is kept; only the first content counts. */
  lemma ContentOfDefaults(c: ResourceContent, rest: seq<ResourceContent>)
    ensures c.text.Some? && c.text.value != "" ==>
              ContentOf(ReadReply(Some([c] + rest))).0 == c.text.value
    ensures c.text.Some? && c.text.value != "" && c.mimeType.Missing? ==>
              ContentOf(ReadReply(Some([c] + rest))).1 == Some("text/plain")
    ensures (c.text.None? || c.text.value == "") && c.blob.Some? && c.blob.value != "" && c.mimeType.Missing? ==>
              ContentOf(ReadReply(Some([c] + rest))) == (c.blob.value, Some("application/octet-stream"))
    ensures c.mimeType.Present? && ((c.text.Some? && c.text.value != "") || (c.blob.Some? && c.blob.value != "")) ==>
              ContentOf(ReadReply(Some([c] + rest))).1 == c.mimeType.v
  {
  }

  /** The configuration `connect_to_server` goes on with, or None when it
      returns False before connecting: the type defaults to "stdio", stdio
      needs a "command" key, sse a string "url" (`startswith` on anything
      else raises), and any other type is refused. */
  function Preflight(config: seq<(string, Json)>): (r: Option<seq<(string, Json)>>)
    ensures r.Some? ==> Lookup(r.value, "type") in {Some(JStr("stdio")), Some(JStr("sse"))}
    ensures r.Some? && Lookup(config, "type").None? ==> Lookup(r.value, "type") == Some(JStr("stdio"))
  {
    var cfg := if "type" in Keys(config) then config else Put(config, "type", JStr("stdio"));
    PutLookup(config, "type", JStr("stdio"), "type");
    var kind := Lookup(cfg, "type").value;
    if kind == JStr("stdio") then
      if "command" in Keys(cfg) then Some(cfg) else None
    else if kind == JStr("sse") then
      var url := Lookup(cfg, "url");
      if url.Some? && url.value.JStr? then Some(cfg) else None
    else None
  }

  /** The configurations `connect_to_server` turns away before connecting,
      exactly: stdio without a command, sse without a string url, and any
      other type. */
  lemma PreflightRefuses(config: seq<(string, Json)>)
    ensures var kind := GetOr(JObj(config), "type", JStr("stdio"));
            var url := Lookup(config, "url");
            Preflight(config).None? <==>
              (kind == JStr("stdio") && Lookup(config, "command").None?) ||
              (kind == JStr("sse") && !(url.Some? && url.value.JStr?)) ||
              (kind != JStr("stdio") && kind != JStr("sse"))
  {
    PutLookup(config, "type", JStr("stdio"), "type");
    PutLookup(config, "type", JStr("stdio"), "command");
    PutLookup(config, "type", JStr("stdio"), "url");
  }

  /** Defaulting the type adds only that key. */
  lemma PreflightAddsOnlyType(config: seq<(string, Json)>, k: string)
    requires Preflight(config).Some? && k != "type"
    ensures Lookup(Preflight(config).value, k) == Lookup(config, k)
  {
    PutLookup(config, "type", JStr("stdio"), k);
  }

  class ClientManager {
    const remote: Remote
    var servers: map<string, Server>
    /** The dict's key order. */
    var order: seq<string>

    /** Each entry is the server of that name, talks through the shared
        remote and keeps its own invariant; the key order lists each key
        once. */
    ghost predicate Valid()
      reads this, servers.Values
    {
      (forall n :: n in servers ==> servers[n].name == n && servers[n].remote == remote && servers[n].Valid()) &&
      (forall n :: n in servers <==> n in order) &&
      Distinct(order)
    }

    constructor (remote: Remote)
      ensures this.remote == remote && servers == map[] && order == []
      ensures Valid()
    {
      this.remote := remote;
      servers := map[];
      order := [];
    }

    /** `add_server`: an existing entry is cleaned up first; the new server
        replaces it only when it initializes. */
    method AddServer(name: string, config: seq<(string, Json)>) returns (r: Result<()>)
      requires Valid()
      modifies this, remote, if name in servers then {servers[name]} else {}
      ensures Valid()
      ensures name in old(servers) ==> old(servers)[name].session.None? && old(servers)[name].toolsCache == []
      ensures r.Ok? <==> Connects(config, remote, |old(remote.log)| + if name in old(servers) then 1 else 0)
      ensures r.Err? ==> servers == old(servers) && order == old(order)
      ensures r.Ok? ==>
                name in servers && fresh(servers[name]) && servers[name].config == config &&
                servers[name].session.Some? &&
                servers == old(servers)[name := servers[name]] &&
                order == if name in old(servers) then old(order) else old(order) + [name]
      ensures old(remote.log) <= remote.log && Housekeeping(remote.log, |old(remote.log)|, name)
    {
      CleanupEntry(name);
      ghost var log0 := remote.log;
      var s;
      s, r := StartServer(name, config, remote);
      HousekeepingJoin(log0, remote.log, |old(remote.log)|, name);
      if r.Ok? {
        Register(s);
      }
    }

    /** The cleanup `add_server` runs on an entry it is about to replace. */
    method CleanupEntry(name: string)
      requires Valid()
      modifies remote, if name in servers then {servers[name]} else {}
      ensures Valid()
      ensures name in servers ==> servers[name].Cleared()
      ensures remote.log == old(remote.log) + if name in servers then [CloseAll(name)] else []
    {
      if name in servers {
        servers[name].Cleanup();
      }
    }

    /** Storing a server under its name, keeping the key order. */
    method Register(s: Server)
      requires Valid() && s.Valid() && s.remote == remote
      modifies this
      ensures Valid()
      ensures servers == old(servers)[s.name := s]
      ensures order == if s.name in old(servers) then old(order) else old(order) + [s.name]
    {
      if s.name !in servers {
        order := order + [s.name];
      }
      servers := servers[s.name := s];
    }

    /** `get_server` */
    function GetServer(name: string): (r: Option<Server>)
      requires Valid()
      reads this, servers.Values
      ensures r.Some? <==> name in servers
      ensures r.Some? ==> r.value == servers[name] && r.value.name == name
    {
      if name in servers then Some(servers[name]) else None
    }

    /** `list_servers`: every key, in insertion order. */
    function ListServers(): (r: seq<string>)
      requires Valid()
      reads this, servers.Values
      ensures forall n :: n in r <==> n in servers
      ensures Distinct(r)
    {
      order
    }

    function ConnectedAmong(names: seq<string>): (r: seq<string>)
      requires forall i :: 0 <= i < |names| ==> names[i] in servers
      reads this, servers.Values
      ensures forall n :: n in r <==> n in names && servers[n].session.Some?
      ensures |r| <= |names|
      decreases |names|
    {
      if names == [] then []
      else (if servers[names[0]].session.Some? then [names[0]] else []) + ConnectedAmong(names[1..])
    }

    /** `list_connected_servers`: the keys whose server has a session, in order. */
    function ListConnectedServers(): (r: seq<string>)
      requires Valid()
      reads this, servers.Values
      ensures forall n :: n in r <==> n in servers && servers[n].session.Some?
    {
      ConnectedAmong(order)
    }

    /** `is_server_connected` agrees with `list_connected_servers`. */
    function IsServerConnected(name: string): (b: bool)
      requires Valid()
      reads this, servers.Values
      ensures b <==> name in ListConnectedServers()
    {
      name in servers && servers[name].session.Some?
    }

    /** `list_tools` of the manager. */
    method ListTools(serverName: string) returns (r: Result<seq<ToolInfo>>)
      requires Valid()
      modifies remote, if serverName in servers then {servers[serverName]} else {}
      ensures Valid()
      ensures serverName !in servers ==>
                r == Err(Error(ValueError, "服务器不存在: " + serverName)) && remote.log == old(remote.log)
      ensures serverName in servers && old(servers[serverName].toolsCache) != [] ==>
                r == Ok(old(servers[serverName].toolsCache)) && remote.log == old(remote.log)
      ensures serverName in servers && old(servers[serverName].toolsCache) == [] && old(servers[serverName].session).None? ==>
                r == Err(Error(RuntimeError, "服务器未初始化: " + serverName))
      ensures serverName in servers && old(servers[serverName].toolsCache) == [] && old(servers[serverName].session).Some? ==>
                r == CachedOrListed([], remote.toolLists(|old(remote.log)|))
    {
      if serverName !in servers {
        return Err(Error(ValueError, "服务器不存在: " + serverName));
      }
      r := servers[serverName].ListTools();
    }

    /** `get_server_tools`: `list_tools` with every failure turned into []. */
    method GetServerTools(serverName: string) returns (r: seq<ToolInfo>)
      requires Valid()
      modifies remote, if serverName in servers then {servers[serverName]} else {}
      ensures Valid()
      ensures serverName !in servers ==> r == [] && remote.log == old(remote.log)
      ensures serverName in servers && old(servers[serverName].toolsCache) != [] ==>
                r == old(servers[serverName].toolsCache)
      ensures serverName in servers && old(servers[serverName].toolsCache) == [] && old(servers[serverName].session).None? ==>
                r == []
      ensures serverName in servers && old(servers[serverName].toolsCache) == [] && old(servers[serverName].session).Some? ==>
                r == match CachedOrListed([], remote.toolLists(|old(remote.log)|)) case Ok(ts) => ts case Err(_) => []
    {
      var l := ListTools(serverName);
      r := if l.Ok? then l.value else [];
    }

    /** `list_resources` of the manager. */
    method ListResources(serverName: string) returns (r: Result<seq<ResourceInfo>>)
      requires Valid()
      modifies remote, if serverName in servers then {servers[serverName]} else {}
      ensures Valid()
      ensures serverName !in servers ==>
                r == Err(Error(ValueError, "服务器不存在: " + serverName)) && remote.log == old(remote.log)
      ensures serverName in servers && old(servers[serverName].resourcesCache) != [] ==>
                r == Ok(old(servers[serverName].resourcesCache)) && remote.log == old(remote.log)
      ensures serverName in servers && old(servers[serverName].resourcesCache) == [] && old(servers[serverName].session).None? ==>
                r == Ok([]) && remote.log == old(remote.log)
      ensures serverName in servers && old(servers[serverName].resourcesCache) == [] && old(servers[serverName].session).Some? ==>
                r == Ok(ResourcesFrom(remote.resourceLists(|old(remote.log)|)))
    {
      if serverName !in servers {
        return Err(Error(ValueError, "服务器不存在: " + serverName));
      }
      var rs := servers[serverName].ListResources();
      r := Ok(rs);
    }

    /** `get_server_resources` */
    method GetServerResources(serverName: string) returns (r: seq<ResourceInfo>)
      requires Valid()
      modifies remote, if serverName in servers then {servers[serverName]} else {}
      ensures Valid()
      ensures serverName !in servers ==> r == [] && remote.log == old(remote.log)
      ensures serverName in servers && old(servers[serverName].resourcesCache) != [] ==>
                r == old(servers[serverName].resourcesCache)
      ensures serverName in servers && old(servers[serverName].resourcesCache) == [] && old(servers[serverName].session).None? ==>
                r == [] && remote.log == old(remote.log)
      ensures serverName in servers && old(servers[serverName].resourcesCache) == [] && old(servers[serverName].session).Some? ==>
                r == ResourcesFrom(remote.resourceLists(|old(remote.log)|))
    {
      var l := ListResources(serverName);
      r := if l.Ok? then l.value else [];
    }

    /** `list_prompts` of the manager. */
    method ListPrompts(serverName: string) returns (r: Result<seq<PromptInfo>>)
      requires Valid()
      modifies remote
      ensures serverName !in servers ==>
                r == Err(Error(ValueError, "服务器不存在: " + serverName)) && remote.log == old(remote.log)
      ensures serverName in servers && servers[serverName].session.None? ==> r == Ok([]) && remote.log == old(remote.log)
      ensures serverName in servers && servers[serverName].session.Some? ==>
                r == Ok(PromptsFrom(remote.promptLists(|old(remote.log)|)))
    {
      if serverName !in servers {
        return Err(Error(ValueError, "服务器不存在: " + serverName));
      }
      var ps := servers[serverName].ListPrompts();
      r := Ok(ps);
    }

    /** `get_server_prompts` */
    method GetServerPrompts(serverName: string) returns (r: seq<PromptInfo>)
      requires Valid()
      modifies remote
      ensures serverName !in servers || servers[serverName].session.None? ==> r == [] && remote.log == old(remote.log)
      ensures serverName in servers && servers[serverName].session.Some? ==>
                r == PromptsFrom(remote.promptLists(|old(remote.log)|))
    {
      var l := ListPrompts(serverName);
      r := if l.Ok? then l.value else [];
    }

    /** The manager's "not connected, initialize first" step. */
    static method EnsureConnected(s: Server) returns (r: Result<()>)
      requires s.Valid()
      modifies s, s.remote
      ensures s.Valid()
      ensures old(s.session).Some? ==> r == Ok(()) && s.session == old(s.session) && s.remote.log == old(s.remote.log)
      ensures r.Ok? ==> s.session.Some?
      ensures old(s.session).Some? ==> s.toolsCache == old(s.toolsCache)
      ensures r.Err? ==> old(s.session).None?
      ensures old(s.session).None? ==> (r.Ok? <==> Connects(s.config, s.remote, |old(s.remote.log)|))
      ensures old(s.session).None? && r.Ok? ==>
                |s.remote.log| == |old(s.remote.log)| + 5 &&
                s.toolsCache == ToolsFrom(s.remote.toolLists(|old(s.remote.log)| + 3).value)
      ensures old(s.remote.log) <= s.remote.log && Housekeeping(s.remote.log, |old(s.remote.log)|, s.name)
      ensures Attempts(s.remote.log[|old(s.remote.log)|..]) == 0
    {
      r := Ok(());
      if s.session.None? {
        r := s.Initialize();
      }
      HousekeepingHasNoAttempts(s.remote.log, |old(s.remote.log)|, s.name);
    }

    /** The retry's "clean up and initialize again" step. */
    static method Reconnect(s: Server) returns (r: Result<()>)
      modifies s, s.remote
      ensures s.Valid()
      ensures r.Ok? <==> Connects(s.config, s.remote, |old(s.remote.log)| + 1)
      ensures r.Ok? ==>
                s.session.Some? && |s.remote.log| == |old(s.remote.log)| + 6 &&
                s.toolsCache == ToolsFrom(s.remote.toolLists(|old(s.remote.log)| + 4).value)
      ensures old(s.remote.log) <= s.remote.log && Housekeeping(s.remote.log, |old(s.remote.log)|, s.name)
      ensures Attempts(s.remote.log[|old(s.remote.log)|..]) == 0
    {
      s.Cleanup();
      r := s.Initialize();
      HousekeepingHasNoAttempts(s.remote.log, |old(s.remote.log)|, s.name);
    }

    /** The second read of `read_resource`'s retry: clean up, initialize
        again and read once more. */
    static method RetryRead(s: Server, uri: string) returns (r: Result<(string, Option<string>)>)
      modifies s, s.remote
      ensures s.Valid()
      ensures old(s.remote.log) <= s.remote.log
      ensures Attempts(s.remote.log[|old(s.remote.log)|..]) <= 1
      ensures AttemptsAre(s.remote.log, |old(s.remote.log)|, Request.ReadResource(s.name, uri))
      ensures r.Err? ==> StartsWith(r.error.message, "重试读取资源失败: ")
      ensures r.Ok? ==>
                s.remote.log != [] && s.remote.log[|s.remote.log| - 1] == Request.ReadResource(s.name, uri) &&
                s.remote.resourceReads(|s.remote.log| - 1).Ok? &&
                r.value == ContentOf(s.remote.resourceReads(|s.remote.log| - 1).value)
      ensures var t := |old(s.remote.log)| + 1;
              Connects(s.config, s.remote, t) ==>
                |s.remote.log| == t + 6 && s.remote.log[t + 5] == Request.ReadResource(s.name, uri) &&
                Attempts(s.remote.log[|old(s.remote.log)|..]) == 1 &&
                r == ReadRetryOutcome(s.remote, t)
      ensures !Connects(s.config, s.remote, |old(s.remote.log)| + 1) ==>
                r.Err? && Attempts(s.remote.log[|old(s.remote.log)|..]) == 0
    {
      ghost var t0 := |s.remote.log|;
      var init := Reconnect(s);
      if init.Err? {
        return Err(Error(RuntimeError, "重试读取资源失败: " + init.error.message));
      }
      ghost var k := |s.remote.log|;
      ghost var log1 := s.remote.log;
      var retry := s.remote.Read(s.name, uri);
      AttemptsSplit(s.remote.log, t0, k);
      assert s.remote.log[t0..k] == log1[t0..];
      assert s.remote.log[k..] == [Request.ReadResource(s.name, uri)];
      AttemptsSingle(Request.ReadResource(s.name, uri));
      if retry.Err? {
        return Err(Error(RuntimeError, "重试读取资源失败: " + retry.error.message));
      }
      r := Ok(ContentOf(retry.value));
    }

    /** `read_resource` once the server is found: initialize it when it is
        not connected, read, and retry once after reconnecting when the
        failure signals a lost connection. `at` is the log position of the
        first read, None when there was none. */
    static method ReadFrom(s: Server, uri: string)
        returns (r: Result<(string, Option<string>)>, ghost at: Option<nat>)
      requires s.Valid()
      modifies s, s.remote
      ensures s.Valid()
      ensures old(s.remote.log) <= s.remote.log
      ensures ReadOutcome(s.remote, s.remote.log, |old(s.remote.log)|, s.name, s.config, old(s.session).Some?, uri, r, at)
    {
      ghost var t0 := |s.remote.log|;
      ghost var live := s.session.Some?;
      var reply, called;
      reply, called, at := FirstRead(s, uri);
      if !called {
        r := Err(reply.error);
        ReadOutcomeUninitialised(s.remote, s.remote.log, t0, s.name, s.config, uri, r);
        return;
      }
      if reply.Ok? {
        r := Ok(ContentOf(reply.value));
      } else if !SignalsDisconnect(reply.error.message) {
        r := Err(Error(RuntimeError, "从服务器 " + s.name + " 读取资源 " + uri + " 失败: " + reply.error.message));
      } else {
        r := ReadAgain(s, uri, t0, live, at.value);
        return;
      }
      ReadOutcomeFirst(s.remote, s.remote.log, t0, s.name, s.config, live, uri, r, at.value);
    }

    /** The retry branch of `read_resource`, entered right after the first
        read, at log position `at`, failed with a lost connection. */
    static method ReadAgain(s: Server, uri: string, ghost t0: nat, ghost live: bool, ghost at: nat)
        returns (r: Result<(string, Option<string>)>)
      requires (live || Connects(s.config, s.remote, t0)) && at == if live then t0 else t0 + 5
      requires t0 <= at == |s.remote.log| - 1 && s.remote.log[at] == Request.ReadResource(s.name, uri)
      requires Attempts(s.remote.log[t0..at]) == 0 && AttemptsAre(s.remote.log, t0, Request.ReadResource(s.name, uri))
      requires s.remote.resourceReads(at).Err? && SignalsDisconnect(s.remote.resourceReads(at).error.message)
      modifies s, s.remote
      ensures s.Valid()
      ensures old(s.remote.log) <= s.remote.log
      ensures ReadOutcome(s.remote, s.remote.log, t0, s.name, s.config, live, uri, r, Some(at))
    {
      ghost var log1 := s.remote.log;
      r := RetryRead(s, uri);
      ReadOutcomeRetried(s.remote, log1, s.remote.log, t0, s.name, s.config, live, uri, r, at);
    }

    /** The first read of `read_resource`: initialize the server when it is
        not connected, then read. `called` is false when initializing failed
        and there was no read; `at` is then None, and otherwise the read's
        log position. */
    static method FirstRead(s: Server, uri: string)
        returns (r: Result<ReadReply>, called: bool, ghost at: Option<nat>)
      requires s.Valid()
      modifies s, s.remote
      ensures s.Valid()
      ensures old(s.remote.log) <= s.remote.log
      ensures called <==> at.Some?
      ensures at.None? <==> old(s.session).None? && !Connects(s.config, s.remote, |old(s.remote.log)|)
      ensures at.Some? ==> at.value == if old(s.session).Some? then |old(s.remote.log)| else |old(s.remote.log)| + 5
      ensures at.None? ==>
                old(s.session).None? && r.Err? &&
                StartsWith(r.error.message, "重新初始化服务器 " + s.name + " 失败: ") &&
                Attempts(s.remote.log[|old(s.remote.log)|..]) == 0
      ensures at.Some? ==>
                |old(s.remote.log)| <= at.value == |s.remote.log| - 1 &&
                s.remote.log[at.value] == Request.ReadResource(s.name, uri) &&
                Attempts(s.remote.log[|old(s.remote.log)|..at.value]) == 0 &&
                r == s.remote.resourceReads(at.value)
      ensures Attempts(s.remote.log[|old(s.remote.log)|..]) <= 1
      ensures AttemptsAre(s.remote.log, |old(s.remote.log)|, Request.ReadResource(s.name, uri))
    {
      ghost var t0 := |s.remote.log|;
      var init := EnsureConnected(s);
      if init.Err? {
        return Err(Error(RuntimeError, "重新初始化服务器 " + s.name + " 失败: " + init.error.message)), false, None;
      }
      ghost var k := |s.remote.log|;
      ghost var log0 := s.remote.log;
      r := s.remote.Read(s.name, uri);
      called, at := true, Some(k);
      AttemptsSplit(s.remote.log, t0, k);
      assert s.remote.log[t0..k] == log0[t0..];
      assert s.remote.log[k..] == [Request.ReadResource(s.name, uri)];
      AttemptsSingle(Request.ReadResource(s.name, uri));
    }

    /** `read_resource`: an unknown server is refused; otherwise `ReadFrom`
        does the work on the named server. */
    method ReadResource(serverName: string, uri: string)
        returns (r: Result<(string, Option<string>)>, ghost at: Option<nat>)
      requires Valid()
      modifies remote, if serverName in servers then {servers[serverName]} else {}
      ensures Valid()
      ensures old(remote.log) <= remote.log
      ensures serverName !in servers ==>
                r == Err(Error(ValueError, "服务器不存在: " + serverName)) && at.None? && remote.log == old(remote.log)
      ensures serverName in servers ==>
                ReadOutcome(remote, remote.log, |old(remote.log)|, serverName, servers[serverName].config,
                            old(servers[serverName].session).Some?, uri, r, at)
      ensures Attempts(remote.log[|old(remote.log)|..]) <= 2
      ensures AttemptsAre(remote.log, |old(remote.log)|, Request.ReadResource(serverName, uri))
    {
      if serverName !in servers {
        return Err(Error(ValueError, "服务器不存在: " + serverName)), None;
      }
      var s := servers[serverName];
      r, at := ReadFrom(s, uri);
    }

    /** One attempt of the manager's `execute_tool`: the server's own
        `execute_tool`, seen only through what the retry logic needs. */
    static method CallOnce(s: Server, tool: string, arguments: Json) returns (r: Result<Json>)
      requires s.Valid()
      modifies s, s.remote
      ensures s.Valid()
      ensures old(s.remote.log) <= s.remote.log
      ensures Attempts(s.remote.log[|old(s.remote.log)|..]) <= 1
      ensures AttemptsAre(s.remote.log, |old(s.remote.log)|, CallTool(s.name, tool, arguments))
      ensures r.Ok? ==>
                Attempts(s.remote.log[|old(s.remote.log)|..]) == 1 &&
                s.remote.log != [] && s.remote.log[|s.remote.log| - 1] == CallTool(s.name, tool, arguments) &&
                s.remote.toolCalls(|s.remote.log| - 1).Ok? &&
                r.value == Normalised(s.remote.toolCalls(|s.remote.log| - 1).value)
      ensures old(s.session).None? ==> r.Err? && s.remote.log == old(s.remote.log)
      ensures old(s.session).Some? ==>
                var t0 := |old(s.remote.log)|;
                var refresh := old(s.toolsCache) == [];
                var listed := CachedOrListed(old(s.toolsCache), s.remote.toolLists(t0));
                r == ToolCallOutcome(tool, listed, s.remote.toolCalls(if refresh then t0 + 1 else t0)) &&
                (listed.Ok? && HasTool(listed.value, tool) ==> Attempts(s.remote.log[t0..]) == 1) &&
                |s.remote.log| == t0 + CallLen(s.remote, t0, old(s.toolsCache), tool)
    {
      ghost var t0 := |s.remote.log|;
      r := s.ExecuteTool(tool, arguments);
      if r.Ok? {
        var sent := s.remote.log[t0..];
        assert sent != [] && sent[|sent| - 1] == CallTool(s.name, tool, arguments);
        assert Attempts(sent) >= 1;
      }
    }

    /** The second attempt of the manager's `execute_tool` retry: clean up,
        initialize again and call once more. */
    static method RetryTool(s: Server, tool: string, arguments: Json) returns (r: Result<Json>)
      modifies s, s.remote
      ensures s.Valid()
      ensures RetriedTool(s.remote, old(s.remote.log), s.remote.log, s.name, s.config, tool, arguments, r)
    {
      ghost var log0 := s.remote.log;
      var init := Reconnect(s);
      if init.Err? {
        r := Err(Error(RuntimeError, "重试执行工具失败: " + init.error.message));
        RetriedToolUnconnected(s.remote, log0, s.remote.log, s.name, s.config, tool, arguments, init.error.message);
        return;
      }
      r := RetryCall(s, tool, arguments, log0);
    }

    /** The call of the retry, once initialising again from `|log0| + 1`
        has connected. */
    static method RetryCall(s: Server, tool: string, arguments: Json, ghost log0: seq<Request>) returns (r: Result<Json>)
      requires s.Valid() && s.session.Some?
      requires log0 <= s.remote.log && |s.remote.log| == |log0| + 6 && Connects(s.config, s.remote, |log0| + 1)
      requires s.toolsCache == ToolsFrom(s.remote.toolLists(|log0| + 4).value)
      requires Housekeeping(s.remote.log, |log0|, s.name) && Attempts(s.remote.log[|log0|..]) == 0
      modifies s, s.remote
      ensures s.Valid()
      ensures RetriedTool(s.remote, log0, s.remote.log, s.name, s.config, tool, arguments, r)
    {
      ghost var log1 := s.remote.log;
      var retry := CallOnce(s, tool, arguments);
      r := if retry.Err? then Err(Error(RuntimeError, "重试执行工具失败: " + retry.error.message)) else retry;
      RetriedToolCalled(s.remote, log0, log1, s.remote.log, s.name, s.config, tool, arguments, retry, r);
    }

    /** The first attempt of the manager's `execute_tool`: initialize the
        server when it is not connected, then call. `called` is false when
        initializing failed and there was no call. */
    static method FirstTool(s: Server, tool: string, arguments: Json)
        returns (r: Result<Json>, called: bool)
      requires s.Valid()
      modifies s, s.remote
      ensures s.Valid()
      ensures old(s.remote.log) <= s.remote.log
      ensures !called <==> old(s.session).None? && !Connects(s.config, s.remote, |old(s.remote.log)|)
      ensures called ==>
                (old(s.session).Some? || Connects(s.config, s.remote, |old(s.remote.log)|)) &&
                r == FirstToolOutcome(s.remote, |old(s.remote.log)|, old(s.session).Some?, old(s.toolsCache), tool) &&
                |s.remote.log| == |old(s.remote.log)| + FirstLen(s.remote, |old(s.remote.log)|, old(s.session).Some?, old(s.toolsCache), tool)
      ensures !called ==>
                old(s.session).None? && r.Err? &&
                StartsWith(r.error.message, "重新初始化服务器 " + s.name + " 失败: ") &&
                Attempts(s.remote.log[|old(s.remote.log)|..]) == 0
      ensures called && r.Ok? ==> Attempts(s.remote.log[|old(s.remote.log)|..]) == 1
      ensures Attempts(s.remote.log[|old(s.remote.log)|..]) <= 1
      ensures r.Ok? ==>
                called && s.remote.log != [] && s.remote.log[|s.remote.log| - 1] == CallTool(s.name, tool, arguments) &&
                s.remote.toolCalls(|s.remote.log| - 1).Ok? &&
                r.value == Normalised(s.remote.toolCalls(|s.remote.log| - 1).value)
      ensures AttemptsAre(s.remote.log, |old(s.remote.log)|, CallTool(s.name, tool, arguments))
    {
      ghost var t0 := |s.remote.log|;
      var init := EnsureConnected(s);
      if init.Err? {
        return Err(Error(RuntimeError, "重新初始化服务器 " + s.name + " 失败: " + init.error.message)), false;
      }
      r := CallConnected(s, tool, arguments, t0, old(s.session).Some?, old(s.toolsCache));
      called := true;
    }

    /** The call of that first attempt, once the server is connected: from
        `t0` on a session that was live with `cache`, or after the five
        requests of an `initialize` from `t0` that connected. */
    static method CallConnected(s: Server, tool: string, arguments: Json, ghost t0: nat,
                                ghost live: bool, ghost cache: seq<ToolInfo>)
        returns (r: Result<Json>)
      requires s.Valid() && s.session.Some?
      requires t0 <= |s.remote.log| && Housekeeping(s.remote.log, t0, s.name)
      requires live ==> |s.remote.log| == t0 && s.toolsCache == cache
      requires !live ==>
                 Connects(s.config, s.remote, t0) && |s.remote.log| == t0 + 5 &&
                 s.toolsCache == ToolsFrom(s.remote.toolLists(t0 + 3).value)
      modifies s, s.remote
      ensures s.Valid()
      ensures old(s.remote.log) <= s.remote.log
      ensures r == FirstToolOutcome(s.remote, t0, live, cache, tool)
      ensures |s.remote.log| == t0 + FirstLen(s.remote, t0, live, cache, tool)
      ensures Attempts(s.remote.log[t0..]) <= 1
      ensures r.Ok? ==>
                Attempts(s.remote.log[t0..]) == 1 &&
                s.remote.log != [] && s.remote.log[|s.remote.log| - 1] == CallTool(s.name, tool, arguments) &&
                s.remote.toolCalls(|s.remote.log| - 1).Ok? &&
                r.value == Normalised(s.remote.toolCalls(|s.remote.log| - 1).value)
      ensures AttemptsAre(s.remote.log, t0, CallTool(s.name, tool, arguments))
    {
      ghost var k := |s.remote.log|;
      ghost var log0 := s.remote.log;
      FirstAttemptAt(s.remote, s.config, t0, live, cache, k, s.toolsCache, tool);
      HousekeepingHasNoAttempts(log0, t0, s.name);
      r := CallOnce(s, tool, arguments);
      AttemptsExtend(log0, s.remote.log, t0);
      assert AttemptsAre(log0, t0, CallTool(s.name, tool, arguments));
      AttemptsAreJoin(log0, s.remote.log, t0, CallTool(s.name, tool, arguments));
    }

    /** The manager's `execute_tool` once the server is found: the first
        attempt, and one retry after reconnecting when its failure signals a
        lost connection. `first` is the first attempt's outcome, None when
        there was none; `mid` is the log position where the first attempt
        ended. */
    static method ToolFrom(s: Server, tool: string, arguments: Json)
        returns (r: Result<Json>, ghost first: Option<Result<Json>>, ghost mid: nat)
      requires s.Valid()
      modifies s, s.remote
      ensures s.Valid()
      ensures old(s.remote.log) <= s.remote.log
      ensures ToolOutcome(s.remote, s.remote.log, |old(s.remote.log)|, s.name, s.config,
                          old(s.session).Some?, old(s.toolsCache), tool, arguments, r, first, mid)
    {
      ghost var t0 := |s.remote.log|;
      ghost var live, cache := s.session.Some?, s.toolsCache;
      var out, called := FirstTool(s, tool, arguments);
      first := if called then Some(out) else None;
      mid := |s.remote.log|;
      if !called || out.Ok? {
        r := out;
      } else if !SignalsDisconnect(out.error.message) {
        r := Err(Error(RuntimeError, "在服务器 " + s.name + " 上执行工具 " + tool + " 失败: " + out.error.message));
      } else {
        r := ToolAgain(s, tool, arguments, t0, live, cache, first);
        return;
      }
      ToolOutcomeFirst(s.remote, s.remote.log, t0, s.name, s.config, live, cache, tool, arguments, r, first);
    }

    /** The retry branch of the manager's `execute_tool`, entered right
        after the first call failed with a lost connection. */
    static method ToolAgain(s: Server, tool: string, arguments: Json, ghost t0: nat,
                            ghost live: bool, ghost cache: seq<ToolInfo>, ghost first: Option<Result<Json>>)
        returns (r: Result<Json>)
      requires (live || Connects(s.config, s.remote, t0)) && first == Some(FirstToolOutcome(s.remote, t0, live, cache, tool))
      requires |s.remote.log| == t0 + FirstLen(s.remote, t0, live, cache, tool)
      requires t0 <= |s.remote.log| && Attempts(s.remote.log[t0..]) <= 1
      requires AttemptsAre(s.remote.log, t0, CallTool(s.name, tool, arguments))
      requires first.Some? && first.value.Err? && SignalsDisconnect(first.value.error.message)
      modifies s, s.remote
      ensures s.Valid()
      ensures old(s.remote.log) <= s.remote.log
      ensures ToolOutcome(s.remote, s.remote.log, t0, s.name, s.config, live, cache, tool, arguments, r, first,
                          |old(s.remote.log)|)
    {
      ghost var log1 := s.remote.log;
      r := RetryTool(s, tool, arguments);
      ToolOutcomeRetried(s.remote, log1, s.remote.log, t0, s.name, s.config, live, cache, tool, arguments, r, first);
    }

    /** `execute_tool` of the manager: an unknown server is refused;
        otherwise `ToolFrom` does the work on the named server. */
    method ExecuteTool(serverName: string, tool: string, arguments: Json)
        returns (r: Result<Json>, ghost first: Option<Result<Json>>, ghost mid: nat)
      requires Valid()
      modifies remote, if serverName in servers then {servers[serverName]} else {}
      ensures Valid()
      ensures old(remote.log) <= remote.log
      ensures serverName !in servers ==>
                r == Err(Error(ValueError, "服务器不存在: " + serverName)) && first.None? && remote.log == old(remote.log)
      ensures serverName in servers ==>
                ToolOutcome(remote, remote.log, |old(remote.log)|, serverName, servers[serverName].config,
                            old(servers[serverName].session).Some?, old(servers[serverName].toolsCache),
                            tool, arguments, r, first, mid)
      ensures |old(remote.log)| <= mid <= |remote.log|
      ensures Attempts(remote.log[|old(remote.log)|..]) <= 2
      ensures AttemptsAre(remote.log, |old(remote.log)|, CallTool(serverName, tool, arguments))
    {
      if serverName !in servers {
        return Err(Error(ValueError, "服务器不存在: " + serverName)), None, |remote.log|;
      }
      var s := servers[serverName];
      r, first, mid := ToolFrom(s, tool, arguments);
    }

    /** `disconnect_from_server`: clean the server up and drop its entry. */
    method DisconnectFromServer(name: string) returns (b: bool)
      requires Valid()
      modifies this, remote, if name in servers then {servers[name]} else {}
      ensures Valid()
      ensures b == (name in old(servers))
      ensures servers == old(servers) - {name} && order == Without(old(order), name)
      ensures b ==> old(servers)[name].session.None? && old(servers)[name].stack == [] &&
                    remote.log == old(remote.log) + [CloseAll(name)]
      ensures !b ==> remote.log == old(remote.log)
    {
      if name !in servers {
        return false;
      }
      servers[name].Cleanup();
      servers := servers - {name};
      order := Without(order, name);
      b := true;
    }

    /** `disconnect_all`: clean up every server, in order, then forget them. */
    method DisconnectAll()
      requires Valid()
      modifies this, remote, servers.Values
      ensures Valid() && servers == map[] && order == []
      ensures forall n :: n in old(servers) ==> old(servers)[n].Cleared()
      ensures remote.log == old(remote.log) + Closes(old(order))
    {
      CleanupAll();
      servers := map[];
      order := [];
    }

    /** The loop of `disconnect_all`: every server cleaned up, in key order. */
    method CleanupAll()
      requires Valid()
      modifies remote, servers.Values
      ensures Valid()
      ensures forall n :: n in servers ==> servers[n].Cleared()
      ensures remote.log == old(remote.log) + Closes(order)
    {
      var i := 0;
      while i < |order|
        invariant 0 <= i <= |order| && Valid()
        invariant forall k :: 0 <= k < i ==> servers[order[k]].Cleared()
        invariant remote.log == old(remote.log) + Closes(order[..i])
      {
        assert Closes(order[..i + 1]) == Closes(order[..i]) + [CloseAll(order[i])];
        forall k | 0 <= k < i
          ensures servers[order[k]] != servers[order[i]]
        {
          assert order[k] != order[i];
        }
        CleanupEntry(order[i]);
        i := i + 1;
      }
      assert order[..i] == order;
    }

    /** `connect_to_server`: True exactly when the server ends up connected
        under this name. An existing entry is disconnected and dropped first,
        so a failed reconnect leaves no entry. */
    method ConnectToServer(name: string, config: seq<(string, Json)>) returns (ok: bool)
      requires Valid()
      modifies this, remote, if name in servers then {servers[name]} else {}
      ensures Valid()
      ensures Preflight(config).None? ==>
                !ok && servers == old(servers) && order == old(order) && remote.log == old(remote.log)
      ensures ok ==>
                Preflight(config).Some? && name in servers && fresh(servers[name]) &&
                servers[name].config == Preflight(config).value && servers[name].session.Some? &&
                order == Without(old(order), name) + [name]
      ensures Preflight(config).Some? ==>
                (ok <==> Connects(Preflight(config).value, remote, |old(remote.log)| + if name in old(servers) then 1 else 0))
      ensures Preflight(config).Some? && !ok ==> name !in servers && order == Without(old(order), name)
      ensures forall n :: n in old(servers) && n != name ==> n in servers && servers[n] == old(servers)[n]
      ensures old(remote.log) <= remote.log && Housekeeping(remote.log, |old(remote.log)|, name)
      ensures Attempts(remote.log[|old(remote.log)|..]) == 0
    {
      var cfg := Preflight(config);
      if cfg.None? {
        return false;
      }
      ok := ReplaceServer(name, cfg.value);
    }

    /** The connecting part of `connect_to_server`, once the configuration
        passed its checks: disconnect an existing entry, then `add_server`. */
    method ReplaceServer(name: string, config: seq<(string, Json)>) returns (ok: bool)
      requires Valid()
      modifies this, remote, if name in servers then {servers[name]} else {}
      ensures Valid()
      ensures ok <==> Connects(config, remote, |old(remote.log)| + if name in old(servers) then 1 else 0)
      ensures ok ==>
                name in servers && fresh(servers[name]) && servers[name].config == config &&
                servers[name].session.Some? && order == Without(old(order), name) + [name]
      ensures !ok ==> name !in servers && order == Without(old(order), name)
      ensures forall n :: n in old(servers) && n != name ==> n in servers && servers[n] == old(servers)[n]
      ensures old(remote.log) <= remote.log && Housekeeping(remote.log, |old(remote.log)|, name)
      ensures Attempts(remote.log[|old(remote.log)|..]) == 0
    {
      if name in servers {
        var _ := DisconnectFromServer(name);
      }
      ghost var log1 := remote.log;
      assert |log1| == |old(remote.log)| + (if name in old(servers) then 1 else 0);
      assert Housekeeping(log1, |old(remote.log)|, name);
      var r := AddServer(name, config);
      HousekeepingJoin(log1, remote.log, |old(remote.log)|, name);
      HousekeepingHasNoAttempts(remote.log, |old(remote.log)|, name);
      ok := r.Ok?;
    }
  }
}
