/** The sessions of mcp_backend/app/services/session_service.py: the in-memory
    `Message` and `Session` classes, and the `SessionService` that keeps one
    JSON file per session.

    The session directory is a map from session id to the file's content;
    `json.dump` followed by `json.load` gives the value back, and a file that
    `json.load` rejects is `Corrupt`. The clock (`int(time.time())`) and
    `uuid4()` are parameters: `now` and the fresh ids. A session record as the
    service handles it is the field list of its dict, the empty list being
    the `{}` that `get_session` returns for a missing session. */
module Sessions {
  import opened Base
  import opened Text
  import opened Json

  /** `SESSION_TIMEOUT`, in seconds. */
  const SessionTimeout := 3600

  // ---------------------------------------------------------------------
  // Message and Session

  /** `Message`: the id and timestamp are the uuid and the clock reading
      taken when the message was made. */
  datatype Message = Message(id: string, role: string, content: Json, timestamp: int)

  /** `Message.to_dict` */
  function MessageDict(m: Message): Json {
    JObj([("id", JStr(m.id)), ("role", JStr(m.role)), ("content", m.content), ("timestamp", JInt(m.timestamp))])
  }

  function MessageDicts(ms: seq<Message>): (r: seq<Json>)
    ensures |r| == |ms| && forall i :: 0 <= i < |ms| ==> r[i] == MessageDict(ms[i])
  {
    seq(|ms|, i requires 0 <= i < |ms| => MessageDict(ms[i]))
  }

  /** A message's dict gives back each of its four attributes. */
  lemma MessageDictFields(m: Message)
    ensures Get(MessageDict(m), "id") == Some(JStr(m.id)) && Get(MessageDict(m), "role") == Some(JStr(m.role))
    ensures Get(MessageDict(m), "content") == Some(m.content)
    ensures Get(MessageDict(m), "timestamp") == Some(JInt(m.timestamp))
  {
    var fs := MessageDict(m).fields;
    assert UniqueKeys(fs);
    LookupUnique(fs, 0); LookupUnique(fs, 1); LookupUnique(fs, 2); LookupUnique(fs, 3);
  }

  /** A content value as the text sent to a model: a dict's "text" field, or
      the value itself. */
  function TextOf(c: Json): Json {
    if Has(c, "text") then Lookup(c.fields, "text").value else c
  }

  /** `Message.to_llm_message`. A tool message reads its content with `.get`,
      which raises on anything but a dict. */
  function ToLlmMessage(m: Message): (r: Result<Json>)
    ensures r.Err? ==> m.role == "tool" && r.error == NoAttribute(m.content, "get")
  {
    if m.role == "tool" then
      if m.content.JObj? then
        Ok(JObj([("role", JStr(m.role)),
                 ("tool_call_id", GetOr(m.content, "tool_call_id", JStr("unknown_call"))),
                 ("content", GetOr(m.content, "text", JStr("")))]))
      else Err(NoAttribute(m.content, "get"))
    else if m.role == "assistant" && Has(m.content, "tool_calls") then
      var text := GetOr(m.content, "text", JStr(""));
      var calls := Lookup(m.content.fields, "tool_calls").value;
      var result := [("role", JStr(m.role)), ("content", if Truthy(text) then text else JNull)];
      Ok(JObj(if Truthy(calls) then result + [("tool_calls", calls)] else result))
    else
      Ok(JObj([("role", JStr(m.role)), ("content", TextOf(m.content))]))
  }

  /** A tool message converts exactly when its content is a dict, into its
      role, its call id ("unknown_call" when missing) and its text. */
  lemma ToolMessageConverted(m: Message)
    requires m.role == "tool"
    ensures var r := ToLlmMessage(m);
            (r.Ok? <==> m.content.JObj?) &&
            (r.Ok? ==> r.value.JObj? && Keys(r.value.fields) == ["role", "tool_call_id", "content"] &&
                       Get(r.value, "role") == Some(JStr(m.role)) &&
                       Get(r.value, "tool_call_id") == Some(GetOr(m.content, "tool_call_id", JStr("unknown_call"))) &&
                       Get(r.value, "content") == Some(GetOr(m.content, "text", JStr(""))))
  {
    if m.content.JObj? {
      TripleFields("role", JStr(m.role), "tool_call_id", GetOr(m.content, "tool_call_id", JStr("unknown_call")),
                   "content", GetOr(m.content, "text", JStr("")));
    }
  }

  /** An assistant message carrying tool calls keeps its text only when it
      is truthy (None otherwise) and its calls only when they are truthy. */
  lemma AssistantCallsConverted(m: Message)
    requires m.role == "assistant" && Has(m.content, "tool_calls")
    ensures var r := ToLlmMessage(m);
            var text := GetOr(m.content, "text", JStr(""));
            r.Ok? && Get(r.value, "role") == Some(JStr("assistant")) &&
            Get(r.value, "content") == Some(if Truthy(text) then text else JNull) &&
            (Has(r.value, "tool_calls") <==> Truthy(Lookup(m.content.fields, "tool_calls").value))
  {
    var text := GetOr(m.content, "text", JStr(""));
    var calls := Lookup(m.content.fields, "tool_calls").value;
    var result := [("role", JStr(m.role)), ("content", if Truthy(text) then text else JNull)];
    PairFields("role", JStr(m.role), "content", if Truthy(text) then text else JNull);
    if Truthy(calls) {
      LookupFirst(result + [("tool_calls", calls)], 1);
      LookupFirst(result + [("tool_calls", calls)], 2);
    } else {
      assert Keys(result) == ["role", "content"];
    }
  }

  /** Any other message becomes its role and its content, a dict's "text"
      field unwrapped. */
  lemma OtherMessageConverted(m: Message)
    requires m.role != "tool" && !(m.role == "assistant" && Has(m.content, "tool_calls"))
    ensures var r := ToLlmMessage(m);
            r.Ok? && r.value.JObj? && Keys(r.value.fields) == ["role", "content"] &&
            Get(r.value, "role") == Some(JStr(m.role)) &&
            Get(r.value, "content") == Some(if Has(m.content, "text") then Lookup(m.content.fields, "text").value
                                            else m.content)
  {
    PairFields("role", JStr(m.role), "content", TextOf(m.content));
  }

  /** A loop that converts each item with `f` and skips the ones whose
      conversion raises. */
  function Keeping<A, B>(f: A -> Result<B>, xs: seq<A>): (r: seq<B>)
    ensures |r| <= |xs|
  {
    if xs == [] then []
    else
      var last := f(xs[|xs| - 1]);
      Keeping(f, xs[..|xs| - 1]) + (if last.Ok? then [last.value] else [])
  }

  /** When no conversion raises, every item gives one entry, in order. */
  lemma {:induction false} KeepingAll<A, B>(f: A -> Result<B>, xs: seq<A>)
    requires forall i :: 0 <= i < |xs| ==> f(xs[i]).Ok?
    ensures |Keeping(f, xs)| == |xs|
    ensures forall i :: 0 <= i < |xs| ==> Keeping(f, xs)[i] == f(xs[i]).value
  {
    if xs != [] {
      var init := xs[..|xs| - 1];
      forall i | 0 <= i < |init| ensures f(init[i]).Ok? {
        assert init[i] == xs[i];
      }
      KeepingAll(f, init);
      var last := f(xs[|xs| - 1]);
      assert Keeping(f, xs) == Keeping(f, init) + [last.value];
      forall i | 0 <= i < |xs| ensures Keeping(f, xs)[i] == f(xs[i]).value {
        if i < |init| {
          assert init[i] == xs[i];
        }
      }
    }
  }

  /** The loop of `Session.get_llm_messages`: a message whose conversion
      raises is skipped. */
  function Converted(ms: seq<Message>): (r: seq<Json>)
    ensures |r| <= |ms|
  {
    Keeping(ToLlmMessage, ms)
  }

  /** When no message raises, every message gives one entry, in order. */
  lemma ConvertedAll(ms: seq<Message>)
    requires forall i :: 0 <= i < |ms| ==> ToLlmMessage(ms[i]).Ok?
    ensures |Converted(ms)| == |ms|
    ensures forall i :: 0 <= i < |ms| ==> Converted(ms)[i] == ToLlmMessage(ms[i]).value
  {
    KeepingAll(ToLlmMessage, ms);
  }

  /** One more message adds its conversion at the end, or nothing when the
      conversion raises. */
  lemma ConvertedStep(ms: seq<Message>, m: Message)
    ensures ToLlmMessage(m).Err? ==> Converted(ms + [m]) == Converted(ms)
    ensures ToLlmMessage(m).Ok? ==> Converted(ms + [m]) == Converted(ms) + [ToLlmMessage(m).value]
  {
    assert (ms + [m])[..|ms + [m]| - 1] == ms;
  }

  /** `Session`. The two clock readings of `__init__` are one `now`; the
      float timestamps are whole seconds. */
  class Session {
    var id: string
    var title: string
    var messages: seq<Message>
    var createdAt: int
    var updatedAt: int
    var metadata: seq<(string, Json)>
    var llmProvider: Option<string>
    var llmModel: Option<string>
    var mcpServerId: Option<string>

    /** A missing or empty id is replaced by a fresh one. */
    constructor (sessionId: Option<string>, freshId: string, title: string, now: int)
      ensures id == if sessionId.Some? && sessionId.value != "" then sessionId.value else freshId
      ensures this.title == title && messages == [] && createdAt == now && updatedAt == now
      ensures metadata == [] && llmProvider == None && llmModel == None && mcpServerId == None
    {
      id := if sessionId.Some? && sessionId.value != "" then sessionId.value else freshId;
      this.title := title;
      messages := [];
      createdAt := now;
      updatedAt := now;
      metadata := [];
      llmProvider := None;
      llmModel := None;
      mcpServerId := None;
    }

    /** `add_message`: the new message goes last and nothing before it moves. */
    method AddMessage(role: string, content: Json, messageId: string, now: int) returns (m: Message)
      modifies this
      ensures m == Message(messageId, role, content, now)
      ensures messages == old(messages) + [m] && updatedAt == now
      ensures id == old(id) && title == old(title) && createdAt == old(createdAt) && metadata == old(metadata)
      ensures llmProvider == old(llmProvider) && llmModel == old(llmModel) && mcpServerId == old(mcpServerId)
    {
      m := Message(messageId, role, content, now);
      messages := messages + [m];
      updatedAt := now;
    }

    /** `get_messages` */
    function GetMessages(): (r: seq<Json>)
      reads this
      ensures |r| == |messages| && forall i :: 0 <= i < |r| ==> r[i] == MessageDict(messages[i])
    {
      MessageDicts(messages)
    }

    /** `get_llm_messages`: every message that converts, in order. */
    method GetLlmMessages() returns (r: seq<Json>)
      ensures r == Converted(messages)
    {
      r := [];
      for i := 0 to |messages|
        invariant r == Converted(messages[..i])
      {
        assert messages[..i + 1][..i] == messages[..i];
        var llm := ToLlmMessage(messages[i]);
        if llm.Ok? {
          r := r + [llm.value];
        }
      }
      assert messages[..|messages|] == messages;
    }

    /** `clear_messages` */
    method ClearMessages(now: int)
      modifies this
      ensures messages == [] && updatedAt == now
      ensures id == old(id) && title == old(title) && createdAt == old(createdAt) && metadata == old(metadata)
      ensures llmProvider == old(llmProvider) && llmModel == old(llmModel) && mcpServerId == old(mcpServerId)
    {
      messages := [];
      updatedAt := now;
    }

    /** `set_llm_info` */
    method SetLlmInfo(provider: string, model: string, now: int)
      modifies this
      ensures llmProvider == Some(provider) && llmModel == Some(model) && updatedAt == now
      ensures id == old(id) && title == old(title) && messages == old(messages) && createdAt == old(createdAt)
      ensures metadata == old(metadata) && mcpServerId == old(mcpServerId)
    {
      llmProvider := Some(provider);
      llmModel := Some(model);
      updatedAt := now;
    }

    /** `set_mcp_server` */
    method SetMcpServer(serverId: string, now: int)
      modifies this
      ensures mcpServerId == Some(serverId) && updatedAt == now
      ensures id == old(id) && title == old(title) && messages == old(messages) && createdAt == old(createdAt)
      ensures metadata == old(metadata) && llmProvider == old(llmProvider) && llmModel == old(llmModel)
    {
      mcpServerId := Some(serverId);
      updatedAt := now;
    }

    /** `to_dict`: every attribute under its own key, the messages as their
        dicts and a missing provider, model or server as null. */
    function ToDict(): (d: Json)
      reads this
      ensures d.JObj? && Keys(d.fields) == ["id", "title", "messages", "created_at", "updated_at", "metadata",
                                          "llm_provider", "llm_model", "mcp_server_id"]
      ensures Get(d, "id") == Some(JStr(id)) && Get(d, "title") == Some(JStr(title))
      ensures Get(d, "messages") == Some(JArr(MessageDicts(messages)))
      ensures Get(d, "created_at") == Some(JInt(createdAt)) && Get(d, "updated_at") == Some(JInt(updatedAt))
      ensures Get(d, "metadata") == Some(JObj(metadata))
      ensures llmProvider.None? ==> Get(d, "llm_provider") == Some(JNull)
      ensures llmProvider.Some? ==> Get(d, "llm_provider") == Some(JStr(llmProvider.value))
      ensures llmModel.None? ==> Get(d, "llm_model") == Some(JNull)
      ensures llmModel.Some? ==> Get(d, "llm_model") == Some(JStr(llmModel.value))
      ensures mcpServerId.None? ==> Get(d, "mcp_server_id") == Some(JNull)
      ensures mcpServerId.Some? ==> Get(d, "mcp_server_id") == Some(JStr(mcpServerId.value))
    {
      var vs := [JStr(id), JStr(title), JArr(MessageDicts(messages)), JInt(createdAt), JInt(updatedAt),
                 JObj(metadata), OptStr(llmProvider), OptStr(llmModel), OptStr(mcpServerId)];
      var fs := SessionFields(vs);
      SessionFieldsLookup(vs, 0); SessionFieldsLookup(vs, 1); SessionFieldsLookup(vs, 2);
      SessionFieldsLookup(vs, 3); SessionFieldsLookup(vs, 4); SessionFieldsLookup(vs, 5);
      SessionFieldsLookup(vs, 6); SessionFieldsLookup(vs, 7); SessionFieldsLookup(vs, 8);
      JObj(fs)
    }
  }

  /** The fields of a `to_dict` result, from the values of its nine keys. */
  function SessionFields(vs: seq<Json>): (fs: seq<(string, Json)>)
    requires |vs| == 9
    ensures Keys(fs) == ["id", "title", "messages", "created_at", "updated_at", "metadata",
                         "llm_provider", "llm_model", "mcp_server_id"]
    ensures UniqueKeys(fs)
  {
    [("id", vs[0]), ("title", vs[1]), ("messages", vs[2]), ("created_at", vs[3]), ("updated_at", vs[4]),
     ("metadata", vs[5]), ("llm_provider", vs[6]), ("llm_model", vs[7]), ("mcp_server_id", vs[8])]
  }

  /** Each key of a `to_dict` result finds its own value. */
  lemma SessionFieldsLookup(vs: seq<Json>, i: nat)
    requires |vs| == 9 && i < 9
    ensures Lookup(SessionFields(vs), SessionFields(vs)[i].0) == Some(vs[i])
  {
    LookupUnique(SessionFields(vs), i);
  }

  /** An optional string as JSON: None is null. */
  function OptStr(s: Option<string>): Json {
    if s.Some? then JStr(s.value) else JNull
  }

  // ---------------------------------------------------------------------
  // Session records

  /** A session file: the JSON it holds, or text `json.load` rejects. */
  datatype Stored = Parsed(data: Json) | Corrupt

  /** `session.get('timed_out')` is truthy. */
  predicate TimedOut(s: seq<(string, Json)>) {
    Lookup(s, "timed_out").Some? && Truthy(Lookup(s, "timed_out").value)
  }

  /** A timestamp as Python subtracts it: an int, or a bool as 0 or 1. */
  function Seconds(j: Json): Option<int> {
    match j
    case JInt(i) => Some(i)
    case JBool(b) => Some(if b then 1 else 0)
    case _ => None
  }

  /** The record `create_session` makes and saves. */
  function CreateRecord(id: string, title: string, llmProvider: Option<string>, llmModel: Option<string>,
                        mcpServerId: Option<string>, now: int): seq<(string, Json)> {
    [("id", JStr(id)), ("title", JStr(title)), ("name", JStr(title)), ("created_at", JInt(now)),
     ("updated_at", JInt(now)), ("last_activity", JInt(now)), ("llm_provider", OptStr(llmProvider)),
     ("llm_model", OptStr(llmModel)), ("mcp_server_id", OptStr(mcpServerId)), ("messages", JArr([]))]
  }

  /** A new session is titled and named alike. */
  lemma CreatedTitle(id: string, title: string, llmProvider: Option<string>, llmModel: Option<string>,
                     mcpServerId: Option<string>, now: int)
    ensures var s := CreateRecord(id, title, llmProvider, llmModel, mcpServerId, now);
            Lookup(s, "id") == Some(JStr(id)) &&
            Lookup(s, "title") == Some(JStr(title)) && Lookup(s, "name") == Some(JStr(title))
  {
    var s := CreateRecord(id, title, llmProvider, llmModel, mcpServerId, now);
    CreateRecordKeys(id, title, llmProvider, llmModel, mcpServerId, now);
    LookupUnique(s, 0); LookupUnique(s, 1); LookupUnique(s, 2);
  }

  /** A new session's three timestamps agree. */
  lemma CreatedTimes(id: string, title: string, llmProvider: Option<string>, llmModel: Option<string>,
                     mcpServerId: Option<string>, now: int)
    ensures var s := CreateRecord(id, title, llmProvider, llmModel, mcpServerId, now);
            Lookup(s, "created_at") == Some(JInt(now)) && Lookup(s, "updated_at") == Some(JInt(now)) &&
            Lookup(s, "last_activity") == Some(JInt(now))
  {
    var s := CreateRecord(id, title, llmProvider, llmModel, mcpServerId, now);
    CreateRecordKeys(id, title, llmProvider, llmModel, mcpServerId, now);
    LookupUnique(s, 3); LookupUnique(s, 4); LookupUnique(s, 5);
  }

  /** A new session has the settings it was given, no messages, and no
      timeout flag. */
  lemma CreatedEmpty(id: string, title: string, llmProvider: Option<string>, llmModel: Option<string>,
                     mcpServerId: Option<string>, now: int)
    ensures var s := CreateRecord(id, title, llmProvider, llmModel, mcpServerId, now);
            Lookup(s, "llm_provider") == Some(OptStr(llmProvider)) && Lookup(s, "llm_model") == Some(OptStr(llmModel)) &&
            Lookup(s, "mcp_server_id") == Some(OptStr(mcpServerId)) &&
            Lookup(s, "messages") == Some(JArr([])) && !TimedOut(s)
  {
    var s := CreateRecord(id, title, llmProvider, llmModel, mcpServerId, now);
    CreateRecordKeys(id, title, llmProvider, llmModel, mcpServerId, now);
    LookupUnique(s, 6); LookupUnique(s, 7); LookupUnique(s, 8); LookupUnique(s, 9);
    NoTimeoutFlag(s);
  }

  lemma NoTimeoutFlag(s: seq<(string, Json)>)
    requires Keys(s) == ["id", "title", "name", "created_at", "updated_at", "last_activity", "llm_provider",
                         "llm_model", "mcp_server_id", "messages"]
    ensures Lookup(s, "timed_out").None?
  {
  }

  /** The keys of a new record, all distinct. */
  lemma CreateRecordKeys(id: string, title: string, llmProvider: Option<string>, llmModel: Option<string>,
                         mcpServerId: Option<string>, now: int)
    ensures var s := CreateRecord(id, title, llmProvider, llmModel, mcpServerId, now);
            Keys(s) == ["id", "title", "name", "created_at", "updated_at", "last_activity", "llm_provider",
                        "llm_model", "mcp_server_id", "messages"] &&
            UniqueKeys(s)
  {
  }

  /** The record `get_session` builds for a file that is not valid JSON. It
      is neither checked for a timeout nor saved. */
  function InvalidRecord(id: string, now: int): seq<(string, Json)> {
    [("id", JStr(id)), ("title", JStr("无效会话")), ("created_at", JInt(now)), ("updated_at", JInt(now)),
     ("last_activity", JInt(now)), ("messages", JArr([]))]
  }

  /** The basic fields `get_session` adds to a loaded record when missing. */
  function Completed(s: seq<(string, Json)>, id: string, now: int): seq<(string, Json)> {
    var s1 := Fill(s, "id", JStr(id));
    var s2 := Fill(s1, "created_at", JInt(now));
    var s3 := Fill(s2, "updated_at", JInt(now));
    var s4 := Fill(s3, "last_activity", JInt(now));
    Fill(s4, "messages", JArr([]))
  }

  /** `if k not in s: s[k] = v` */
  function Fill(s: seq<(string, Json)>, k: string, v: Json): seq<(string, Json)> {
    if Lookup(s, k).None? then Put(s, k, v) else s
  }

  lemma FillLookup(s: seq<(string, Json)>, k: string, v: Json, k': string)
    ensures Lookup(Fill(s, k, v), k') == if k' == k && Lookup(s, k).None? then Some(v) else Lookup(s, k')
  {
    PutLookup(s, k, v, k');
  }

  /** The value a basic field gets when `get_session` has to add it. */
  function Filler(k: string, id: string, now: int): Option<Json> {
    if k == "id" then Some(JStr(id))
    else if k == "created_at" || k == "updated_at" || k == "last_activity" then Some(JInt(now))
    else if k == "messages" then Some(JArr([]))
    else None
  }

  /** Completing keeps every field the file had and adds only the missing
      basic ones. */
  lemma CompletedLookup(s: seq<(string, Json)>, id: string, now: int, k: string)
    ensures Lookup(Completed(s, id, now), k) == if Lookup(s, k).Some? then Lookup(s, k) else Filler(k, id, now)
  {
    var s1 := Fill(s, "id", JStr(id));
    var s2 := Fill(s1, "created_at", JInt(now));
    var s3 := Fill(s2, "updated_at", JInt(now));
    var s4 := Fill(s3, "last_activity", JInt(now));
    FillLookup(s, "id", JStr(id), k);
    FillLookup(s1, "created_at", JInt(now), k);
    FillLookup(s2, "updated_at", JInt(now), k);
    FillLookup(s3, "last_activity", JInt(now), k);
    FillLookup(s4, "messages", JArr([]), k);
  }

  /** The file name a check saves under: `str(session["id"])`. With `always`
      the key only has to be present, otherwise its value has to be truthy. */
  function IdFile(s: seq<(string, Json)>, always: bool): Option<string> {
    if Lookup(s, "id").Some? && (always || Truthy(Lookup(s, "id").value)) then Some(PyStr(Lookup(s, "id").value))
    else None
  }

  /** What `_check_session_timeout` leaves: the record, and the file it was
      saved to, if any. */
  datatype Checked = Checked(session: seq<(string, Json)>, saved: Option<string>)

  /** `_check_session_timeout`: the flag is set when more than `timeout`
      seconds have passed since the last activity, and dropped otherwise. */
  function CheckTimeout(s: seq<(string, Json)>, now: int, timeout: int): (r: Result<Checked>)
    ensures s == [] ==> r == Ok(Checked(s, None))
    ensures s != [] && Lookup(s, "last_activity").None? ==>
              r.Ok? && Lookup(r.value.session, "last_activity") == Some(JInt(now)) &&
              Lookup(r.value.session, "timed_out") == Lookup(s, "timed_out")
    ensures s != [] && Lookup(s, "last_activity").Some? && Seconds(Lookup(s, "last_activity").value).Some? ==>
              r.Ok? && Lookup(r.value.session, "last_activity") == Lookup(s, "last_activity") &&
              (TimedOut(r.value.session) <==> now - Seconds(Lookup(s, "last_activity").value).value > timeout)
    ensures s != [] && Lookup(s, "last_activity").Some? && Seconds(Lookup(s, "last_activity").value).None? ==>
              r.Err? && r.error.kind == TypeError
    ensures r.Ok? && r.value.saved.Some? ==>
              Lookup(s, "last_activity").None? || TimedOut(r.value.session) != TimedOut(s)
  {
    if s == [] then Ok(Checked(s, None))
    else if Lookup(s, "last_activity").None? then
      var s' := Put(s, "last_activity", JInt(now));
      PutLookup(s, "last_activity", JInt(now), "last_activity");
      PutLookup(s, "last_activity", JInt(now), "timed_out");
      Ok(Checked(s', IdFile(s', true)))
    else
      var last := Lookup(s, "last_activity").value;
      match Seconds(last)
      case None => Err(Error(TypeError, "unsupported operand type(s) for -: 'int' and '" + TypeName(last) + "'"))
      case Some(t) =>
        if now - t > timeout then
          if TimedOut(s) then Ok(Checked(s, None))
          else
            var s' := Put(s, "timed_out", JBool(true));
            PutLookup(s, "timed_out", JBool(true), "timed_out");
            PutLookup(s, "timed_out", JBool(true), "last_activity");
            Ok(Checked(s', IdFile(s', false)))
        else if TimedOut(s) then
          var s' := Remove(s, "timed_out");
          RemoveLookup(s, "timed_out", "timed_out");
          RemoveLookup(s, "timed_out", "last_activity");
          Ok(Checked(s', IdFile(s', false)))
        else Ok(Checked(s, None))
  }

  /** The check touches no field but "last_activity" and "timed_out". */
  lemma CheckTimeoutKeeps(s: seq<(string, Json)>, now: int, timeout: int, k: string)
    requires CheckTimeout(s, now, timeout).Ok?
    requires k != "last_activity" && k != "timed_out"
    ensures Lookup(CheckTimeout(s, now, timeout).value.session, k) == Lookup(s, k)
  {
    PutLookup(s, "last_activity", JInt(now), k);
    PutLookup(s, "timed_out", JBool(true), k);
    RemoveLookup(s, "timed_out", k);
  }

  /** A session file after a check that saved the record. */
  function Written(files: map<string, Stored>, c: Checked): map<string, Stored> {
    if c.saved.Some? then files[c.saved.value := Parsed(JObj(c.session))] else files
  }

  /** What `get_session` returns, and the files after it. */
  datatype Fetched = Fetched(session: seq<(string, Json)>, files: map<string, Stored>)

  /** `get_session`: `{}` for a missing file, or for one whose JSON is not a
      dict or whose last activity cannot be subtracted from the clock (the
      `except Exception` clause). */
  function Fetch(files: map<string, Stored>, id: string, now: int, timeout: int): (f: Fetched)
    ensures id !in files ==> f == Fetched([], files)
    ensures id in files && files[id].Corrupt? ==> f == Fetched(InvalidRecord(id, now), files)
    ensures id in files && files[id].Parsed? && !files[id].data.JObj? ==> f == Fetched([], files)
    ensures f.session == [] ==> f.files == files
    ensures files.Keys <= f.files.Keys
    ensures forall k :: k in f.files && (k !in files || f.files[k] != files[k]) ==> f.files[k] == Parsed(JObj(f.session))
  {
    if id !in files then Fetched([], files)
    else
      match files[id]
      case Corrupt => Fetched(InvalidRecord(id, now), files)
      case Parsed(j) =>
        if !j.JObj? then Fetched([], files)
        else
          var c := CheckTimeout(Completed(j.fields, id, now), now, timeout);
          if c.Err? then Fetched([], files)
          else Fetched(c.value.session, Written(files, c.value))
  }

  /** A record `get_session` hands out from a dict file has every basic
      field, and is flagged exactly when it has timed out. */
  lemma FetchedRecord(files: map<string, Stored>, id: string, now: int, timeout: int)
    requires id in files && files[id].Parsed? && files[id].data.JObj?
    ensures var f := Fetch(files, id, now, timeout);
            f.session != [] ==>
              var last := Lookup(f.session, "last_activity");
              last.Some? && Seconds(last.value).Some? &&
              (TimedOut(f.session) <==> now - Seconds(last.value).value > timeout) &&
              Lookup(f.session, "id").Some? && Lookup(f.session, "messages").Some? &&
              Lookup(f.session, "created_at").Some? && Lookup(f.session, "updated_at").Some?
  {
    var fs := files[id].data.fields;
    var c := Completed(fs, id, now);
    CompletedBasics(fs, id, now);
    var r := CheckTimeout(c, now, timeout);
    assert Fetch(files, id, now, timeout).session == if r.Ok? then r.value.session else [];
    CheckedRecord(c, now, timeout);
  }

  /** A completed record has every basic field. */
  lemma CompletedBasics(s: seq<(string, Json)>, id: string, now: int)
    ensures var c := Completed(s, id, now);
            Lookup(c, "last_activity").Some? && Lookup(c, "id").Some? && Lookup(c, "messages").Some? &&
            Lookup(c, "created_at").Some? && Lookup(c, "updated_at").Some?
  {
    CompletedLookup(s, id, now, "last_activity");
    CompletedLookup(s, id, now, "id");
    CompletedLookup(s, id, now, "messages");
    CompletedLookup(s, id, now, "created_at");
    CompletedLookup(s, id, now, "updated_at");
  }

  /** A checked record with the basic fields keeps them, and is flagged
      exactly when it has timed out. */
  lemma CheckedRecord(c: seq<(string, Json)>, now: int, timeout: int)
    requires Lookup(c, "last_activity").Some? && Lookup(c, "id").Some? && Lookup(c, "messages").Some? &&
             Lookup(c, "created_at").Some? && Lookup(c, "updated_at").Some?
    ensures var r := CheckTimeout(c, now, timeout);
            r.Ok? ==>
              var last := Lookup(r.value.session, "last_activity");
              last.Some? && Seconds(last.value).Some? &&
              (TimedOut(r.value.session) <==> now - Seconds(last.value).value > timeout) &&
              Lookup(r.value.session, "id").Some? && Lookup(r.value.session, "messages").Some? &&
              Lookup(r.value.session, "created_at").Some? && Lookup(r.value.session, "updated_at").Some?
  {
    if CheckTimeout(c, now, timeout).Ok? {
      CheckTimeoutKeeps(c, now, timeout, "id");
      CheckTimeoutKeeps(c, now, timeout, "messages");
      CheckTimeoutKeeps(c, now, timeout, "created_at");
      CheckTimeoutKeeps(c, now, timeout, "updated_at");
    }
  }

  // ---------------------------------------------------------------------
  // The operations on a fetched record

  /** A keyword of `update_session` that was passed and is not None. */
  predicate Given(update: seq<(string, Json)>, k: string) {
    Lookup(update, k).Some? && Lookup(update, k).value != JNull
  }

  /** The title an update sets: a non-None `name` wins over `title`. */
  function NewTitle(update: seq<(string, Json)>): Option<Json> {
    if Given(update, "name") then Lookup(update, "name")
    else if Given(update, "title") then Lookup(update, "title")
    else None
  }

  function PutGiven(s: seq<(string, Json)>, update: seq<(string, Json)>, k: string): seq<(string, Json)> {
    if Given(update, k) then Put(s, k, Lookup(update, k).value) else s
  }

  lemma PutGivenLookup(s: seq<(string, Json)>, update: seq<(string, Json)>, k: string, k': string)
    ensures Lookup(PutGiven(s, update, k), k') == if k' == k && Given(update, k) then Lookup(update, k) else Lookup(s, k')
  {
    if Given(update, k) {
      PutLookup(s, k, Lookup(update, k).value, k');
    }
  }

  /** `update_data["title"] = update_data.pop("name")` when a name is given. */
  function Renamed(update: seq<(string, Json)>): seq<(string, Json)> {
    if Given(update, "name") then Put(Remove(update, "name"), "title", Lookup(update, "name").value) else update
  }

  lemma RenamedLookup(update: seq<(string, Json)>, k: string)
    ensures NewTitle(update).Some? <==> Given(Renamed(update), "title")
    ensures NewTitle(update).Some? ==> NewTitle(update) == Lookup(Renamed(update), "title")
    ensures k != "name" && k != "title" ==> Lookup(Renamed(update), k) == Lookup(update, k)
  {
    if Given(update, "name") {
      var v := Lookup(update, "name").value;
      PutLookup(Remove(update, "name"), "title", v, "title");
      PutLookup(Remove(update, "name"), "title", v, k);
      RemoveLookup(update, "name", k);
    }
  }

  /** Setting the title sets the name with it. */
  function Titled(s: seq<(string, Json)>, u: seq<(string, Json)>): seq<(string, Json)> {
    if Given(u, "title") then Put(Put(s, "title", Lookup(u, "title").value), "name", Lookup(u, "title").value)
    else s
  }

  lemma TitledLookup(s: seq<(string, Json)>, u: seq<(string, Json)>, k: string)
    ensures Lookup(Titled(s, u), k) == if (k == "title" || k == "name") && Given(u, "title") then Lookup(u, "title") else Lookup(s, k)
  {
    if Given(u, "title") {
      var t := Lookup(u, "title").value;
      PutLookup(s, "title", t, k);
      PutLookup(Put(s, "title", t), "name", t, k);
    }
  }

  /** The field updates of `update_session`, after its guards. */
  function ApplyUpdate(s: seq<(string, Json)>, update: seq<(string, Json)>, now: int): seq<(string, Json)> {
    var u := Renamed(update);
    var s1 := Titled(s, u);
    var s2 := PutGiven(s1, u, "llm_provider");
    var s3 := PutGiven(s2, u, "llm_model");
    var s4 := PutGiven(s3, u, "mcp_server_id");
    Put(Put(s4, "updated_at", JInt(now)), "last_activity", JInt(now))
  }

  /** The fields an update may set. */
  predicate Settable(k: string) {
    k == "llm_provider" || k == "llm_model" || k == "mcp_server_id"
  }

  /** An update sets title and name together, each supplied non-None
      setting, and both timestamps; every other field is left alone. */
  lemma UpdatedLookup(s: seq<(string, Json)>, update: seq<(string, Json)>, now: int, k: string)
    ensures Lookup(ApplyUpdate(s, update, now), k) ==
            if k == "updated_at" || k == "last_activity" then Some(JInt(now))
            else if (k == "title" || k == "name") && NewTitle(update).Some? then NewTitle(update)
            else if Settable(k) && Given(update, k) then Lookup(update, k)
            else Lookup(s, k)
  {
    var u := Renamed(update);
    RenamedLookup(update, k);
    var s1 := Titled(s, u);
    TitledLookup(s, u, k);
    var s2 := PutGiven(s1, u, "llm_provider");
    var s3 := PutGiven(s2, u, "llm_model");
    var s4 := PutGiven(s3, u, "mcp_server_id");
    PutGivenLookup(s1, u, "llm_provider", k);
    PutGivenLookup(s2, u, "llm_model", k);
    PutGivenLookup(s3, u, "mcp_server_id", k);
    PutLookup(s4, "updated_at", JInt(now), k);
    PutLookup(Put(s4, "updated_at", JInt(now)), "last_activity", JInt(now), k);
  }

  /** `update_session` on the record `get_session` returned. */
  function Updated(s: seq<(string, Json)>, id: string, update: seq<(string, Json)>, now: int)
    : (r: Result<seq<(string, Json)>>)
    ensures s == [] ==> r == Err(Error(ValueError, "会话 " + id + " 不存在"))
    ensures s != [] && TimedOut(s) ==> r == Err(Error(ValueError, "会话 " + id + " 已超时，无法更新"))
    ensures r.Ok? <==> s != [] && !TimedOut(s)
    ensures r.Ok? ==> r.value == ApplyUpdate(s, update, now)
  {
    if s == [] then Err(Error(ValueError, "会话 " + id + " 不存在"))
    else if TimedOut(s) then Err(Error(ValueError, "会话 " + id + " 已超时，无法更新"))
    else Ok(ApplyUpdate(s, update, now))
  }

  /** `update_session_activity` on the record `get_session` returned. */
  function Activated(s: seq<(string, Json)>, id: string, now: int): (r: Result<seq<(string, Json)>>)
    ensures s == [] ==> r == Err(Error(ValueError, "会话 " + id + " 不存在"))
    ensures r.Ok? <==> s != []
  {
    if s == [] then Err(Error(ValueError, "会话 " + id + " 不存在"))
    else
      var s1 := Put(s, "last_activity", JInt(now));
      Ok(if TimedOut(s1) then Remove(s1, "timed_out") else s1)
  }

  /** Activity sets the last activity to now and reactivates a timed-out
      session, whatever its age; nothing else changes. */
  lemma ActivatedLookup(s: seq<(string, Json)>, id: string, now: int, k: string)
    requires s != []
    ensures var s' := Activated(s, id, now).value;
            Lookup(s', k) == (if k == "last_activity" then Some(JInt(now))
                              else if k == "timed_out" && TimedOut(s) then None
                              else Lookup(s, k)) &&
            !TimedOut(s')
  {
    var s1 := Put(s, "last_activity", JInt(now));
    PutLookup(s, "last_activity", JInt(now), k);
    PutLookup(s, "last_activity", JInt(now), "timed_out");
    RemoveLookup(s1, "timed_out", k);
    RemoveLookup(s1, "timed_out", "timed_out");
  }

  /** The message dict `add_message` builds. */
  function NewEntry(role: string, content: Json, toolCallId: Option<string>, messageId: string, now: int): Json {
    var c := if !content.JObj? && role == "user" then JObj([("type", JStr("text")), ("text", JStr(PyStr(content)))])
             else content;
    var tail := if toolCallId.Some? && toolCallId.value != "" then [("tool_call_id", JStr(toolCallId.value))] else [];
    JObj([("id", JStr(messageId)), ("role", JStr(role)), ("content", c), ("timestamp", JInt(now))] + tail)
  }

  /** Non-dict content of a user message is wrapped as a text part, any
      other content is kept as given, and an empty tool call id is dropped. */
  lemma NewEntryFields(role: string, content: Json, toolCallId: Option<string>, messageId: string, now: int)
    ensures var m := NewEntry(role, content, toolCallId, messageId, now);
            m.JObj? && Lookup(m.fields, "id") == Some(JStr(messageId)) && Lookup(m.fields, "role") == Some(JStr(role)) &&
            Lookup(m.fields, "timestamp") == Some(JInt(now)) &&
            (!content.JObj? && role == "user" ==>
               Lookup(m.fields, "content") == Some(JObj([("type", JStr("text")), ("text", JStr(PyStr(content)))]))) &&
            (content.JObj? || role != "user" ==> Lookup(m.fields, "content") == Some(content)) &&
            Lookup(m.fields, "tool_call_id") ==
              if toolCallId.Some? && toolCallId.value != "" then Some(JStr(toolCallId.value)) else None
  {
    var m := NewEntry(role, content, toolCallId, messageId, now);
    NewEntryHead(m.fields);
    var tail := if toolCallId.Some? && toolCallId.value != "" then [("tool_call_id", JStr(toolCallId.value))] else [];
    NewEntryTail(m.fields[..4], tail);
    assert m.fields == m.fields[..4] + tail;
  }

  lemma NewEntryHead(fs: seq<(string, Json)>)
    requires 4 <= |fs| && fs[0].0 == "id" && fs[1].0 == "role" && fs[2].0 == "content" && fs[3].0 == "timestamp"
    ensures Lookup(fs, "id") == Some(fs[0].1) && Lookup(fs, "role") == Some(fs[1].1) &&
            Lookup(fs, "content") == Some(fs[2].1) && Lookup(fs, "timestamp") == Some(fs[3].1)
  {
    EntryField(fs, 0); EntryField(fs, 1); EntryField(fs, 2); EntryField(fs, 3);
  }

  lemma EntryField(fs: seq<(string, Json)>, i: nat)
    requires 4 <= |fs| && fs[0].0 == "id" && fs[1].0 == "role" && fs[2].0 == "content" && fs[3].0 == "timestamp"
    requires i < 4
    ensures Lookup(fs, fs[i].0) == Some(fs[i].1)
  {
    LookupFirst(fs, i);
  }

  lemma NewEntryTail(head: seq<(string, Json)>, tail: seq<(string, Json)>)
    requires |head| == 4 && head[0].0 == "id" && head[1].0 == "role" && head[2].0 == "content" && head[3].0 == "timestamp"
    requires |tail| <= 1
    requires tail != [] ==> tail[0].0 == "tool_call_id"
    ensures Lookup(head + tail, "tool_call_id") == if tail == [] then None else Some(tail[0].1)
  {
    var keys := ["id", "role", "content", "timestamp"];
    assert Keys(head) == keys;
    assert "tool_call_id" !in keys;
    if tail == [] {
      assert head + tail == head;
    } else {
      var fs := head + tail;
      assert Keys(fs) == keys + ["tool_call_id"];
      LookupFirst(fs, 4);
    }
  }

  /** The message list a record holds, `[]` when it has none. */
  function MessageList(s: seq<(string, Json)>): Json {
    if Lookup(s, "messages").Some? then Lookup(s, "messages").value else JArr([])
  }

  /** `add_message` on the record `get_session` returned: the message and
      the record saved. A message list that is not a list has no `append`. */
  function Appended(s: seq<(string, Json)>, sessionId: string, role: string, content: Json,
                    toolCallId: Option<string>, messageId: string, now: int): (r: Result<(Json, seq<(string, Json)>)>)
    ensures s == [] ==> r == Err(Error(ValueError, "会话 " + sessionId + " 不存在"))
    ensures s != [] && TimedOut(s) ==> r == Err(Error(ValueError, "会话 " + sessionId + " 已超时，无法添加消息"))
    ensures r.Ok? <==> s != [] && !TimedOut(s) && MessageList(s).JArr?
    ensures s != [] && !TimedOut(s) && !MessageList(s).JArr? ==> r == Err(NoAttribute(MessageList(s), "append"))
    ensures r.Ok? ==> r.value.0 == NewEntry(role, content, toolCallId, messageId, now)
  {
    if s == [] then Err(Error(ValueError, "会话 " + sessionId + " 不存在"))
    else if TimedOut(s) then Err(Error(ValueError, "会话 " + sessionId + " 已超时，无法添加消息"))
    else
      var message := NewEntry(role, content, toolCallId, messageId, now);
      var list := MessageList(s);
      if !list.JArr? then Err(NoAttribute(list, "append"))
      else
        // A missing list is first put as [] and then appended to; putting
        // the one-message list directly lands it in the same place.
        Ok((message, Put(Put(Put(s, "messages", JArr(list.items + [message])), "updated_at", JInt(now)),
                         "last_activity", JInt(now))))
  }

  /** A message that is added goes last, the messages before it stay as they
      were, and only the list and the two timestamps change. */
  lemma AppendedOneMore(s: seq<(string, Json)>, sessionId: string, role: string, content: Json,
                        toolCallId: Option<string>, messageId: string, now: int, k: string)
    requires Appended(s, sessionId, role, content, toolCallId, messageId, now).Ok?
    ensures var (m, s') := Appended(s, sessionId, role, content, toolCallId, messageId, now).value;
            Lookup(s', "messages") == Some(JArr(MessageList(s).items + [m])) &&
            Lookup(s', "updated_at") == Some(JInt(now)) && Lookup(s', "last_activity") == Some(JInt(now)) &&
            (k != "messages" && k != "updated_at" && k != "last_activity" ==> Lookup(s', k) == Lookup(s, k))
  {
    var m := NewEntry(role, content, toolCallId, messageId, now);
    var s1 := Put(s, "messages", JArr(MessageList(s).items + [m]));
    var s2 := Put(s1, "updated_at", JInt(now));
    var list := JArr(MessageList(s).items + [m]);
    PutLookup(s, "messages", list, "messages");
    PutLookup(s1, "updated_at", JInt(now), "messages");
    PutLookup(s2, "last_activity", JInt(now), "messages");
    PutLookup(s1, "updated_at", JInt(now), "updated_at");
    PutLookup(s2, "last_activity", JInt(now), "updated_at");
    PutLookup(s2, "last_activity", JInt(now), "last_activity");
    PutLookup(s, "messages", list, k);
    PutLookup(s1, "updated_at", JInt(now), k);
    PutLookup(s2, "last_activity", JInt(now), k);
  }

  /** `clear_messages` on the record `get_session` returned. */
  function Cleared(s: seq<(string, Json)>, id: string, now: int): (r: Result<seq<(string, Json)>>)
    ensures s == [] ==> r == Err(Error(ValueError, "会话 " + id + " 不存在"))
    ensures s != [] && TimedOut(s) ==> r == Err(Error(ValueError, "会话 " + id + " 已超时，无法清空消息"))
    ensures r.Ok? <==> s != [] && !TimedOut(s)
    ensures r.Ok? ==> Lookup(r.value, "messages") == Some(JArr([])) && Lookup(r.value, "last_activity") == Some(JInt(now)) &&
                      Lookup(r.value, "updated_at") == Some(JInt(now))
    ensures r.Ok? ==> forall k :: k != "messages" && k != "updated_at" && k != "last_activity" ==>
                                  Lookup(r.value, k) == Lookup(s, k)
  {
    if s == [] then Err(Error(ValueError, "会话 " + id + " 不存在"))
    else if TimedOut(s) then Err(Error(ValueError, "会话 " + id + " 已超时，无法清空消息"))
    else
      var s1 := Put(s, "messages", JArr([]));
      var s2 := Put(s1, "updated_at", JInt(now));
      var s3 := Put(s2, "last_activity", JInt(now));
      assert forall k :: Lookup(s3, k) == if k == "last_activity" || k == "updated_at" then Some(JInt(now))
                                         else if k == "messages" then Some(JArr([]))
                                         else Lookup(s, k) by {
        forall k ensures Lookup(s3, k) == if k == "last_activity" || k == "updated_at" then Some(JInt(now))
                                         else if k == "messages" then Some(JArr([]))
                                         else Lookup(s, k) {
          PutLookup(s, "messages", JArr([]), k);
          PutLookup(s1, "updated_at", JInt(now), k);
          PutLookup(s2, "last_activity", JInt(now), k);
        }
      }
      Ok(s3)
  }

  /** `get_messages` on the record `get_session` returned. */
  function MessagesOf(s: seq<(string, Json)>, id: string): (r: Result<Json>)
    ensures s == [] ==> r == Err(Error(ValueError, "会话 " + id + " 不存在"))
    ensures r.Ok? <==> s != []
    ensures r.Ok? && Lookup(s, "messages").Some? ==> r.value == Lookup(s, "messages").value
    ensures r.Ok? && Lookup(s, "messages").None? ==> r.value == JArr([])
  {
    if s == [] then Err(Error(ValueError, "会话 " + id + " 不存在")) else Ok(MessageList(s))
  }

  // ---------------------------------------------------------------------
  // LLM messages

  /** The roles `get_llm_messages` passes on. */
  predicate Converses(role: Json) {
    role == JStr("user") || role == JStr("assistant") || role == JStr("tool")
  }

  /** `message.get("toolCalls") or message.get("tool_calls")` */
  function ToolCallsOf(m: seq<(string, Json)>): Json {
    Or(Lookup(m, "toolCalls").GetOr(JNull), Lookup(m, "tool_calls").GetOr(JNull))
  }

  /** `message.get("tool_call_id") or message.get("toolCallId")`, and
      "unknown_call" when that is falsy. */
  function ToolCallIdOf(m: seq<(string, Json)>): (id: Json)
    ensures Truthy(id)
    ensures Truthy(Lookup(m, "tool_call_id").GetOr(JNull)) ==> id == Lookup(m, "tool_call_id").value
    ensures !Truthy(Lookup(m, "tool_call_id").GetOr(JNull)) && Truthy(Lookup(m, "toolCallId").GetOr(JNull)) ==>
              id == Lookup(m, "toolCallId").value
    ensures !Truthy(Lookup(m, "tool_call_id").GetOr(JNull)) && !Truthy(Lookup(m, "toolCallId").GetOr(JNull)) ==>
              id == JStr("unknown_call")
  {
    var id := Or(Lookup(m, "tool_call_id").GetOr(JNull), Lookup(m, "toolCallId").GetOr(JNull));
    if Truthy(id) then id else JStr("unknown_call")
  }

  /** One turn of the loop of `SessionService.get_llm_messages`: the entry a
      message gives, or None when it is skipped. Indexing a non-dict, or a
      dict without "role" or "content", raises, and the loop goes on. */
  function LlmEntry(m: Json): (e: Option<Json>)
    ensures e.Some? <==> Has(m, "role") && Converses(Lookup(m.fields, "role").value) && Has(m, "content")
    ensures e.Some? ==> e.value.JObj? && e.value.fields != [] && e.value.fields[0] == ("role", Lookup(m.fields, "role").value)
  {
    if !m.JObj? || Lookup(m.fields, "role").None? then None
    else
      var role := Lookup(m.fields, "role").value;
      if !Converses(role) || Lookup(m.fields, "content").None? then None
      else
        var content := TextOf(Lookup(m.fields, "content").value);
        if role == JStr("user") then Some(JObj([("role", role), ("content", content)]))
        else if role == JStr("assistant") then
          var calls := ToolCallsOf(m.fields);
          if Truthy(calls) then
            Some(JObj([("role", role), ("content", if Truthy(content) then content else JNull), ("tool_calls", calls)]))
          else Some(JObj([("role", role), ("content", content)]))
        else Some(JObj([("role", role), ("tool_call_id", ToolCallIdOf(m.fields)), ("content", content)]))
  }

  /** What an entry carries besides its role. */
  lemma LlmEntryFields(m: Json)
    requires LlmEntry(m).Some?
    ensures var e := LlmEntry(m).value.fields;
            var role := Lookup(m.fields, "role").value;
            var content := TextOf(Lookup(m.fields, "content").value);
            (role == JStr("user") ==> Keys(e) == ["role", "content"] && Lookup(e, "content") == Some(content)) &&
            (role == JStr("assistant") && Truthy(ToolCallsOf(m.fields)) ==>
               Keys(e) == ["role", "content", "tool_calls"] && Lookup(e, "tool_calls") == Some(ToolCallsOf(m.fields)) &&
               Lookup(e, "content") == Some(if Truthy(content) then content else JNull)) &&
            (role == JStr("assistant") && !Truthy(ToolCallsOf(m.fields)) ==>
               Keys(e) == ["role", "content"] && Lookup(e, "content") == Some(content)) &&
            (role == JStr("tool") ==>
               Keys(e) == ["role", "tool_call_id", "content"] && Lookup(e, "content") == Some(content) &&
               Lookup(e, "tool_call_id") == Some(ToolCallIdOf(m.fields)))
  {
    var role := Lookup(m.fields, "role").value;
    var content := TextOf(Lookup(m.fields, "content").value);
    if role == JStr("user") {
      PairFields("role", role, "content", content);
    } else if role == JStr("assistant") {
      var calls := ToolCallsOf(m.fields);
      if Truthy(calls) {
        TripleFields("role", role, "content", if Truthy(content) then content else JNull, "tool_calls", calls);
      } else {
        PairFields("role", role, "content", content);
      }
    } else if role == JStr("tool") {
      TripleFields("role", role, "tool_call_id", ToolCallIdOf(m.fields), "content", content);
    }
  }

  /** The whole loop: the entries of the messages, in order. */
  function LlmMessages(ms: seq<Json>): (r: seq<Json>)
    ensures |r| <= |ms|
  {
    if ms == [] then []
    else
      var e := LlmEntry(ms[|ms| - 1]);
      LlmMessages(ms[..|ms| - 1]) + (if e.Some? then [e.value] else [])
  }

  /** Converting a concatenation converts each part. */
  lemma {:induction false} LlmMessagesAppend(a: seq<Json>, b: seq<Json>)
    ensures LlmMessages(a + b) == LlmMessages(a) + LlmMessages(b)
    decreases |b|
  {
    if b == [] {
      assert a + b == a;
    } else {
      var b' := b[..|b| - 1];
      assert (a + b)[..|a + b| - 1] == a + b';
      LlmMessagesAppend(a, b');
    }
  }

  /** A message with another role (a system message, say) leaves no entry. */
  lemma SkippedLeavesNothing(a: seq<Json>, m: Json, b: seq<Json>)
    requires !(Has(m, "role") && Converses(Lookup(m.fields, "role").value))
    ensures LlmMessages(a + [m] + b) == LlmMessages(a + b)
  {
    LlmMessagesAppend(a + [m], b);
    LlmMessagesAppend(a, [m]);
    LlmMessagesAppend(a, b);
    assert [m][..0] == [];
  }

  /** Every entry speaks as user, assistant or tool. */
  lemma {:induction false} LlmMessagesRoles(ms: seq<Json>)
    ensures forall i :: 0 <= i < |LlmMessages(ms)| ==>
              LlmMessages(ms)[i].JObj? && LlmMessages(ms)[i].fields != [] &&
              LlmMessages(ms)[i].fields[0].0 == "role" && Converses(LlmMessages(ms)[i].fields[0].1)
  {
    if ms != [] {
      LlmMessagesRoles(ms[..|ms| - 1]);
    }
  }

  /** When every message converts, each gives its own entry, in order. */
  lemma {:induction false} LlmMessagesAll(ms: seq<Json>)
    requires forall i :: 0 <= i < |ms| ==> LlmEntry(ms[i]).Some?
    ensures |LlmMessages(ms)| == |ms|
    ensures forall i :: 0 <= i < |ms| ==> LlmMessages(ms)[i] == LlmEntry(ms[i]).value
  {
    if ms != [] {
      var init := ms[..|ms| - 1];
      assert forall i :: 0 <= i < |init| ==> init[i] == ms[i];
      LlmMessagesAll(init);
      var prev, last := LlmMessages(init), LlmEntry(ms[|ms| - 1]).value;
      LlmMessagesLast(ms);
      forall i | 0 <= i < |ms|
        ensures LlmMessages(ms)[i] == LlmEntry(ms[i]).value
      {
        if i < |init| {
          assert (prev + [last])[i] == prev[i];
        }
      }
    }
  }

  lemma LlmMessagesLast(ms: seq<Json>)
    requires ms != [] && LlmEntry(ms[|ms| - 1]).Some?
    ensures LlmMessages(ms) == LlmMessages(ms[..|ms| - 1]) + [LlmEntry(ms[|ms| - 1]).value]
  {
  }

  // ---------------------------------------------------------------------
  // The service

  /** `SessionService` over its session files. */
  class SessionService {
    const timeoutSeconds: int
    var files: map<string, Stored>

    /** The files already in the session directory stay where they are. */
    constructor (timeoutSeconds: int, files: map<string, Stored>)
      ensures this.timeoutSeconds == timeoutSeconds && this.files == files
    {
      this.timeoutSeconds := timeoutSeconds;
      this.files := files;
    }

    /** `_save_session` */
    method Save(id: string, s: seq<(string, Json)>)
      modifies this
      ensures files == old(files)[id := Parsed(JObj(s))]
    {
      files := files[id := Parsed(JObj(s))];
    }

    /** `create_session` */
    method CreateSession(title: string, llmProvider: Option<string>, llmModel: Option<string>,
                         mcpServerId: Option<string>, freshId: string, now: int) returns (s: seq<(string, Json)>)
      modifies this
      ensures s == CreateRecord(freshId, title, llmProvider, llmModel, mcpServerId, now)
      ensures files == old(files)[freshId := Parsed(JObj(s))]
    {
      s := CreateRecord(freshId, title, llmProvider, llmModel, mcpServerId, now);
      Save(freshId, s);
    }

    /** `_check_session_timeout`, saving the record when its flag changed. */
    method CheckSessionTimeout(s: seq<(string, Json)>, now: int) returns (r: Result<seq<(string, Json)>>)
      modifies this
      ensures var c := CheckTimeout(s, now, timeoutSeconds);
              (c.Err? ==> r == Err(c.error) && files == old(files)) &&
              (c.Ok? ==> r == Ok(c.value.session) && files == Written(old(files), c.value))
    {
      if s == [] {
        return Ok(s);
      }
      var session := s;
      if Lookup(session, "last_activity").None? {
        session := Put(session, "last_activity", JInt(now));
        if Lookup(session, "id").Some? {
          Save(PyStr(Lookup(session, "id").value), session);
        }
        return Ok(session);
      }
      var last := Lookup(session, "last_activity").value;
      var t := Seconds(last);
      if t.None? {
        return Err(Error(TypeError, "unsupported operand type(s) for -: 'int' and '" + TypeName(last) + "'"));
      }
      if now - t.value > timeoutSeconds {
        if !TimedOut(session) {
          session := Put(session, "timed_out", JBool(true));
          var id := Lookup(session, "id").GetOr(JNull);
          if Truthy(id) {
            Save(PyStr(id), session);
          }
        }
      } else if TimedOut(session) {
        session := Remove(session, "timed_out");
        var id := Lookup(session, "id").GetOr(JNull);
        if Truthy(id) {
          Save(PyStr(id), session);
        }
      }
      return Ok(session);
    }

    /** `get_session` */
    method GetSession(id: string, now: int) returns (s: seq<(string, Json)>)
      modifies this
      ensures s == Fetch(old(files), id, now, timeoutSeconds).session
      ensures files == Fetch(old(files), id, now, timeoutSeconds).files
    {
      if id !in files {
        return [];
      }
      match files[id]
      case Corrupt =>
        return InvalidRecord(id, now);
      case Parsed(j) =>
        if !j.JObj? {
          return [];
        }
        var checked := CheckSessionTimeout(Completed(j.fields, id, now), now);
        s := if checked.Ok? then checked.value else [];
    }

    /** `update_session`: the record is saved under `id` when the guards pass. */
    method UpdateSession(id: string, update: seq<(string, Json)>, now: int) returns (r: Result<seq<(string, Json)>>)
      modifies this
      ensures var f := Fetch(old(files), id, now, timeoutSeconds);
              r == Updated(f.session, id, update, now) &&
              files == if r.Ok? then f.files[id := Parsed(JObj(r.value))] else f.files
    {
      var s := GetSession(id, now);
      r := Updated(s, id, update, now);
      if r.Ok? {
        Save(id, r.value);
      }
    }

    /** `update_session_activity` */
    method UpdateSessionActivity(id: string, now: int) returns (r: Result<seq<(string, Json)>>)
      modifies this
      ensures var f := Fetch(old(files), id, now, timeoutSeconds);
              r == Activated(f.session, id, now) &&
              files == if r.Ok? then f.files[id := Parsed(JObj(r.value))] else f.files
    {
      var s := GetSession(id, now);
      r := Activated(s, id, now);
      if r.Ok? {
        Save(id, r.value);
      }
    }

    /** `delete_session`: true exactly when there was a file to remove. */
    method DeleteSession(id: string) returns (deleted: bool)
      modifies this
      ensures deleted <==> id in old(files)
      ensures files == old(files) - {id}
    {
      deleted := id in files;
      files := files - {id};
    }

    /** `get_messages` */
    method GetMessages(sessionId: string, now: int) returns (r: Result<Json>)
      modifies this
      ensures var f := Fetch(old(files), sessionId, now, timeoutSeconds);
              r == MessagesOf(f.session, sessionId) && files == f.files
    {
      var s := GetSession(sessionId, now);
      r := MessagesOf(s, sessionId);
    }

    /** `add_message`: the message is returned and the record saved. */
    method AddMessage(sessionId: string, role: string, content: Json, toolCallId: Option<string>,
                      messageId: string, now: int) returns (r: Result<Json>)
      modifies this
      ensures var f := Fetch(old(files), sessionId, now, timeoutSeconds);
              var a := Appended(f.session, sessionId, role, content, toolCallId, messageId, now);
              (a.Err? ==> r == Err(a.error) && files == f.files) &&
              (a.Ok? ==> r == Ok(a.value.0) && files == f.files[sessionId := Parsed(JObj(a.value.1))])
    {
      var s := GetSession(sessionId, now);
      var a := Appended(s, sessionId, role, content, toolCallId, messageId, now);
      if a.Err? {
        return Err(a.error);
      }
      Save(sessionId, a.value.1);
      r := Ok(a.value.0);
    }

    /** `clear_messages` */
    method ClearMessages(sessionId: string, now: int) returns (r: Result<bool>)
      modifies this
      ensures var f := Fetch(old(files), sessionId, now, timeoutSeconds);
              var c := Cleared(f.session, sessionId, now);
              (c.Err? ==> r == Err(c.error) && files == f.files) &&
              (c.Ok? ==> r == Ok(true) && files == f.files[sessionId := Parsed(JObj(c.value))])
    {
      var s := GetSession(sessionId, now);
      var c := Cleared(s, sessionId, now);
      if c.Err? {
        return Err(c.error);
      }
      Save(sessionId, c.value);
      r := Ok(true);
    }

    /** `get_llm_messages` */
    method GetLlmMessages(messages: seq<Json>) returns (r: seq<Json>)
      ensures r == LlmMessages(messages)
    {
      r := [];
      for i := 0 to |messages|
        invariant r == LlmMessages(messages[..i])
      {
        assert messages[..i + 1][..i] == messages[..i];
        var e := LlmEntry(messages[i]);
        if e.Some? {
          r := r + [e.value];
        }
      }
      assert messages[..|messages|] == messages;
    }
  }
}
