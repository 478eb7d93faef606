/** The request shaping of mcp_backend/app/services/llm_service.py: message
    validation and vendor dispatch in `LLMService.get_completion`, the
    message formatting of `_openrouter_completion`, the `LLMServiceManager`
    registry, and the message formatting of `ProviderManager.chat_with_tools`.

    The HTTP calls are not modelled: a completion that reaches an adapter is
    the request it would send (`Request`), a model-list query that reaches
    one is `FetchModels`. `uuid4()` values are parameters. */
module LlmService {
  import opened Base
  import opened Text
  import opened Json
  import opened ProviderConfigModel

  /** The vendors with an adapter. */
  datatype Vendor = OpenAi | OpenRouter | DeepSeek | Qwen

  /** The adapter for a provider name, compared in lower case. */
  function VendorNamed(name: string): (v: Option<Vendor>)
    ensures v == Some(OpenAi) <==> Lower(name) == "openai"
    ensures v == Some(OpenRouter) <==> Lower(name) == "openrouter"
    ensures v == Some(DeepSeek) <==> Lower(name) == "deepseek"
    ensures v == Some(Qwen) <==> Lower(name) == "qwen"
  {
    var n := Lower(name);
    if n == "openai" then Some(OpenAi)
    else if n == "openrouter" then Some(OpenRouter)
    else if n == "deepseek" then Some(DeepSeek)
    else if n == "qwen" then Some(Qwen)
    else None
  }

  lemma LowerTwice(s: string)
    ensures Lower(Lower(s)) == Lower(s)
  {
    assert forall i :: 0 <= i < |s| ==> LowerChar(LowerChar(s[i])) == LowerChar(s[i]);
  }

  /** Dispatch ignores letter case. */
  lemma VendorIgnoresCase(name: string)
    ensures VendorNamed(Lower(name)) == VendorNamed(name)
  {
    LowerTwice(name);
  }

  /** `{"error": message}` */
  function ErrorReply(message: string): (j: Json)
    ensures Get(j, "error") == Some(JStr(message))
  {
    JObj([("error", JStr(message))])
  }

  /** `{"error": message, "models": []}` */
  function NoModelsReply(message: string): (j: Json)
    ensures Get(j, "error") == Some(JStr(message)) && Get(j, "models") == Some(JArr([]))
  {
    var fs := [("error", JStr(message)), ("models", JArr([]))];
    LookupFirst(fs, 1);
    JObj(fs)
  }

  // ---------------------------------------------------------------------
  // Loop outputs

  /** `acc` followed by the rest of a loop's output, or the rest's exception. */
  function Prefixed<T>(acc: seq<T>, rest: Result<seq<T>>): Result<seq<T>> {
    if rest.Ok? then Ok(acc + rest.value) else rest
  }

  /** `acc` followed by the rest of a loop's text, or the rest's exception. */
  function PrefixedText(acc: string, rest: Result<string>): Result<string> {
    if rest.Ok? then Ok(acc + rest.value) else rest
  }

  /** What one iteration appends: nothing for a skipped message. */
  function Listed<T>(e: Option<T>): (r: seq<T>)
    ensures |r| <= 1 && (e.Some? ==> r == [e.value]) && (e.None? ==> r == [])
  {
    if e.Some? then [e.value] else []
  }

  /** Appending to the accumulator one step at a time. */
  lemma PrefixedAssoc<T>(acc: seq<T>, x: seq<T>, rest: Result<seq<T>>)
    ensures Prefixed(acc, Prefixed(x, rest)) == Prefixed(acc + x, rest)
  {
    if rest.Ok? {
      assert acc + (x + rest.value) == (acc + x) + rest.value;
    }
  }

  lemma PrefixedNothing<T>(rest: Result<seq<T>>)
    ensures Prefixed([], rest) == rest
  {
    if rest.Ok? {
      assert [] + rest.value == rest.value;
    }
  }

  lemma PrefixedTextNothing(rest: Result<string>)
    ensures PrefixedText("", rest) == rest
  {
    if rest.Ok? {
      assert "" + rest.value == rest.value;
    }
  }

  lemma PrefixedTextAssoc(acc: string, x: string, rest: Result<string>)
    ensures PrefixedText(acc, PrefixedText(x, rest)) == PrefixedText(acc + x, rest)
  {
    if rest.Ok? {
      assert acc + (x + rest.value) == (acc + x) + rest.value;
    }
  }

  /** A formatting loop over per-message outcomes: the kept entries in
      order, or the first exception. */
  function Gather<T>(es: seq<Result<Option<T>>>): (r: Result<seq<T>>)
    ensures r.Ok? ==> |r.value| <= |es|
    decreases |es|
  {
    if es == [] then Ok([])
    else if es[0].Err? then Err(es[0].error)
    else Prefixed(Listed(es[0].value), Gather(es[1..]))
  }

  /** The loop fails exactly when some outcome is an exception, and then
      with the first one. */
  lemma {:induction false} GatherFails<T>(es: seq<Result<Option<T>>>)
    ensures Gather(es).Ok? <==> forall k :: 0 <= k < |es| ==> es[k].Ok?
    ensures Gather(es).Err? ==> exists k :: 0 <= k < |es| && es[k].Err? && Gather(es) == Err(es[k].error) &&
                                            forall l :: 0 <= l < k ==> es[l].Ok?
    decreases |es|
  {
    if es != [] {
      GatherFails(es[1..]);
      assert forall k :: 1 <= k < |es| ==> es[1..][k - 1] == es[k];
      if es[0].Ok? && Gather(es[1..]).Err? {
        var k :| 0 <= k < |es[1..]| && es[1..][k].Err? && Gather(es[1..]) == Err(es[1..][k].error) &&
                 forall l :: 0 <= l < k ==> es[1..][l].Ok?;
        assert es[k + 1] == es[1..][k];
        assert forall l :: 1 <= l < k + 1 ==> es[l] == es[1..][l - 1];
      }
    }
  }

  /** When the loop succeeds, the outcome at `p` was no exception. */
  lemma {:induction false} GatherOkAt<T>(es: seq<Result<Option<T>>>, p: nat)
    requires Gather(es).Ok? && p < |es|
    ensures es[p].Ok?
    decreases p
  {
    if p > 0 {
      GatherOkAt(es[1..], p - 1);
      assert es[1..][p - 1] == es[p];
    }
  }

  /** The positions, counted from `i`, of the outcomes that keep an entry. */
  function Kept<T>(es: seq<Result<Option<T>>>, i: nat): (ps: seq<nat>)
    ensures forall k :: 0 <= k < |ps| ==> i <= ps[k] < i + |es|
    decreases |es|
  {
    if es == [] then []
    else (if es[0].Ok? && es[0].value.Some? then [i] else []) + Kept(es[1..], i + 1)
  }

  /** The kept positions are increasing. */
  lemma {:induction false} KeptIncreasing<T>(es: seq<Result<Option<T>>>, i: nat)
    ensures forall k, l :: 0 <= k < l < |Kept(es, i)| ==> Kept(es, i)[k] < Kept(es, i)[l]
    decreases |es|
  {
    if es != [] {
      KeptIncreasing(es[1..], i + 1);
      var head := if es[0].Ok? && es[0].value.Some? then [i] else [];
      var tail := Kept(es[1..], i + 1);
      var ps := Kept(es, i);
      assert ps == head + tail;
      var h := |head|;
      forall k, l | 0 <= k < l < |ps|
        ensures ps[k] < ps[l]
      {
        assert ps[l] == tail[l - h];
        if k < h {
          assert ps[k] == i && i < tail[l - h];
        } else {
          assert ps[k] == tail[k - h] && tail[k - h] < tail[l - h];
        }
      }
    }
  }

  lemma {:induction false} KeptMembers<T>(es: seq<Result<Option<T>>>, i: nat, p: nat)
    requires i <= p < i + |es|
    ensures p in Kept(es, i) <==> es[p - i].Ok? && es[p - i].value.Some?
    decreases |es|
  {
    if p > i {
      KeptMembers(es[1..], i + 1, p);
      assert es[1..][p - (i + 1)] == es[p - i];
    }
  }

  /** When the loop succeeds, position `p` is kept just when its outcome
      gives an entry. */
  lemma KeptAt<T>(es: seq<Result<Option<T>>>, p: nat)
    requires Gather(es).Ok? && p < |es|
    ensures es[p].Ok? && (p in Kept(es, 0) <==> es[p].value.Some?)
  {
    GatherOkAt(es, p);
    KeptMembers(es, 0, p);
  }

  /** The loop keeps one entry per kept position. */
  lemma {:induction false} GatherLength<T>(es: seq<Result<Option<T>>>, i: nat, r: seq<T>)
    requires Gather(es) == Ok(r)
    ensures |r| == |Kept(es, i)|
    decreases |es|
  {
    if es != [] {
      GatherLength(es[1..], i + 1, Gather(es[1..]).value);
    }
  }

  /** The `k`-th entry is the one kept at the `k`-th kept position. */
  lemma {:induction false} GatherAt<T>(es: seq<Result<Option<T>>>, i: nat, r: seq<T>, k: nat)
    requires Gather(es) == Ok(r) && k < |r|
    ensures k < |Kept(es, i)| && es[Kept(es, i)[k] - i] == Ok(Some(r[k]))
    decreases |es|
  {
    GatherLength(es, i, r);
    assert es[0].Ok?;
    var e := es[0].value;
    var rest := Gather(es[1..]).value;
    var tail := Kept(es[1..], i + 1);
    var ps := Kept(es, i);
    if e.Some? {
      assert ps == [i] + tail;
      assert r == [e.value] + rest;
      if k == 0 {
        assert es[0] == Ok(Some(r[0]));
      }
    } else {
      assert ps == tail;
      assert r == rest;
    }
    if !e.Some? || k > 0 {
      var k' := if e.Some? then k - 1 else k;
      assert ps[k] == tail[k'] && r[k] == rest[k'];
      GatherAt(es[1..], i + 1, rest, k');
      var j := tail[k'] - (i + 1);
      TailIndex(es, j + 1);
      assert ps[k] - i == j + 1;
      assert es[j + 1] == Ok(Some(r[k]));
    }
  }

  lemma TailIndex<T>(xs: seq<T>, j: nat)
    requires 1 <= j < |xs|
    ensures xs[1..][j - 1] == xs[j]
  {
  }

  /** The loop keeps the order of its input: the `k`-th entry is the one
      kept at the `k`-th kept position. */
  lemma GatherOrder<T>(es: seq<Result<Option<T>>>, i: nat, r: seq<T>)
    requires Gather(es) == Ok(r)
    ensures |r| == |Kept(es, i)|
    ensures forall k :: 0 <= k < |r| ==> es[Kept(es, i)[k] - i] == Ok(Some(r[k]))
  {
    GatherLength(es, i, r);
    forall k | 0 <= k < |r|
      ensures es[Kept(es, i)[k] - i] == Ok(Some(r[k]))
    {
      GatherAt(es, i, r, k);
    }
  }

  // ---------------------------------------------------------------------
  // Validation

  /** The ValueError text for a message `get_completion` refuses, if any. */
  function MessageProblem(m: Json): (p: Option<string>)
    ensures p.None? <==> m.JObj? && Has(m, "role") && (Has(m, "content") || Has(m, "tool_calls"))
  {
    if !m.JObj? then Some("每条消息必须是字典格式")
    else if !Has(m, "role") then Some("每条消息必须包含role字段")
    else if !Has(m, "content") && !Has(m, "tool_calls") then Some("每条消息必须包含content或tool_calls字段")
    else None
  }

  /** The first refused message's problem. */
  function FirstProblem(ms: seq<Json>): (p: Option<string>)
    ensures p.None? <==> forall i :: 0 <= i < |ms| ==> MessageProblem(ms[i]).None?
  {
    if ms == [] then None
    else if MessageProblem(ms[0]).Some? then MessageProblem(ms[0])
    else
      var p := FirstProblem(ms[1..]);
      assert forall i :: 1 <= i < |ms| ==> ms[1..][i - 1] == ms[i];
      p
  }

  /** What `get_completion` does: the request an adapter would send, or
      the error dict it returns. */
  datatype Completion = Request(vendor: Vendor, model: string, messages: seq<Json>) | Refused(reply: Json)

  // ---------------------------------------------------------------------
  // OpenRouter message formatting

  predicate OpenRouterRole(role: Json) {
    role == JStr("user") || role == JStr("assistant") || role == JStr("system") || role == JStr("tool")
  }

  /** One part of a list content: a dict's "text" (or its `str`), any other
      item's `str`. */
  function TextPart(item: Json): Json {
    if item.JObj? then GetOr(item, "text", JStr(PyStr(item))) else JStr(PyStr(item))
  }

  /** The strings `" ".join` is given; the first part that is not a string
      makes it raise. */
  function StrParts(parts: seq<Json>, offset: nat): (r: Result<seq<string>>)
    ensures r.Ok? <==> forall i :: 0 <= i < |parts| ==> parts[i].JStr?
    ensures r.Ok? ==> |r.value| == |parts| && forall i :: 0 <= i < |parts| ==> r.value[i] == parts[i].s
  {
    if parts == [] then Ok([])
    else if !parts[0].JStr? then
      Err(Error(TypeError, "sequence item " + NatToString(offset) + ": expected str instance, " +
                           TypeName(parts[0]) + " found"))
    else
      var rest := StrParts(parts[1..], offset + 1);
      assert forall i :: 1 <= i < |parts| ==> parts[1..][i - 1] == parts[i];
      if rest.Err? then rest else Ok([parts[0].s] + rest.value)
  }

  /** A list content joined with spaces. */
  function JoinTexts(items: seq<Json>): (r: Result<string>)
    ensures r.Ok? <==> forall k :: 0 <= k < |items| && items[k].JObj? && Has(items[k], "text") ==>
                                   Lookup(items[k].fields, "text").value.JStr?
  {
    var texts := seq(|items|, i requires 0 <= i < |items| => TextPart(items[i]));
    assert forall k :: 0 <= k < |items| ==> texts[k] == TextPart(items[k]);
    var parts := StrParts(texts, 0);
    if parts.Ok? then Ok(Join(" ", parts.value)) else Err(parts.error)
  }

  /** The content `_openrouter_completion` sends for a message. */
  function OpenRouterContent(msg: seq<(string, Json)>, role: Json): (r: Result<Json>)
    ensures var c := Lookup(msg, "content").GetOr(JStr(""));
            (Has(c, "role") && Has(c, "content") ==> r == Ok(Lookup(c.fields, "content").value)) &&
            (c.JObj? && !(Has(c, "role") && Has(c, "content")) ==> r == Ok(GetOr(c, "text", JStr(PyStr(c))))) &&
            (c.JArr? ==> r.Ok? == JoinTexts(c.items).Ok? && (r.Ok? ==> r == Ok(JStr(JoinTexts(c.items).value)))) &&
            (!c.JObj? && !c.JArr? ==> r == Ok(c))
  {
    var content := Lookup(msg, "content").GetOr(JStr(""));
    if content.JObj? && Has(content, "role") && Has(content, "content") then Ok(Lookup(content.fields, "content").value)
    else if content == JNull && role == JStr("assistant") && Lookup(msg, "tool_calls").Some? then Ok(content)
    else if content.JObj? then Ok(GetOr(content, "text", JStr(PyStr(content))))
    else if content.JArr? then
      var t := JoinTexts(content.items);
      if t.Ok? then Ok(JStr(t.value)) else Err(t.error)
    else Ok(content)
  }

  /** `for tc in x` over a `tool_calls` value. Iterating a dict or a string
      gives strings, which the loop skips, so only a list gives calls. */
  function Iterated(x: Json): Result<seq<Json>> {
    match x
    case JArr(xs) => Ok(xs)
    case JObj(fs) => Ok(seq(|fs|, i requires 0 <= i < |fs| => JStr(fs[i].0)))
    case JStr(s) => Ok(seq(|s|, i requires 0 <= i < |s| => JStr([s[i]])))
    case _ => Err(Error(TypeError, "'" + TypeName(x) + "' object is not iterable"))
  }

  /** One tool call as OpenRouter receives it. A missing or falsy id becomes
      "call_" and eight hex digits of a uuid uuid; dict arguments are sent as
      their JSON text. */
  function OpenRouterCall(tc: seq<(string, Json)>, freshHex: string): (c: Json)
    ensures c.JObj? && Keys(c.fields) == ["id", "type", "function"]
    ensures Truthy(Lookup(tc, "id").GetOr(JNull)) ==> Lookup(c.fields, "id") == Lookup(tc, "id")
    ensures !Truthy(Lookup(tc, "id").GetOr(JNull)) ==> Lookup(c.fields, "id") == Some(JStr("call_" + freshHex))
    ensures Lookup(c.fields, "function") == Some(JObj([("name", Lookup(tc, "name").GetOr(JStr(""))),
                                                        ("arguments", CallArguments(tc))]))
  {
    var id := Or(Lookup(tc, "id").GetOr(JNull), JStr("call_" + freshHex));
    var fs := [("id", id), ("type", JStr("function")),
               ("function", JObj([("name", Lookup(tc, "name").GetOr(JStr(""))), ("arguments", CallArguments(tc))]))];
    LookupFirst(fs, 2);
    JObj(fs)
  }

  /** The arguments of a call: a dict becomes its JSON text. */
  function CallArguments(tc: seq<(string, Json)>): (a: Json)
    ensures var given := Lookup(tc, "arguments").GetOr(JObj([]));
            (given.JObj? ==> a == JStr(Dumps(given))) && (!given.JObj? ==> a == given)
  {
    var args := Lookup(tc, "arguments").GetOr(JObj([]));
    if args.JObj? then JStr(Dumps(args)) else args
  }

  /** The inner loop over an assistant's tool calls, from call `j` on;
      anything but a dict is skipped. `uuid(i, j)` is the hex of the uuid
      the `j`-th call of message `i` would get. */
  function OpenRouterCalls(tcs: seq<Json>, i: nat, j: nat, uuid: (nat, nat) -> string): (r: seq<Json>)
    ensures |r| <= |tcs|
    decreases |tcs|
  {
    if tcs == [] then []
    else (if tcs[0].JObj? then [OpenRouterCall(tcs[0].fields, uuid(i, j))] else []) +
         OpenRouterCalls(tcs[1..], i, j + 1, uuid)
  }

  /** One step of the loop that formats a message's calls. */
  lemma CallsStep(tcs: seq<Json>, i: nat, j: nat, uuid: (nat, nat) -> string, calls: seq<Json>)
    requires j < |tcs|
    requires OpenRouterCalls(tcs, i, 0, uuid) == calls + OpenRouterCalls(tcs[j..], i, j, uuid)
    ensures tcs[j].JObj? ==>
              OpenRouterCalls(tcs, i, 0, uuid) ==
              (calls + [OpenRouterCall(tcs[j].fields, uuid(i, j))]) + OpenRouterCalls(tcs[j + 1..], i, j + 1, uuid)
    ensures !tcs[j].JObj? ==>
              OpenRouterCalls(tcs, i, 0, uuid) == calls + OpenRouterCalls(tcs[j + 1..], i, j + 1, uuid)
  {
    assert tcs[j..][0] == tcs[j] && tcs[j..][1..] == tcs[j + 1..];
    var step := if tcs[j].JObj? then [OpenRouterCall(tcs[j].fields, uuid(i, j))] else [];
    var rest := OpenRouterCalls(tcs[j + 1..], i, j + 1, uuid);
    assert OpenRouterCalls(tcs[j..], i, j, uuid) == step + rest;
    Regrouped(OpenRouterCalls(tcs, i, 0, uuid), calls, step, rest);
  }

  lemma Regrouped<T>(total: seq<T>, done: seq<T>, step: seq<T>, rest: seq<T>)
    requires total == done + (step + rest)
    ensures total == (done + step) + rest
  {
  }

  /** The entry for message `i`: None when it is skipped. The content is
      normalised before a tool message's `tool_call_id` is checked, so a
      content that raises does so even on a message that would be skipped. */
  function OpenRouterEntry(msg: Json, i: nat, uuid: (nat, nat) -> string): (r: Result<Option<Json>>)
    ensures !msg.JObj? ==> r == Ok(None)
    ensures r.Ok? && r.value.Some? ==>
              msg.JObj? && OpenRouterRole(Lookup(msg.fields, "role").GetOr(JStr("user"))) && r.value.value.JObj?
  {
    if !msg.JObj? then Ok(None)
    else
      var role := Lookup(msg.fields, "role").GetOr(JStr("user"));
      if !OpenRouterRole(role) then Ok(None)
      else
        var content := OpenRouterContent(msg.fields, role);
        if content.Err? then Err(content.error)
        else if role == JStr("tool") && Lookup(msg.fields, "tool_call_id").None? then Ok(None)
        else
          var callId := if role == JStr("tool") then Lookup(msg.fields, "tool_call_id") else None;
          if role == JStr("assistant") && Lookup(msg.fields, "tool_calls").Some? then
            var tcs := Iterated(Lookup(msg.fields, "tool_calls").value);
            if tcs.Err? then Err(tcs.error)
            else Ok(Some(JObj(EntryFields(role, content.value, callId, OpenRouterCalls(tcs.value, i, 0, uuid)))))
          else Ok(Some(JObj(EntryFields(role, content.value, callId, []))))
  }

  /** The fields of a kept message: role and content, then the tool call id
      when there is one, then the calls when there are any. */
  function EntryFields(role: Json, content: Json, callId: Option<Json>, calls: seq<Json>): seq<(string, Json)> {
    var base := [("role", role), ("content", content)];
    var fs := if callId.Some? then base + [("tool_call_id", callId.value)] else base;
    if calls == [] then fs else fs + [("tool_calls", JArr(calls))]
  }

  lemma EntryFieldsLookup(role: Json, content: Json, callId: Option<Json>, calls: seq<Json>)
    requires callId.None? || calls == []
    ensures var fs := EntryFields(role, content, callId, calls);
            Lookup(fs, "role") == Some(role) && Lookup(fs, "content") == Some(content) &&
            Lookup(fs, "tool_call_id") == callId &&
            Lookup(fs, "tool_calls") == if calls == [] then None else Some(JArr(calls))
  {
    var fs := EntryFields(role, content, callId, calls);
    if callId.Some? {
      assert fs == [("role", role), ("content", content), ("tool_call_id", callId.value)];
      TripleFields("role", role, "content", content, "tool_call_id", callId.value);
      assert "tool_calls" !in Keys(fs);
    } else if calls != [] {
      assert fs == [("role", role), ("content", content), ("tool_calls", JArr(calls))];
      TripleFields("role", role, "content", content, "tool_calls", JArr(calls));
      assert "tool_call_id" !in Keys(fs);
    } else {
      PairFields("role", role, "content", content);
      assert "tool_calls" !in Keys(fs) && "tool_call_id" !in Keys(fs);
    }
  }

  /** Non-dict messages, roles outside user/assistant/system/tool, and tool
      messages without a `tool_call_id` are skipped. */
  lemma OpenRouterSkips(msg: Json, i: nat, uuid: (nat, nat) -> string)
    ensures !msg.JObj? ==> OpenRouterEntry(msg, i, uuid) == Ok(None)
    ensures msg.JObj? && !OpenRouterRole(Lookup(msg.fields, "role").GetOr(JStr("user"))) ==>
              OpenRouterEntry(msg, i, uuid) == Ok(None)
    ensures msg.JObj? && Lookup(msg.fields, "role") == Some(JStr("tool")) && !Has(msg, "tool_call_id") &&
            OpenRouterContent(msg.fields, JStr("tool")).Ok? ==>
              OpenRouterEntry(msg, i, uuid) == Ok(None)
  {
  }

  /** A kept message has its role, its normalised content, a tool message's
      `tool_call_id`, and the calls an assistant message made. */
  lemma OpenRouterKeeps(msg: Json, i: nat, uuid: (nat, nat) -> string)
    requires OpenRouterEntry(msg, i, uuid).Ok? && OpenRouterEntry(msg, i, uuid).value.Some?
    ensures var e := OpenRouterEntry(msg, i, uuid).value.value;
            var role := Lookup(msg.fields, "role").GetOr(JStr("user"));
            msg.JObj? && OpenRouterRole(role) && e.JObj? &&
            Lookup(e.fields, "role") == Some(role) &&
            Lookup(e.fields, "content") == Some(OpenRouterContent(msg.fields, role).value) &&
            (role == JStr("tool") ==> Lookup(e.fields, "tool_call_id") == Lookup(msg.fields, "tool_call_id") &&
                                      Has(msg, "tool_call_id")) &&
            (role != JStr("tool") ==> Lookup(e.fields, "tool_call_id").None?) &&
            (Lookup(e.fields, "tool_calls").Some? ==> role == JStr("assistant") && Has(msg, "tool_calls"))
  {
    var role := Lookup(msg.fields, "role").GetOr(JStr("user"));
    var content := OpenRouterContent(msg.fields, role).value;
    var callId := if role == JStr("tool") then Lookup(msg.fields, "tool_call_id") else None;
    if role == JStr("assistant") && Lookup(msg.fields, "tool_calls").Some? {
      EntryFieldsLookup(role, content, callId, OpenRouterCalls(Iterated(Lookup(msg.fields, "tool_calls").value).value, i, 0, uuid));
    } else {
      EntryFieldsLookup(role, content, callId, []);
    }
  }

  /** The outcome of every message, each at its own position. */
  function OpenRouterEntries(ms: seq<Json>, uuid: (nat, nat) -> string): (es: seq<Result<Option<Json>>>)
    ensures |es| == |ms| && forall k :: 0 <= k < |ms| ==> es[k] == OpenRouterEntry(ms[k], k, uuid)
  {
    seq(|ms|, k requires 0 <= k < |ms| => OpenRouterEntry(ms[k], k, uuid))
  }

  /** The messages `_openrouter_completion` sends, or the exception its
      formatting loop raises. */
  function OpenRouterMessages(ms: seq<Json>, uuid: (nat, nat) -> string): (r: Result<seq<Json>>)
    ensures r.Ok? ==> |r.value| <= |ms|
    ensures r.Ok? <==> forall k :: 0 <= k < |ms| ==> OpenRouterEntry(ms[k], k, uuid).Ok?
  {
    GatherFails(OpenRouterEntries(ms, uuid));
    Gather(OpenRouterEntries(ms, uuid))
  }

  /** Formatting keeps exactly the messages that are not skipped, in order,
      and fails only when one of them raises. */
  lemma OpenRouterOrder(ms: seq<Json>, uuid: (nat, nat) -> string, r: seq<Json>)
    requires OpenRouterMessages(ms, uuid) == Ok(r)
    ensures |r| == |Kept(OpenRouterEntries(ms, uuid), 0)|
    ensures forall k :: 0 <= k < |r| ==>
              var p := Kept(OpenRouterEntries(ms, uuid), 0)[k];
              p < |ms| && OpenRouterEntry(ms[p], p, uuid) == Ok(Some(r[k]))
    ensures forall p :: 0 <= p < |ms| ==>
              OpenRouterEntry(ms[p], p, uuid).Ok? &&
              (p in Kept(OpenRouterEntries(ms, uuid), 0) <==> OpenRouterEntry(ms[p], p, uuid).value.Some?)
  {
    var es := OpenRouterEntries(ms, uuid);
    var ps := Kept(es, 0);
    GatherOrder(es, 0, r);
    forall k | 0 <= k < |r|
      ensures ps[k] < |ms| && OpenRouterEntry(ms[ps[k]], ps[k], uuid) == Ok(Some(r[k]))
    {
      assert es[ps[k]] == Ok(Some(r[k]));
    }
    forall p | 0 <= p < |ms|
      ensures OpenRouterEntry(ms[p], p, uuid).Ok? &&
              (p in ps <==> OpenRouterEntry(ms[p], p, uuid).value.Some?)
    {
      KeptAt(es, p);
    }
  }

  // ---------------------------------------------------------------------
  // ProviderManager message formatting

  /** `x[k]` for a string key: a dict's value, KeyError on a missing key,
      TypeError on anything else. */
  function Subscript(x: Json, k: string): (r: Result<Json>)
    ensures r.Ok? <==> Has(x, k)
    ensures r.Ok? ==> r.value == Lookup(x.fields, k).value
  {
    match x
    case JObj(fs) => if Lookup(fs, k).Some? then Ok(Lookup(fs, k).value) else Err(Error(KeyError, "'" + k + "'"))
    case JArr(_) => Err(Error(TypeError, "list indices must be integers or slices, not str"))
    case JStr(_) => Err(Error(TypeError, "string indices must be integers, not 'str'"))
    case _ => Err(Error(TypeError, "'" + TypeName(x) + "' object is not subscriptable"))
  }

  /** `name in container` for a string `name`. */
  function PyIn(name: string, container: Json): Result<bool> {
    match container
    case JArr(xs) => Ok(JStr(name) in xs)
    case JStr(s) => Ok(Contains(s, name))
    case JObj(fs) => Ok(name in Keys(fs))
    case _ => Err(Error(TypeError, "argument of type '" + TypeName(container) + "' is not iterable"))
  }

  /** One parameter line of a tool description. */
  function ParamLine(name: string, info: Json, required: Json): Result<string> {
    var isRequired := PyIn(name, required);
    if isRequired.Err? then Err(isRequired.error)
    else if !info.JObj? then Err(NoAttribute(info, "get"))
    else Ok("\n    - " + name + ": " + PyStr(GetOr(info, "description", JStr("无描述"))) +
            (if isRequired.value then " (必需)" else ""))
  }

  /** The parameter lines, in the order of the "properties" dict. */
  function ParamLines(params: seq<(string, Json)>, required: Json): Result<string>
    decreases |params|
  {
    if params == [] then Ok("")
    else
      var line := ParamLine(params[0].0, params[0].1, required);
      if line.Err? then line else PrefixedText(line.value, ParamLines(params[1..], required))
  }

  /** The header line of a tool, and its parameter section when it has
      "parameters". */
  function ToolHead(tool: Json): (r: Result<string>)
    ensures r.Ok? <==> Has(tool, "name")
  {
    var name := Subscript(tool, "name");
    if name.Err? then Err(name.error)
    else Ok("\n- " + PyStr(name.value) + ": " + PyStr(GetOr(tool, "description", JStr("无描述"))))
  }

  /** The parameters dict of a tool and the "required" value beside it. */
  function ToolParams(tool: Json): Result<(seq<(string, Json)>, Json)>
    requires Has(tool, "parameters")
  {
    var p := Lookup(tool.fields, "parameters").value;
    if !p.JObj? then Err(NoAttribute(p, "get"))
    else
      var props := GetOr(p, "properties", JObj([]));
      if !props.JObj? then Err(NoAttribute(props, "items"))
      else Ok((props.fields, GetOr(p, "required", JArr([]))))
  }

  /** A tool's description. */
  function DescribeTool(tool: Json): Result<string> {
    var head := ToolHead(tool);
    if head.Err? then head
    else if !Has(tool, "parameters") then head
    else
      var params := ToolParams(tool);
      if params.Err? then Err(params.error)
      else
        var lines := ParamLines(params.value.0, params.value.1);
        if lines.Err? then lines else Ok(head.value + "\n  参数:" + lines.value)
  }

  /** The tool descriptions, one after another. */
  function DescribeTools(tools: seq<Json>): (r: Result<string>)
    ensures tools == [] ==> r == Ok("")
    ensures r.Ok? ==> forall k :: 0 <= k < |tools| ==> Has(tools[k], "name")
    decreases |tools|
  {
    if tools == [] then Ok("")
    else
      var d := DescribeTool(tools[0]);
      if d.Err? then d else PrefixedText(d.value, DescribeTools(tools[1..]))
  }

  /** A tool without a name makes the whole description raise. */
  lemma {:induction false} NamelessToolRaises(tools: seq<Json>, k: nat)
    requires k < |tools| && !Has(tools[k], "name")
    ensures DescribeTools(tools).Err?
    decreases k
  {
    if k > 0 {
      assert tools[1..][k - 1] == tools[k];
      NamelessToolRaises(tools[1..], k - 1);
    }
  }

  /** The opening line of the system message. */
  const PromptHead := "你是一个能够使用外部工具的助手，可以使用以下工具：\n"

  /** The system message: the opening, the tool descriptions, and the fixed
      rules text that follows them. */
  function SystemMessage(tools: string, rules: string): Json {
    JObj([("role", JStr("system")), ("content", JStr(PromptHead + tools + "\n\n" + rules))])
  }

  /** The entry for the `i`-th history message; `uuid(i)` is the uuid it
      may need. Non-dicts are skipped; a dict content holding a "tool_call"
      becomes an assistant call, one holding "name" and "result" a tool
      result, any other dict its JSON text, anything else its `str`. */
  function ChatEntry(msg: Json, i: nat, uuid: nat -> string): (r: Result<Option<Json>>)
    ensures r.Ok? && r.value.Some? <==> msg.JObj? && r.Ok?
    ensures !msg.JObj? ==> r == Ok(None)
    ensures r.Ok? && r.value.Some? ==> r.value.value.JObj? && r.value.value.fields != [] &&
                                       r.value.value.fields[0].0 == "role"
  {
    if !msg.JObj? then Ok(None)
    else
      var role := Lookup(msg.fields, "role").GetOr(JStr("user"));
      var content := Lookup(msg.fields, "content").GetOr(JNull);
      if content.JObj? then
        if Has(content, "tool_call") then
          var call := Lookup(content.fields, "tool_call").value;
          var name := Subscript(call, "name");
          if name.Err? then Err(name.error)
          else
            var args := Subscript(call, "arguments");
            if args.Err? then Err(args.error)
            else
              Ok(Some(JObj([("role", JStr("assistant")), ("content", JNull),
                            ("tool_calls", JArr([JObj([("id", JStr(uuid(i))), ("type", JStr("function")),
                                                       ("function", JObj([("name", name.value),
                                                                          ("arguments", JStr(Dumps(args.value)))]))])]))])))
        else if Has(content, "name") && Has(content, "result") then
          Ok(Some(JObj([("role", JStr("tool")), ("content", JStr(PyStr(Lookup(content.fields, "result").value))),
                        ("tool_call_id", JStr(uuid(i)))])))
        else Ok(Some(JObj([("role", role), ("content", JStr(Dumps(content)))])))
      else Ok(Some(JObj([("role", role), ("content", JStr(if content == JNull then "" else PyStr(content)))])))
  }

  /** The four kinds of history entry. Only a tool call whose "name" or
      "arguments" is missing (or that is not a dict) raises. */
  lemma ChatEntryKinds(msg: Json, i: nat, uuid: nat -> string)
    requires msg.JObj?
    ensures var r := ChatEntry(msg, i, uuid);
            var role := Lookup(msg.fields, "role").GetOr(JStr("user"));
            var c := Lookup(msg.fields, "content").GetOr(JNull);
            (r.Err? <==> Has(c, "tool_call") &&
                         !(Has(Lookup(c.fields, "tool_call").value, "name") &&
                           Has(Lookup(c.fields, "tool_call").value, "arguments"))) &&
            (r.Ok? ==> r.value.Some? && r.value.value.JObj?) &&
            (r.Ok? && Has(c, "tool_call") ==>
               var e := r.value.value;
               var call := Lookup(c.fields, "tool_call").value;
               Get(e, "role") == Some(JStr("assistant")) && Get(e, "content") == Some(JNull) &&
               Get(e, "tool_calls") == Some(JArr([JObj([("id", JStr(uuid(i))), ("type", JStr("function")),
                 ("function", JObj([("name", Lookup(call.fields, "name").value),
                                    ("arguments", JStr(Dumps(Lookup(call.fields, "arguments").value)))]))])]))) &&
            (r.Ok? && c.JObj? && !Has(c, "tool_call") && Has(c, "name") && Has(c, "result") ==>
               var e := r.value.value;
               Get(e, "role") == Some(JStr("tool")) &&
               Get(e, "content") == Some(JStr(PyStr(Lookup(c.fields, "result").value))) &&
               Get(e, "tool_call_id") == Some(JStr(uuid(i)))) &&
            (r.Ok? && c.JObj? && !Has(c, "tool_call") && !(Has(c, "name") && Has(c, "result")) ==>
               r.value.value == JObj([("role", role), ("content", JStr(Dumps(c)))])) &&
            (!c.JObj? ==>
               r.value.value == JObj([("role", role), ("content", JStr(if c == JNull then "" else PyStr(c)))]))
  {
    var c := Lookup(msg.fields, "content").GetOr(JNull);
    if Has(c, "tool_call") {
      ToolCallEntry(msg, i, uuid);
    } else if c.JObj? && Has(c, "name") && Has(c, "result") {
      ToolResultEntry(msg, i, uuid);
    }
  }

  /** A history message whose content holds a tool call. */
  lemma ToolCallEntry(msg: Json, i: nat, uuid: nat -> string)
    requires msg.JObj? && Has(Lookup(msg.fields, "content").GetOr(JNull), "tool_call")
    ensures var r := ChatEntry(msg, i, uuid);
            var call := Lookup(Lookup(msg.fields, "content").GetOr(JNull).fields, "tool_call").value;
            (r.Err? <==> !(Has(call, "name") && Has(call, "arguments"))) &&
            (r.Ok? ==>
               r.value.Some? && r.value.value.JObj? &&
               Get(r.value.value, "role") == Some(JStr("assistant")) && Get(r.value.value, "content") == Some(JNull) &&
               Get(r.value.value, "tool_calls") == Some(JArr([JObj([("id", JStr(uuid(i))), ("type", JStr("function")),
                 ("function", JObj([("name", Lookup(call.fields, "name").value),
                                    ("arguments", JStr(Dumps(Lookup(call.fields, "arguments").value)))]))])])))
  {
    var call := Lookup(Lookup(msg.fields, "content").GetOr(JNull).fields, "tool_call").value;
    if Has(call, "name") && Has(call, "arguments") {
      var calls := JArr([JObj([("id", JStr(uuid(i))), ("type", JStr("function")),
                               ("function", JObj([("name", Lookup(call.fields, "name").value),
                                                  ("arguments", JStr(Dumps(Lookup(call.fields, "arguments").value)))]))])]);
      assert ChatEntry(msg, i, uuid) ==
             Ok(Some(JObj([("role", JStr("assistant")), ("content", JNull), ("tool_calls", calls)])));
      TripleFields("role", JStr("assistant"), "content", JNull, "tool_calls", calls);
    }
  }

  /** A history message whose content is a tool result. */
  lemma ToolResultEntry(msg: Json, i: nat, uuid: nat -> string)
    requires msg.JObj?
    requires var c := Lookup(msg.fields, "content").GetOr(JNull);
             c.JObj? && !Has(c, "tool_call") && Has(c, "name") && Has(c, "result")
    ensures var r := ChatEntry(msg, i, uuid);
            var c := Lookup(msg.fields, "content").GetOr(JNull);
            r.Ok? && r.value.Some? && r.value.value.JObj? &&
            Get(r.value.value, "role") == Some(JStr("tool")) &&
            Get(r.value.value, "content") == Some(JStr(PyStr(Lookup(c.fields, "result").value))) &&
            Get(r.value.value, "tool_call_id") == Some(JStr(uuid(i)))
  {
    var c := Lookup(msg.fields, "content").GetOr(JNull);
    var result := JStr(PyStr(Lookup(c.fields, "result").value));
    assert ChatEntry(msg, i, uuid) ==
           Ok(Some(JObj([("role", JStr("tool")), ("content", result), ("tool_call_id", JStr(uuid(i)))])));
    TripleFields("role", JStr("tool"), "content", result, "tool_call_id", JStr(uuid(i)));
  }

  /** The outcome of every history message, each at its own position. */
  function ChatOutcomes(ms: seq<Json>, uuid: nat -> string): (es: seq<Result<Option<Json>>>)
    ensures |es| == |ms| && forall k :: 0 <= k < |ms| ==> es[k] == ChatEntry(ms[k], k, uuid)
  {
    seq(|ms|, k requires 0 <= k < |ms| => ChatEntry(ms[k], k, uuid))
  }

  /** The history loop. */
  function ChatEntries(ms: seq<Json>, uuid: nat -> string): Result<seq<Json>> {
    Gather(ChatOutcomes(ms, uuid))
  }

  /** The messages `chat_with_tools` passes on, or the exception it catches. */
  function ChatMessages(tools: Option<seq<Json>>, ms: seq<Json>, uuid: nat -> string, rules: string)
    : (r: Result<seq<Json>>)
    ensures r.Ok? && tools.Some? ==> forall k :: 0 <= k < |tools.value| ==> Has(tools.value[k], "name")
  {
    var desc := if tools.Some? && tools.value != [] then DescribeTools(tools.value) else Ok("");
    if desc.Err? then Err(desc.error)
    else
      var entries := ChatEntries(ms, uuid);
      if entries.Err? then entries else Ok([SystemMessage(desc.value, rules)] + entries.value)
  }

  /** The history loop keeps exactly the dict messages: position `p` is
      kept just when the `p`-th message is a dict. */
  lemma ChatEntriesKept(ms: seq<Json>, uuid: nat -> string)
    requires ChatEntries(ms, uuid).Ok?
    ensures forall p :: 0 <= p < |ms| ==> (p in Kept(ChatOutcomes(ms, uuid), 0) <==> ms[p].JObj?)
  {
    var es := ChatOutcomes(ms, uuid);
    forall p | 0 <= p < |ms|
      ensures p in Kept(es, 0) <==> ms[p].JObj?
    {
      KeptAt(es, p);
      EntryKept(es[p], ms[p], p, uuid);
    }
  }

  lemma EntryKept(e: Result<Option<Json>>, msg: Json, i: nat, uuid: nat -> string)
    requires e == ChatEntry(msg, i, uuid) && e.Ok?
    ensures e.value.Some? <==> msg.JObj?
  {
  }

  /** The `k`-th entry of the history loop comes from the `k`-th kept
      message, and every entry starts with its role. */
  lemma ChatEntriesOrder(ms: seq<Json>, uuid: nat -> string)
    requires ChatEntries(ms, uuid).Ok?
    ensures var entries := ChatEntries(ms, uuid).value;
            var ps := Kept(ChatOutcomes(ms, uuid), 0);
            |entries| == |ps| &&
            (forall k :: 0 <= k < |ps| ==> ps[k] < |ms| && ChatEntry(ms[ps[k]], ps[k], uuid) == Ok(Some(entries[k]))) &&
            (forall k :: 0 <= k < |entries| ==> entries[k].JObj? && entries[k].fields != [] && entries[k].fields[0].0 == "role")
  {
    var es := ChatOutcomes(ms, uuid);
    var entries := ChatEntries(ms, uuid).value;
    GatherOrder(es, 0, entries);
    var ps := Kept(es, 0);
    forall k | 0 <= k < |entries|
      ensures entries[k].JObj? && entries[k].fields != [] && entries[k].fields[0].0 == "role"
    {
      assert es[ps[k]] == Ok(Some(entries[k]));
    }
  }

  /** The system message, then the history loop's entries. */
  lemma ChatMessagesSplit(tools: Option<seq<Json>>, ms: seq<Json>, uuid: nat -> string, rules: string)
    requires ChatMessages(tools, ms, uuid, rules).Ok?
    ensures ChatEntries(ms, uuid).Ok?
    ensures var r := ChatMessages(tools, ms, uuid, rules).value;
            r == [r[0]] + ChatEntries(ms, uuid).value
  {
    var r := ChatMessages(tools, ms, uuid, rules).value;
    assert r == [r[0]] + r[1..];
  }

  /** One system message first, then exactly one entry per dict message, in
      order: the `k`-th entry after the system message is made from the
      `k`-th dict message, and every dict message gives one. */
  lemma ChatShape(tools: Option<seq<Json>>, ms: seq<Json>, uuid: nat -> string, rules: string)
    requires ChatMessages(tools, ms, uuid, rules).Ok?
    ensures var r := ChatMessages(tools, ms, uuid, rules).value;
            var ps := Kept(ChatOutcomes(ms, uuid), 0);
            |r| == 1 + |ps| && Get(r[0], "role") == Some(JStr("system")) &&
            (forall p :: 0 <= p < |ms| ==> (p in ps <==> ms[p].JObj?)) &&
            (forall k :: 0 <= k < |ps| ==> ps[k] < |ms| && ChatEntry(ms[ps[k]], ps[k], uuid) == Ok(Some(r[k + 1]))) &&
            (forall k :: 1 <= k < |r| ==> r[k].JObj? && r[k].fields != [] && r[k].fields[0].0 == "role")
  {
    var r := ChatMessages(tools, ms, uuid, rules).value;
    ChatMessagesSplit(tools, ms, uuid, rules);
    var entries := ChatEntries(ms, uuid).value;
    ChatEntriesKept(ms, uuid);
    ChatEntriesOrder(ms, uuid);
    var ps := Kept(ChatOutcomes(ms, uuid), 0);
    forall k | 0 <= k < |ps|
      ensures ps[k] < |ms| && ChatEntry(ms[ps[k]], ps[k], uuid) == Ok(Some(r[k + 1]))
    {
      assert r[k + 1] == entries[k];
    }
    forall k | 1 <= k < |r|
      ensures r[k].JObj? && r[k].fields != [] && r[k].fields[0].0 == "role"
    {
      assert r[k] == entries[k - 1];
    }
  }

  /** What a model-list query does: the adapter whose model list is
      fetched, or the error dict. */
  datatype ModelsReply = FetchModels(vendor: Vendor) | NoModels(reply: Json)

  /** What `ProviderManager.chat_with_tools` does: the messages it hands on
      to the registry's chat, or its error dict. */
  datatype ChatReply = Forward(messages: seq<Json>) | ChatRefused(reply: Json)

  // ---------------------------------------------------------------------
  // Services

  /** `LLMService`: its settings are fixed when it is made. */
  class Service {
    const name: string
    const apiKey: string
    const baseUrl: Option<string>
    const models: seq<string>

    constructor (config: ProviderConfig)
      ensures name == config.name && apiKey == config.apiKey && baseUrl == config.apiBase && models == config.models
    {
      name := config.name;
      apiKey := config.apiKey;
      baseUrl := config.apiBase;
      models := config.models;
    }

    /** `get_completion`: never raises. A falsy model means the first
        configured one, then every message is checked, then the adapter is
        chosen by name. */
    method GetCompletion(messages: Json, model: Option<string>, uuid: (nat, nat) -> string) returns (r: Completion)
      ensures r == CompletionFor(name, models, messages, model, uuid)
    {
      if !(model.Some? && model.value != "") && models == [] {
        return Refused(ErrorReply("LLM调用失败: list index out of range"));
      }
      var modelToUse := if model.Some? && model.value != "" then model.value else models[0];
      if !messages.JArr? {
        return Refused(ErrorReply("LLM调用失败: 消息必须是列表格式"));
      }
      var items := messages.items;
      var problem := CheckMessages(items);
      if problem.Some? {
        return Refused(ErrorReply("LLM调用失败: " + problem.value));
      }
      r := Dispatch(modelToUse, items, uuid);
    }

    /** Choosing the adapter by name and, for OpenRouter, formatting the
        messages. */
    method Dispatch(modelToUse: string, items: seq<Json>, uuid: (nat, nat) -> string) returns (r: Completion)
      ensures r == Dispatched(name, modelToUse, items, uuid)
    {
      var vendor := VendorNamed(name);
      if vendor.None? {
        return Refused(ErrorReply("不支持的LLM供应商: " + name));
      }
      if vendor.value == OpenRouter {
        var formatted := FormatOpenRouter(items, uuid);
        if formatted.Err? {
          return Refused(ErrorReply("LLM调用失败: " + formatted.error.message));
        }
        return Request(OpenRouter, modelToUse, formatted.value);
      }
      return Request(vendor.value, modelToUse, items);
    }

    /** The loop of `get_completion` that stops at the first refused message. */
    static method CheckMessages(items: seq<Json>) returns (problem: Option<string>)
      ensures problem == FirstProblem(items)
    {
      for i := 0 to |items|
        invariant FirstProblem(items) == FirstProblem(items[i..])
      {
        assert items[i..][0] == items[i] && items[i..][1..] == items[i + 1..];
        problem := MessageProblem(items[i]);
        if problem.Some? {
          return;
        }
      }
      assert items[|items|..] == [];
      return None;
    }

    /** `get_available_models`: the adapter's model list, or for an unknown
        vendor an error with no models. */
    function GetAvailableModels(): (r: ModelsReply)
      ensures r.FetchModels? <==> VendorNamed(name).Some?
      ensures r.FetchModels? ==> r.vendor == VendorNamed(name).value
      ensures r.NoModels? ==> r.reply == NoModelsReply("不支持的LLM供应商: " + name)
    {
      var v := VendorNamed(name);
      if v.Some? then FetchModels(v.value) else NoModels(NoModelsReply("不支持的LLM供应商: " + name))
    }

    /** The formatting loop of `_openrouter_completion`. */
    static method FormatOpenRouter(messages: seq<Json>, uuid: (nat, nat) -> string) returns (r: Result<seq<Json>>)
      ensures r == OpenRouterMessages(messages, uuid)
    {
      ghost var es := OpenRouterEntries(messages, uuid);
      var formatted: seq<Json> := [];
      assert es[0..] == es;
      PrefixedNothing(Gather(es));
      for i := 0 to |messages|
        invariant Gather(es) == Prefixed(formatted, Gather(es[i..]))
      {
        assert es[i..][0] == es[i] && es[i..][1..] == es[i + 1..];
        var entry := FormatEntry(messages[i], i, uuid);
        if entry.Err? {
          return Err(entry.error);
        }
        PrefixedAssoc(formatted, Listed(entry.value), Gather(es[i + 1..]));
        formatted := formatted + Listed(entry.value);
      }
      assert es[|messages|..] == [];
      assert formatted + [] == formatted;
      r := Ok(formatted);
    }

    /** One message of the formatting loop: None where the loop continues
        without appending. */
    static method FormatEntry(msg: Json, i: nat, uuid: (nat, nat) -> string) returns (r: Result<Option<Json>>)
      ensures r == OpenRouterEntry(msg, i, uuid)
    {
      if !msg.JObj? {
        return Ok(None);
      }
      var role := Lookup(msg.fields, "role").GetOr(JStr("user"));
      if !OpenRouterRole(role) {
        return Ok(None);
      }
      var content := OpenRouterContent(msg.fields, role);
      if content.Err? {
        return Err(content.error);
      }
      var callId := None;
      if role == JStr("tool") {
        if Lookup(msg.fields, "tool_call_id").None? {
          return Ok(None);
        }
        callId := Lookup(msg.fields, "tool_call_id");
      }
      var calls := [];
      if role == JStr("assistant") && Lookup(msg.fields, "tool_calls").Some? {
        var tcs := Iterated(Lookup(msg.fields, "tool_calls").value);
        if tcs.Err? {
          return Err(tcs.error);
        }
        calls := FormatCalls(tcs.value, i, uuid);
      }
      return Ok(Some(JObj(EntryFields(role, content.value, callId, calls))));
    }

    /** The inner loop over one message's tool calls. */
    static method FormatCalls(tcs: seq<Json>, i: nat, uuid: (nat, nat) -> string) returns (calls: seq<Json>)
      ensures calls == OpenRouterCalls(tcs, i, 0, uuid)
    {
      calls := [];
      assert tcs[0..] == tcs;
      for j := 0 to |tcs|
        invariant OpenRouterCalls(tcs, i, 0, uuid) == calls + OpenRouterCalls(tcs[j..], i, j, uuid)
      {
        CallsStep(tcs, i, j, uuid, calls);
        if tcs[j].JObj? {
          calls := calls + [OpenRouterCall(tcs[j].fields, uuid(i, j))];
        }
      }
      assert tcs[|tcs|..] == [];
    }
  }

  /** What `get_completion` answers. */
  function CompletionFor(name: string, models: seq<string>, messages: Json, model: Option<string>,
                         uuid: (nat, nat) -> string): (r: Completion)
    ensures !(model.Some? && model.value != "") && models == [] ==>
              r == Refused(ErrorReply("LLM调用失败: list index out of range"))
    ensures r.Request? ==> r.model == (if model.Some? && model.value != "" then model.value else models[0])
    ensures r.Request? <==>
              ((model.Some? && model.value != "") || models != []) && messages.JArr? &&
              (forall i :: 0 <= i < |messages.items| ==> MessageProblem(messages.items[i]).None?) &&
              VendorNamed(name).Some? &&
              (VendorNamed(name) == Some(OpenRouter) ==> OpenRouterMessages(messages.items, uuid).Ok?)
    ensures r.Request? ==> r.vendor == VendorNamed(name).value
    ensures r.Request? && r.vendor != OpenRouter ==> r.messages == messages.items
    ensures r.Request? && r.vendor == OpenRouter ==> r.messages == OpenRouterMessages(messages.items, uuid).value
    ensures r.Refused? ==> Get(r.reply, "error").Some?
  {
    if !(model.Some? && model.value != "") && models == [] then
      Refused(ErrorReply("LLM调用失败: list index out of range"))
    else
      var modelToUse := if model.Some? && model.value != "" then model.value else models[0];
      if !messages.JArr? then Refused(ErrorReply("LLM调用失败: 消息必须是列表格式"))
      else if FirstProblem(messages.items).Some? then Refused(ErrorReply("LLM调用失败: " + FirstProblem(messages.items).value))
      else Dispatched(name, modelToUse, messages.items, uuid)
  }

  /** The adapter step of `get_completion`, once the messages are checked. */
  function Dispatched(name: string, modelToUse: string, items: seq<Json>, uuid: (nat, nat) -> string): (r: Completion)
    ensures r.Request? <==>
              VendorNamed(name).Some? && (VendorNamed(name) == Some(OpenRouter) ==> OpenRouterMessages(items, uuid).Ok?)
    ensures r.Request? ==> r.vendor == VendorNamed(name).value && r.model == modelToUse
    ensures r.Request? && r.vendor != OpenRouter ==> r.messages == items
    ensures r.Request? && r.vendor == OpenRouter ==> r.messages == OpenRouterMessages(items, uuid).value
    ensures r.Refused? ==> Get(r.reply, "error").Some?
  {
    if VendorNamed(name).None? then Refused(ErrorReply("不支持的LLM供应商: " + name))
    else if VendorNamed(name).value == OpenRouter then
      var formatted := OpenRouterMessages(items, uuid);
      if formatted.Err? then Refused(ErrorReply("LLM调用失败: " + formatted.error.message))
      else Request(OpenRouter, modelToUse, formatted.value)
    else Request(VendorNamed(name).value, modelToUse, items)
  }

  /** `LLMServiceManager`: the services by name. */
  class ServiceManager {
    var providers: map<string, Service>

    constructor ()
      ensures providers == map[]
    {
      providers := map[];
    }

    /** `add_provider`: a service of the same name is replaced. */
    method AddProvider(config: ProviderConfig) returns (s: Service)
      modifies this
      ensures fresh(s) && s.name == config.name && s.apiKey == config.apiKey && s.baseUrl == config.apiBase &&
              s.models == config.models
      ensures providers == old(providers)[config.name := s]
    {
      s := new Service(config);
      providers := providers[config.name := s];
    }

    /** `get_provider` */
    function GetProvider(name: string): (s: Option<Service>)
      reads this
      ensures s.Some? <==> name in providers
      ensures s.Some? ==> s.value == providers[name]
    {
      if name in providers then Some(providers[name]) else None
    }

    /** `remove_provider`: removing an absent name changes nothing. */
    method RemoveProvider(name: string)
      modifies this
      ensures providers == old(providers) - {name}
      ensures name !in old(providers) ==> providers == old(providers)
    {
      if name in providers {
        providers := providers - {name};
      }
    }

    /** `get_provider_models` */
    method GetProviderModels(name: string) returns (r: ModelsReply)
      ensures name !in providers ==> r == NoModels(NoModelsReply("供应商未找到: " + name))
      ensures name in providers && VendorNamed(providers[name].name).None? ==>
                r == NoModels(NoModelsReply("不支持的LLM供应商: " + providers[name].name))
      ensures name in providers && VendorNamed(providers[name].name).Some? ==>
                r == FetchModels(VendorNamed(providers[name].name).value)
      ensures r.NoModels? ==> Get(r.reply, "models") == Some(JArr([]))
    {
      var provider := GetProvider(name);
      if provider.None? {
        return NoModels(NoModelsReply("供应商未找到: " + name));
      }
      return provider.value.GetAvailableModels();
    }
  }

  /** `ProviderManager`. The fixed rules text of its system message is the
      `rules` constant given when it is made. */
  class ProviderManager {
    const registry: ServiceManager
    const rules: string

    constructor (registry: ServiceManager, rules: string)
      ensures this.registry == registry && this.rules == rules
    {
      this.registry := registry;
      this.rules := rules;
    }

    /** `chat_with_tools`, up to the hand-over to the registry. */
    method ChatWithTools(providerName: string, messages: seq<Json>, tools: Option<seq<Json>>, uuid: nat -> string)
      returns (r: ChatReply)
      ensures providerName !in registry.providers ==> r == ChatRefused(ErrorReply("未找到LLM供应商: " + providerName))
      ensures providerName in registry.providers ==>
                var c := ChatMessages(tools, messages, uuid, rules);
                r == if c.Ok? then Forward(c.value) else ChatRefused(ErrorReply("对话失败: " + c.error.message))
    {
      var service := registry.GetProvider(providerName);
      if service.None? {
        return ChatRefused(ErrorReply("未找到LLM供应商: " + providerName));
      }
      var desc: Result<string> := Ok("");
      if tools.Some? && tools.value != [] {
        desc := DescribeAll(tools.value);
      }
      if desc.Err? {
        return ChatRefused(ErrorReply("对话失败: " + desc.error.message));
      }
      var formatted := AppendHistory([SystemMessage(desc.value, rules)], messages, uuid);
      if formatted.Err? {
        return ChatRefused(ErrorReply("对话失败: " + formatted.error.message));
      }
      r := Forward(formatted.value);
    }

    /** The history loop of `chat_with_tools`, appending to `formatted`. */
    static method AppendHistory(start: seq<Json>, messages: seq<Json>, uuid: nat -> string) returns (r: Result<seq<Json>>)
      ensures r == Prefixed(start, ChatEntries(messages, uuid))
    {
      ghost var es := ChatOutcomes(messages, uuid);
      var formatted := start;
      assert es[0..] == es;
      for i := 0 to |messages|
        invariant Prefixed(start, Gather(es)) == Prefixed(formatted, Gather(es[i..]))
      {
        assert es[i..][0] == es[i] && es[i..][1..] == es[i + 1..];
        var entry := ChatEntry(messages[i], i, uuid);
        if entry.Err? {
          return Err(entry.error);
        }
        PrefixedAssoc(formatted, Listed(entry.value), Gather(es[i + 1..]));
        formatted := formatted + Listed(entry.value);
      }
      assert es[|messages|..] == [];
      assert formatted + [] == formatted;
      r := Ok(formatted);
    }

    /** The tool loop of `chat_with_tools`. */
    static method DescribeAll(tools: seq<Json>) returns (r: Result<string>)
      ensures r == DescribeTools(tools)
    {
      var desc := "";
      assert tools[0..] == tools;
      PrefixedTextNothing(DescribeTools(tools));
      for i := 0 to |tools|
        invariant DescribeTools(tools) == PrefixedText(desc, DescribeTools(tools[i..]))
      {
        assert tools[i..][0] == tools[i] && tools[i..][1..] == tools[i + 1..];
        var text := DescribeOne(tools[i]);
        if text.Err? {
          return text;
        }
        PrefixedTextAssoc(desc, text.value, DescribeTools(tools[i + 1..]));
        desc := desc + text.value;
      }
      assert tools[|tools|..] == [] && desc + "" == desc;
      r := Ok(desc);
    }

    /** One tool of the loop. */
    static method DescribeOne(tool: Json) returns (r: Result<string>)
      ensures r == DescribeTool(tool)
    {
      var head := ToolHead(tool);
      if head.Err? {
        return head;
      }
      var text := head.value;
      if Has(tool, "parameters") {
        var params := ToolParams(tool);
        if params.Err? {
          return Err(params.error);
        }
        var lines := DescribeParams(params.value.0, params.value.1);
        if lines.Err? {
          return lines;
        }
        text := text + "\n  参数:" + lines.value;
      }
      return Ok(text);
    }

    /** The parameter loop of one tool. */
    static method DescribeParams(params: seq<(string, Json)>, required: Json) returns (r: Result<string>)
      ensures r == ParamLines(params, required)
    {
      var text := "";
      assert params[0..] == params;
      PrefixedTextNothing(ParamLines(params, required));
      for i := 0 to |params|
        invariant ParamLines(params, required) == PrefixedText(text, ParamLines(params[i..], required))
      {
        assert params[i..][0] == params[i] && params[i..][1..] == params[i + 1..];
        var line := ParamLine(params[i].0, params[i].1, required);
        if line.Err? {
          return line;
        }
        PrefixedTextAssoc(text, line.value, ParamLines(params[i + 1..], required));
        text := text + line.value;
      }
      assert params[|params|..] == [] && text + "" == text;
      r := Ok(text);
    }
  }
}
