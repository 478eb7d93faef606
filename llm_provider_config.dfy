/** The LLM provider configuration record
    (mcp_backend/app/models/llm_provider_config.py): a vendor type checked
    against a fixed list, and the vendor's default API base URL. */
module ProviderConfigModel {
  import opened Base
  import opened Json
  import ServerConfigModel

  datatype ProviderConfig = ProviderConfig(
    name: string,
    kind: string,              // the `type` field
    apiKey: string,
    apiBase: Option<string>,
    models: seq<string>)

  /** The vendor types `validate_type` accepts. */
  const VendorTypes: seq<string> := ["OpenAI", "Anthropic", "OpenRouter", "DeepSeek", "Qwen", "其他"]

  const Invalid := Error(ValueError, "LLMProviderConfig validation error")

  /** `LLMProviderConfig(**fields)`: name, type and apiKey are required
      strings, apiBase defaults to None and models to []. */
  function Validate(fs: seq<(string, Json)>): (r: Result<ProviderConfig>)
    ensures r.Ok? ==> r.value.kind in VendorTypes
    ensures r.Ok? ==> Lookup(fs, "name") == Some(JStr(r.value.name))
    ensures r.Ok? ==> Lookup(fs, "type") == Some(JStr(r.value.kind))
    ensures r.Ok? ==> Lookup(fs, "apiKey") == Some(JStr(r.value.apiKey))
    ensures r.Ok? && Lookup(fs, "apiBase").None? ==> r.value.apiBase == None
    ensures r.Ok? && Lookup(fs, "models").None? ==> r.value.models == []
  {
    var name := ServerConfigModel.RequiredStr(fs, "name");
    var kind := ServerConfigModel.RequiredStr(fs, "type");
    var kindChecked := if kind.Ok? && kind.value !in VendorTypes then Err(Invalid) else kind;
    var apiKey := ServerConfigModel.RequiredStr(fs, "apiKey");
    var apiBase := ServerConfigModel.OptionalStr(fs, "apiBase");
    var models := match Lookup(fs, "models")
      case None => Ok([])
      case Some(JArr(xs)) =>
        if ServerConfigModel.AllStrings(xs) then Ok(ServerConfigModel.Strings(xs)) else Err(Invalid)
      case _ => Err(Invalid);
    if name.Ok? && kindChecked.Ok? && apiKey.Ok? && apiBase.Ok? && models.Ok? then
      Ok(ProviderConfig(name.value, kindChecked.value, apiKey.value, apiBase.value, models.value))
    else
      Err(Invalid)
  }

  /** Exactly the records with string name, type and apiKey, a listed type,
      an absent, null or string apiBase and an absent or all-string models
      list are accepted, holding those values. */
  lemma ValidateAccepts(fs: seq<(string, Json)>)
    ensures Validate(fs).Ok? <==>
              Lookup(fs, "name").Some? && Lookup(fs, "name").value.JStr? &&
              Lookup(fs, "type").Some? && Lookup(fs, "type").value.JStr? && Lookup(fs, "type").value.s in VendorTypes &&
              Lookup(fs, "apiKey").Some? && Lookup(fs, "apiKey").value.JStr? &&
              ServerConfigModel.OptionalStr(fs, "apiBase").Ok? &&
              (Lookup(fs, "models").None? ||
               (Lookup(fs, "models").value.JArr? && ServerConfigModel.AllStrings(Lookup(fs, "models").value.items)))
    ensures Validate(fs).Ok? ==>
              Validate(fs).value.apiBase == ServerConfigModel.OptionalStr(fs, "apiBase").value &&
              (Lookup(fs, "models").Some? ==>
                 Lookup(fs, "models").value == StrArray(Validate(fs).value.models))
  {
    if Validate(fs).Ok? && Lookup(fs, "models").Some? {
      var xs := Lookup(fs, "models").value.items;
      var ms := Validate(fs).value.models;
      assert ms == ServerConfigModel.Strings(xs);
      assert xs == StrArray(ms).items;
    }
  }

  /** A type outside the vendor list is rejected. */
  lemma UnknownVendorRejected(fs: seq<(string, Json)>, kind: string)
    requires Lookup(fs, "type") == Some(JStr(kind)) && kind !in VendorTypes
    ensures Validate(fs).Err?
  {
  }

  /** The table of default API base URLs. */
  const DefaultBases: map<string, string> := map[
    "OpenAI" := "https://api.openai.com/v1",
    "Anthropic" := "https://api.anthropic.com",
    "OpenRouter" := "https://openrouter.ai/api/v1",
    "DeepSeek" := "https://api.deepseek.com/v1",
    "Qwen" := "https://dashscope.aliyuncs.com/api/v1"
  ]

  /** `get_default_api_base`: the table's URL, "" for a type it lacks. */
  function DefaultApiBase(c: ProviderConfig): (url: string)
    ensures c.kind in DefaultBases ==> url == DefaultBases[c.kind]
    ensures c.kind !in DefaultBases ==> url == ""
  {
    if c.kind in DefaultBases then DefaultBases[c.kind] else ""
  }

  /** Every named vendor has its own https URL; "其他" and unknown types
      get "". */
  lemma DefaultApiBaseByVendor(c: ProviderConfig)
    ensures c.kind in VendorTypes[..5] ==> StartsWithHttps(DefaultApiBase(c))
    ensures c.kind !in VendorTypes[..5] ==> DefaultApiBase(c) == ""
    ensures c.kind == "OpenAI" ==> DefaultApiBase(c) == "https://api.openai.com/v1"
    ensures c.kind == "Anthropic" ==> DefaultApiBase(c) == "https://api.anthropic.com"
    ensures c.kind == "OpenRouter" ==> DefaultApiBase(c) == "https://openrouter.ai/api/v1"
    ensures c.kind == "DeepSeek" ==> DefaultApiBase(c) == "https://api.deepseek.com/v1"
    ensures c.kind == "Qwen" ==> DefaultApiBase(c) == "https://dashscope.aliyuncs.com/api/v1"
  {
    assert VendorTypes[..5] == ["OpenAI", "Anthropic", "OpenRouter", "DeepSeek", "Qwen"];
  }

  predicate StartsWithHttps(s: string) {
    |s| >= 8 && s[..8] == "https://"
  }
}
