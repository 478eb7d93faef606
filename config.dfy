/** Loading the server and provider lists from already-read configuration
    files (mcp_backend/app/core/config.py). Each load first empties the list
    it rebuilds, so nothing from an earlier load survives; entries that fail
    record validation are skipped and the rest keep their file order. */
module Config {
  import opened Base
  import opened Text
  import opened Json
  import ServerConfigModel
  import ProviderConfigModel

  type ServerConfig = ServerConfigModel.ServerConfig
  type ProviderConfig = ProviderConfigModel.ProviderConfig

  /** What reading a configuration file yields: no file, a file `json.load`
      rejects (its exception is caught by the loader), or parsed JSON. */
  datatype ConfigFile = Missing | Unparsable | Parsed(data: Json)

  /** The name a list entry without "name" gets when it has no "id" either. */
  const UnnamedServer := "未命名服务器"

  // ---------------------------------------------------------------- servers

  /** The defaults an `mcpServers` entry is laid over: id and name are the key. */
  function EntryDefaults(key: string): seq<(string, Json)> {
    [("id", JStr(key)), ("name", JStr(key)), ("type", JStr("stdio"))]
  }

  /** One entry of the `{"mcpServers": {key: {...}}}` format. A value that is
      not a dict makes `**server_config` raise, and the entry is skipped. The
      merged dict always has an id, so the uuid default is never used. */
  function DictEntry(key: string, value: Json): (r: Option<ServerConfig>)
    ensures r.Some? ==> value.JObj? && ServerConfigModel.KnownKind(r.value.kind)
  {
    if !value.JObj? then None
    else
      var r := ServerConfigModel.Validate(Merge(EntryDefaults(key), value.fields), "");
      if r.Ok? then Some(r.value) else None
  }

  /** The configurations kept from the entries of the dict format, in order. */
  function DictEntries(entries: seq<(string, Json)>): (r: seq<ServerConfig>)
    ensures forall c :: c in r ==> ServerConfigModel.KnownKind(c.kind)
    decreases |entries|
  {
    if entries == [] then []
    else
      var last := entries[|entries| - 1];
      var kept := DictEntries(entries[..|entries| - 1]);
      match DictEntry(last.0, last.1)
      case Some(c) => kept + [c]
      case None => kept
  }

  /** One item of the list format after the loader fills in name and type:
      a missing name becomes the id, or "未命名服务器" without one. Items that
      are not dicts raise inside the per-item `try` and are skipped. */
  function ListItemFields(item: seq<(string, Json)>): seq<(string, Json)> {
    var named := if "name" in Keys(item) then item
                 else Put(item, "name", GetOr(JObj(item), "id", JStr(UnnamedServer)));
    if "type" in Keys(named) then named else Put(named, "type", JStr("stdio"))
  }

  function ListItem(item: Json, freshId: string): (r: Option<ServerConfig>)
    ensures r.Some? ==> item.JObj? && ServerConfigModel.KnownKind(r.value.kind)
    ensures r.Some? && "id" !in Keys(item.fields) ==> r.value.id == freshId
  {
    if !item.JObj? then None
    else
      var r := ServerConfigModel.Validate(ListItemFields(item.fields), freshId);
      if r.Ok? then Some(r.value) else None
  }

  /** The configurations kept from the list format; `freshId(i)` is the uuid
      the i-th item would get for a missing id. */
  function ListItems(items: seq<Json>, freshId: nat -> string): (r: seq<ServerConfig>)
    ensures |r| <= |items|
    ensures forall c :: c in r ==> ServerConfigModel.KnownKind(c.kind)
    decreases |items|
  {
    if items == [] then []
    else
      var n := |items| - 1;
      var kept := ListItems(items[..n], freshId);
      match ListItem(items[n], freshId(n))
      case Some(c) => kept + [c]
      case None => kept
  }

  /** What `load_mcp_servers` leaves in `mcp_servers`: a dict whose
      "mcpServers" value is not itself a dict makes `.items()` raise, which
      the outer handler turns into an empty list, as for any other shape. */
  function ServersFrom(file: ConfigFile, freshId: nat -> string): (r: seq<ServerConfig>)
    ensures !file.Parsed? ==> r == []
    ensures file.Parsed? && !file.data.JObj? && !file.data.JArr? ==> r == []
    ensures forall c :: c in r ==> ServerConfigModel.KnownKind(c.kind)
  {
    if !file.Parsed? then []
    else match file.data
      case JObj(fs) =>
        if "mcpServers" !in Keys(fs) then []
        else
          var v := Lookup(fs, "mcpServers").value;
          if v.JObj? then DictEntries(v.fields) else []
      case JArr(items) => ListItems(items, freshId)
      case _ => []
  }

  /** Keeping entries commutes with concatenation: whatever is kept from
      the first part comes before whatever is kept from the second. */
  lemma {:induction false} DictEntriesAppend(a: seq<(string, Json)>, b: seq<(string, Json)>)
    ensures DictEntries(a + b) == DictEntries(a) + DictEntries(b)
    decreases |b|
  {
    if b != [] {
      var b' := b[..|b| - 1];
      DictEntriesAppend(a, b');
      assert (a + b)[..|a + b| - 1] == a + b';
      assert (a + b)[|a + b| - 1] == b[|b| - 1];
    } else {
      assert a + b == a;
    }
  }

  /** Every kept configuration comes from some entry, in order, so at most
      one per entry is kept. */
  lemma {:induction false} DictEntriesBound(entries: seq<(string, Json)>)
    ensures |DictEntries(entries)| <= |entries|
    ensures forall c :: c in DictEntries(entries) ==>
              exists i :: 0 <= i < |entries| && DictEntry(entries[i].0, entries[i].1) == Some(c)
    decreases |entries|
  {
    if entries != [] {
      var init := entries[..|entries| - 1];
      DictEntriesBound(init);
      forall c | c in DictEntries(entries)
        ensures exists i :: 0 <= i < |entries| && DictEntry(entries[i].0, entries[i].1) == Some(c)
      {
        if c in DictEntries(init) {
          var i :| 0 <= i < |init| && DictEntry(init[i].0, init[i].1) == Some(c);
          assert entries[i] == init[i];
        } else {
          var k := |entries| - 1;
          assert DictEntry(entries[k].0, entries[k].1) == Some(c);
        }
      }
    }
  }

  /** In the dict format id and name default to the key and type to stdio;
      a field the entry supplies, an id included, wins over its default. */
  lemma DictEntryDefaults(key: string, value: seq<(string, Json)>, c: ServerConfig)
    requires UniqueKeys(value)
    requires DictEntry(key, JObj(value)) == Some(c)
    ensures "id" !in Keys(value) ==> c.id == key
    ensures "name" !in Keys(value) ==> c.name == key
    ensures "type" !in Keys(value) ==> c.kind == "stdio"
    ensures forall s :: Lookup(value, "id") == Some(JStr(s)) ==> c.id == s
    ensures forall s :: Lookup(value, "name") == Some(JStr(s)) ==> c.name == s
  {
    var d := EntryDefaults(key);
    var merged := Merge(d, value);
    assert ServerConfigModel.Validate(merged, "") == Ok(c);
    assert Lookup(merged, "id") == Some(Lookup(value, "id").GetOr(JStr(key))) by {
      MergeLookup(d, value, "id");
    }
    assert Lookup(merged, "name") == Some(Lookup(value, "name").GetOr(JStr(key))) by {
      MergeLookup(d, value, "name");
    }
    assert Lookup(merged, "type") == Some(Lookup(value, "type").GetOr(JStr("stdio"))) by {
      MergeLookup(d, value, "type");
      assert d[1..][1..] == d[2..];
      assert Lookup(d[2..], "type") == Some(JStr("stdio"));
    }
  }

  /** In the list format a missing name becomes the id, or "未命名服务器";
      a missing type becomes stdio. */
  lemma ListItemDefaults(item: seq<(string, Json)>, freshId: string, c: ServerConfig)
    requires ListItem(JObj(item), freshId) == Some(c)
    ensures "name" !in Keys(item) && Lookup(item, "id").None? ==> c.name == UnnamedServer
    ensures forall s :: "name" !in Keys(item) && Lookup(item, "id") == Some(JStr(s)) ==> c.name == s
    ensures "type" !in Keys(item) ==> c.kind == "stdio"
    ensures "id" !in Keys(item) ==> c.id == freshId
  {
    ListItemFieldsLookup(item);
  }

  /** The name, type and id the loader leaves in one list item. */
  lemma ListItemFieldsLookup(item: seq<(string, Json)>)
    ensures Lookup(ListItemFields(item), "id") == Lookup(item, "id")
    ensures "name" !in Keys(item) ==>
              Lookup(ListItemFields(item), "name") == Some(GetOr(JObj(item), "id", JStr(UnnamedServer)))
    ensures "type" !in Keys(item) ==> Lookup(ListItemFields(item), "type") == Some(JStr("stdio"))
  {
    var dflt := GetOr(JObj(item), "id", JStr(UnnamedServer));
    var named := if "name" in Keys(item) then item else Put(item, "name", dflt);
    assert ListItemFields(item) == if "type" in Keys(named) then named else Put(named, "type", JStr("stdio"));
    if "name" !in Keys(item) {
      PutLookup(item, "name", dflt, "name");
      PutLookup(item, "name", dflt, "id");
    }
    assert Lookup(named, "id") == Lookup(item, "id");
    if "type" !in Keys(named) {
      PutLookup(named, "type", JStr("stdio"), "type");
      PutLookup(named, "type", JStr("stdio"), "name");
      PutLookup(named, "type", JStr("stdio"), "id");
    }
  }

  // -------------------------------------------------------------- providers

  /** `provider_type.lower() == "openrouter"` */
  predicate IsOpenRouter(s: string) {
    Lower(s) == "openrouter"
  }

  /** The single-provider format is a dict with "provider" or "api_key". */
  predicate IsSingleProvider(fs: seq<(string, Json)>) {
    "provider" in Keys(fs) || "api_key" in Keys(fs)
  }

  /** The model list of the single-provider format: "models" when it is a
      list (or absent, giving []), otherwise "model" wrapped in a list when
      it is truthy. */
  function SingleModels(fs: seq<(string, Json)>): Json {
    var models := GetOr(JObj(fs), "models", JArr([]));
    if models.JArr? then models
    else
      var model := GetOr(JObj(fs), "model", JStr(""));
      if Truthy(model) then JArr([model]) else JArr([])
  }

  /** The dict built from the single-provider format, once its type is known
      to be the string `kind` (before case normalisation). */
  function SingleProviderFields(fs: seq<(string, Json)>, kind: string): seq<(string, Json)> {
    var base := [("name", GetOr(JObj(fs), "provider", JStr("default"))),
                 ("type", JStr(if IsOpenRouter(kind) then "OpenRouter" else kind)),
                 ("apiKey", GetOr(JObj(fs), "api_key", JStr(""))),
                 ("models", SingleModels(fs))];
    if "api_base" in Keys(fs) then base + [("apiBase", Lookup(fs, "api_base").value)] else base
  }

  /** The single-provider format. A non-string "provider" makes `.lower()`
      raise outside the inner `try`, which also ends in an empty list. */
  function SingleProvider(fs: seq<(string, Json)>): (r: seq<ProviderConfig>)
    ensures |r| <= 1 && forall c :: c in r ==> c.kind in ProviderConfigModel.VendorTypes
  {
    match GetOr(JObj(fs), "provider", JStr("其他"))
    case JStr(kind) =>
      var r := ProviderConfigModel.Validate(SingleProviderFields(fs, kind));
      if r.Ok? then [r.value] else []
    case _ => []
  }

  /** One item of the provider list: an "openrouter" type in any letter case
      becomes "OpenRouter"; a non-dict item or a non-string type raises inside
      the per-item `try` and the item is skipped. */
  function ProviderItem(item: Json): (r: Option<ProviderConfig>)
    ensures r.Some? ==> item.JObj? && r.value.kind in ProviderConfigModel.VendorTypes
  {
    if !item.JObj? then None
    else
      var t := Lookup(item.fields, "type");
      if t.Some? && !t.value.JStr? then None
      else
        var fs := if t.Some? && IsOpenRouter(t.value.s) then Put(item.fields, "type", JStr("OpenRouter"))
                  else item.fields;
        var r := ProviderConfigModel.Validate(fs);
        if r.Ok? then Some(r.value) else None
  }

  function ProviderItems(items: seq<Json>): (r: seq<ProviderConfig>)
    ensures |r| <= |items|
    ensures forall c :: c in r ==> c.kind in ProviderConfigModel.VendorTypes
    decreases |items|
  {
    if items == [] then []
    else
      var n := |items| - 1;
      match ProviderItem(items[n])
      case Some(c) => ProviderItems(items[..n]) + [c]
      case None => ProviderItems(items[..n])
  }

  /** What `load_llm_providers` leaves in `llm_providers`. */
  function ProvidersFrom(file: ConfigFile): (r: seq<ProviderConfig>)
    ensures !file.Parsed? ==> r == []
    ensures file.Parsed? && file.data.JObj? ==> |r| <= 1
    ensures forall c :: c in r ==> c.kind in ProviderConfigModel.VendorTypes
  {
    if !file.Parsed? then []
    else match file.data
      case JObj(fs) => if IsSingleProvider(fs) then SingleProvider(fs) else []
      case JArr(items) => ProviderItems(items)
      case _ => []
  }

  /** Normalisation makes any casing of "openrouter" the vendor type
      "OpenRouter", in either format: a list item or a single provider so
      typed that is loaded at all is loaded as "OpenRouter". */
  lemma OpenRouterNormalised(item: Json, fs: seq<(string, Json)>, kind: string)
    requires IsOpenRouter(kind)
    ensures item.JObj? && Lookup(item.fields, "type") == Some(JStr(kind)) && ProviderItem(item).Some? ==>
              ProviderItem(item).value.kind == "OpenRouter"
    ensures GetOr(JObj(fs), "provider", JStr("其他")) == JStr(kind) && SingleProvider(fs) != [] ==>
              SingleProvider(fs)[0].kind == "OpenRouter"
  {
    if item.JObj? {
      PutLookup(item.fields, "type", JStr("OpenRouter"), "type");
    }
    var sf := SingleProviderFields(fs, kind);
    assert sf[0].0 == "name" && sf[1] == ("type", JStr("OpenRouter"));
    LookupFirst(sf, 1);
  }

  /** In the single-provider format the name is "provider", or "default"
      without one, and "model" counts only when "models" is present but not
      a list. */
  lemma SingleProviderShape(fs: seq<(string, Json)>, kind: string)
    ensures Lookup(SingleProviderFields(fs, kind), "name") ==
            Some(if "provider" in Keys(fs) then Lookup(fs, "provider").value else JStr("default"))
    ensures Lookup(fs, "models").None? ==> SingleModels(fs) == JArr([])
    ensures forall xs :: Lookup(fs, "models") == Some(JArr(xs)) ==> SingleModels(fs) == JArr(xs)
  {
  }

  // ------------------------------------------------------------ the loader

  class Settings {
    var mcpServers: seq<ServerConfig>
    var llmProviders: seq<ProviderConfig>

    constructor ()
      ensures mcpServers == [] && llmProviders == []
    {
      mcpServers := [];
      llmProviders := [];
    }

    /** `load_mcp_servers`, given what reading `servers.json` produced. */
    method LoadMcpServers(file: ConfigFile, freshId: nat -> string) returns (r: seq<ServerConfig>)
      modifies this
      ensures r == mcpServers == ServersFrom(file, freshId)
      ensures llmProviders == old(llmProviders)
    {
      mcpServers := [];
      if !file.Parsed? {
        return [];
      }
      var loaded: seq<ServerConfig> := [];
      match file.data {
        case JObj(fs) =>
          if "mcpServers" in Keys(fs) {
            var v := Lookup(fs, "mcpServers").value;
            if !v.JObj? {
              return [];
            }
            loaded := LoadDictEntries(v.fields);
          }
        case JArr(items) =>
          loaded := LoadListItems(items, freshId);
        case _ =>
      }
      mcpServers := loaded;
      r := mcpServers;
    }

    /** The loop over `data["mcpServers"].items()`. */
    static method LoadDictEntries(entries: seq<(string, Json)>) returns (loaded: seq<ServerConfig>)
      ensures loaded == DictEntries(entries)
    {
      loaded := [];
      var i := 0;
      while i < |entries|
        invariant 0 <= i <= |entries|
        invariant loaded == DictEntries(entries[..i])
      {
        assert entries[..i + 1][..i] == entries[..i];
        var (key, value) := entries[i];
        if value.JObj? {
          var c := ServerConfigModel.Validate(Merge(EntryDefaults(key), value.fields), "");
          if c.Ok? {
            loaded := loaded + [c.value];
          }
        }
        i := i + 1;
      }
      assert entries[..i] == entries;
    }

    /** The loop over the items of the list format. */
    static method LoadListItems(items: seq<Json>, freshId: nat -> string) returns (loaded: seq<ServerConfig>)
      ensures loaded == ListItems(items, freshId)
    {
      loaded := [];
      var i := 0;
      while i < |items|
        invariant 0 <= i <= |items|
        invariant loaded == ListItems(items[..i], freshId)
      {
        assert items[..i + 1][..i] == items[..i];
        var item := items[i];
        if item.JObj? {
          var fields := item.fields;
          if "name" !in Keys(fields) {
            fields := Put(fields, "name", GetOr(item, "id", JStr(UnnamedServer)));
          }
          if "type" !in Keys(fields) {
            fields := Put(fields, "type", JStr("stdio"));
          }
          var c := ServerConfigModel.Validate(fields, freshId(i));
          if c.Ok? {
            loaded := loaded + [c.value];
          }
        }
        i := i + 1;
      }
      assert items[..i] == items;
    }

    /** `load_llm_providers`, given what reading `llm.json` produced. */
    method LoadLlmProviders(file: ConfigFile) returns (r: seq<ProviderConfig>)
      modifies this
      ensures r == llmProviders == ProvidersFrom(file)
      ensures mcpServers == old(mcpServers)
    {
      llmProviders := [];
      if !file.Parsed? {
        return [];
      }
      match file.data {
        case JObj(fs) =>
          if IsSingleProvider(fs) {
            llmProviders := SingleProvider(fs);
          }
        case JArr(items) =>
          var loaded: seq<ProviderConfig> := [];
          var i := 0;
          while i < |items|
            invariant 0 <= i <= |items|
            invariant loaded == ProviderItems(items[..i])
          {
            assert items[..i + 1][..i] == items[..i];
            match ProviderItem(items[i]) {
              case Some(c) => loaded := loaded + [c];
              case None =>
            }
            i := i + 1;
          }
          assert items[..i] == items;
          llmProviders := loaded;
        case _ =>
      }
      r := llmProviders;
    }
  }
}
