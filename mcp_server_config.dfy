/** The MCP server configuration record and its validation
    (mcp_backend/app/models/mcp_server_config.py).

    Constructing the record from a dict validates the supplied fields in
    declaration order; a field-specific check runs on a supplied value only
    (also when it is null), never on a default. The `type` value the later
    checks compare against is the validated one, so a rejected `type` leaves
    those checks nothing to compare with. */
module ServerConfigModel {
  import opened Base
  import opened Json

  datatype ServerConfig = ServerConfig(
    id: string,
    name: string,
    kind: string,                          // the `type` field
    command: Option<string>,
    args: Option<seq<string>>,
    url: Option<string>,
    env: Option<seq<(string, string)>>)

  /** The connection kinds the record accepts. */
  predicate KnownKind(kind: string) {
    kind == "stdio" || kind == "sse"
  }

  /** The exception a failed record construction raises (a ValueError). */
  const Invalid := Error(ValueError, "MCPServerConfig validation error")

  /** A required `str` field. */
  function RequiredStr(fs: seq<(string, Json)>, k: string): (r: Result<string>)
    ensures r.Ok? <==> Lookup(fs, k).Some? && Lookup(fs, k).value.JStr?
    ensures r.Ok? ==> Lookup(fs, k) == Some(JStr(r.value))
  {
    match Lookup(fs, k)
    case Some(JStr(s)) => Ok(s)
    case _ => Err(Invalid)
  }

  /** An `Optional[str]` field: absent or null gives None. */
  function OptionalStr(fs: seq<(string, Json)>, k: string): (r: Result<Option<string>>)
    ensures r == Ok(None) <==> Lookup(fs, k) == None || Lookup(fs, k) == Some(JNull)
    ensures forall s :: r == Ok(Some(s)) <==> Lookup(fs, k) == Some(JStr(s))
  {
    match Lookup(fs, k)
    case None => Ok(None)
    case Some(JNull) => Ok(None)
    case Some(JStr(s)) => Ok(Some(s))
    case _ => Err(Invalid)
  }

  predicate AllStrings(xs: seq<Json>) {
    forall i :: 0 <= i < |xs| ==> xs[i].JStr?
  }

  function Strings(xs: seq<Json>): (r: seq<string>)
    requires AllStrings(xs)
    ensures |r| == |xs| && forall i :: 0 <= i < |xs| ==> xs[i] == JStr(r[i])
  {
    seq(|xs|, i requires 0 <= i < |xs| => xs[i].s)
  }

  /** An `Optional[List[str]]` field. */
  function OptionalStrList(fs: seq<(string, Json)>, k: string): Result<Option<seq<string>>> {
    match Lookup(fs, k)
    case None => Ok(None)
    case Some(JNull) => Ok(None)
    case Some(JArr(xs)) => if AllStrings(xs) then Ok(Some(Strings(xs))) else Err(Invalid)
    case _ => Err(Invalid)
  }

  predicate AllStringValues(fs: seq<(string, Json)>) {
    forall i :: 0 <= i < |fs| ==> fs[i].1.JStr?
  }

  function StringPairs(fs: seq<(string, Json)>): (r: seq<(string, string)>)
    requires AllStringValues(fs)
    ensures |r| == |fs| && forall i :: 0 <= i < |fs| ==> fs[i] == (r[i].0, JStr(r[i].1))
  {
    seq(|fs|, i requires 0 <= i < |fs| => (fs[i].0, fs[i].1.s))
  }

  /** An `Optional[Dict[str, str]]` field. */
  function OptionalStrDict(fs: seq<(string, Json)>, k: string): Result<Option<seq<(string, string)>>> {
    match Lookup(fs, k)
    case None => Ok(None)
    case Some(JNull) => Ok(None)
    case Some(JObj(vs)) => if AllStringValues(vs) then Ok(Some(StringPairs(vs))) else Err(Invalid)
    case _ => Err(Invalid)
  }

  /** `validate_type`: only stdio and sse pass. */
  function CheckKind(kind: Result<string>): Result<string> {
    if kind.Ok? && !KnownKind(kind.value) then Err(Invalid) else kind
  }

  /** `validate_command` / `validate_url`: run only on a supplied value; it
      fails when the validated type is `forKind` and the value is None or "". */
  function CheckRequiredFor(supplied: bool, kind: Result<string>, forKind: string,
                            v: Result<Option<string>>): Result<Option<string>> {
    if supplied && v.Ok? && kind == Ok(forKind) && (v.value.None? || v.value.value == "")
    then Err(Invalid)
    else v
  }

  /** `MCPServerConfig(**fields)`; `freshId` stands for the uuid4 default of `id`. */
  function Validate(fs: seq<(string, Json)>, freshId: string): (r: Result<ServerConfig>)
    ensures r.Ok? ==> KnownKind(r.value.kind)
    ensures r.Ok? ==> Lookup(fs, "type") == Some(JStr(r.value.kind))
    ensures r.Ok? ==> Lookup(fs, "name") == Some(JStr(r.value.name))
    ensures r.Ok? ==> if Lookup(fs, "id").None? then r.value.id == freshId
                      else Lookup(fs, "id") == Some(JStr(r.value.id))
  {
    var id := match Lookup(fs, "id")
      case None => Ok(freshId)
      case Some(JStr(s)) => Ok(s)
      case _ => Err(Invalid);
    var name := RequiredStr(fs, "name");
    var kind := CheckKind(RequiredStr(fs, "type"));
    var command := CheckRequiredFor(Lookup(fs, "command").Some?, kind, "stdio", OptionalStr(fs, "command"));
    var args := OptionalStrList(fs, "args");
    var url := CheckRequiredFor(Lookup(fs, "url").Some?, kind, "sse", OptionalStr(fs, "url"));
    var env := OptionalStrDict(fs, "env");
    if id.Ok? && name.Ok? && kind.Ok? && command.Ok? && args.Ok? && url.Ok? && env.Ok? then
      Ok(ServerConfig(id.value, name.value, kind.value, command.value, args.value, url.value, env.value))
    else
      Err(Invalid)
  }

  /** A `type` outside stdio/sse is rejected. */
  lemma UnknownKindRejected(fs: seq<(string, Json)>, freshId: string, kind: string)
    requires Lookup(fs, "type") == Some(JStr(kind)) && !KnownKind(kind)
    ensures Validate(fs, freshId).Err?
  {
  }

  /** For stdio, a supplied command that is null or empty is rejected; the
      same holds of `url` for sse. */
  lemma EmptyRequiredFieldRejected(fs: seq<(string, Json)>, freshId: string)
    requires (Lookup(fs, "type") == Some(JStr("stdio")) &&
              Lookup(fs, "command") in {Some(JNull), Some(JStr(""))})
          || (Lookup(fs, "type") == Some(JStr("sse")) &&
              Lookup(fs, "url") in {Some(JNull), Some(JStr(""))})
    ensures Validate(fs, freshId).Err?
  {
  }

  /** A check never runs on a default: a stdio record without a `command`
      key at all is accepted, with no command. */
  lemma StdioWithoutCommandAccepted(fs: seq<(string, Json)>, freshId: string)
    requires Lookup(fs, "type") == Some(JStr("stdio")) && Lookup(fs, "command") == None
    requires Lookup(fs, "name").Some? && Lookup(fs, "name").value.JStr?
    requires Lookup(fs, "id").None? || Lookup(fs, "id").value.JStr?
    requires OptionalStrList(fs, "args").Ok? && OptionalStr(fs, "url").Ok? && OptionalStrDict(fs, "env").Ok?
    ensures Validate(fs, freshId).Ok? && Validate(fs, freshId).value.command == None
  {
    assert CheckRequiredFor(false, Ok("stdio"), "stdio", OptionalStr(fs, "command")) == Ok(None);
  }

  /** A supplied value that the check for `forKind` lets through: a
      non-empty string, or any well-typed value when the type is another. */
  predicate SuppliedFor(fs: seq<(string, Json)>, k: string, kind: string, forKind: string) {
    kind == forKind && Lookup(fs, k).Some? ==> Lookup(fs, k).value.JStr? && Lookup(fs, k).value.s != ""
  }

  /** Exactly the records whose fields all have their declared types, whose
      `type` is stdio or sse, and whose supplied command (for stdio) or url
      (for sse) is a non-empty string are accepted, holding those values. */
  lemma ValidateAccepts(fs: seq<(string, Json)>, freshId: string)
    ensures Validate(fs, freshId).Ok? <==>
              (Lookup(fs, "id").None? || Lookup(fs, "id").value.JStr?) &&
              Lookup(fs, "name").Some? && Lookup(fs, "name").value.JStr? &&
              Lookup(fs, "type").Some? && Lookup(fs, "type").value.JStr? && KnownKind(Lookup(fs, "type").value.s) &&
              OptionalStr(fs, "command").Ok? && OptionalStrList(fs, "args").Ok? &&
              OptionalStr(fs, "url").Ok? && OptionalStrDict(fs, "env").Ok? &&
              SuppliedFor(fs, "command", Lookup(fs, "type").value.s, "stdio") &&
              SuppliedFor(fs, "url", Lookup(fs, "type").value.s, "sse")
    ensures Validate(fs, freshId).Ok? ==>
              var c := Validate(fs, freshId).value;
              c.command == OptionalStr(fs, "command").value && c.args == OptionalStrList(fs, "args").value &&
              c.url == OptionalStr(fs, "url").value && c.env == OptionalStrDict(fs, "env").value
  {
    if Lookup(fs, "type").Some? && Lookup(fs, "type").value.JStr? {
      var kind := Lookup(fs, "type").value.s;
      assert RequiredStr(fs, "type") == Ok(kind);
    }
  }

  /** An optional string given by the model as a JSON value. */
  function OptJson(s: Option<string>): Json {
    if s.Some? then JStr(s.value) else JNull
  }

  function EnvJson(env: Option<seq<(string, string)>>): Json {
    if env.None? then JNull
    else JObj(seq(|env.value|, i requires 0 <= i < |env.value| => (env.value[i].0, JStr(env.value[i].1))))
  }

  /** `to_parameters`: connection arguments for each kind, `{}` otherwise. */
  function ToParameters(c: ServerConfig): (p: Json)
    ensures p.JObj?
    ensures c.kind == "stdio" ==> Keys(p.fields) == ["command", "args", "env"]
    ensures c.kind == "sse" ==> Keys(p.fields) == ["url", "env"]
    ensures c.kind == "stdio" ==>
      Lookup(p.fields, "command") == Some(OptJson(c.command)) &&
      Lookup(p.fields, "args") == Some(StrArray(c.args.GetOr([]))) &&
      Lookup(p.fields, "env") == Some(EnvJson(c.env))
    ensures c.kind == "sse" ==>
      Lookup(p.fields, "url") == Some(OptJson(c.url)) &&
      Lookup(p.fields, "env") == Some(EnvJson(c.env))
    ensures !KnownKind(c.kind) ==> p == JObj([])
  {
    if c.kind == "stdio" then
      var fs := [("command", OptJson(c.command)), ("args", StrArray(c.args.GetOr([]))), ("env", EnvJson(c.env))];
      assert Lookup(fs[2..], "env") == Some(EnvJson(c.env));
      assert fs[1..][1..] == fs[2..];
      JObj(fs)
    else if c.kind == "sse" then
      JObj([("url", OptJson(c.url)), ("env", EnvJson(c.env))])
    else
      JObj([])
  }

  /** A record that passed validation never takes the `{}` branch. */
  lemma ValidatedParametersNonEmpty(fs: seq<(string, Json)>, freshId: string)
    requires Validate(fs, freshId).Ok?
    ensures ToParameters(Validate(fs, freshId).value).fields != []
  {
  }
}
