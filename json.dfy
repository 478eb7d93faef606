/** Parsed JSON values, as `json.load` hands them to the Python code, with the
    dictionary operations, truthiness and printing that code applies to them.
    Numbers are integers only. An object keeps its fields in insertion order,
    as a Python dict does. */
module Json {
  import opened Base
  import opened Text

  datatype Json =
    | JNull
    | JBool(b: bool)
    | JInt(i: int)
    | JStr(s: string)
    | JArr(items: seq<Json>)
    | JObj(fields: seq<(string, Json)>)

  /** The keys of a field list, in order. */
  function Keys(fs: seq<(string, Json)>): (ks: seq<string>)
    ensures |ks| == |fs|
    ensures forall i :: 0 <= i < |fs| ==> ks[i] == fs[i].0
  {
    seq(|fs|, i requires 0 <= i < |fs| => fs[i].0)
  }

  /** A dict never holds a key twice. */
  ghost predicate UniqueKeys(fs: seq<(string, Json)>) {
    forall i, j :: 0 <= i < j < |fs| ==> fs[i].0 != fs[j].0
  }

  /** `d.get(k)` on a dict given by its fields. */
  function Lookup(fs: seq<(string, Json)>, k: string): (r: Option<Json>)
    ensures r.Some? <==> k in Keys(fs)
    decreases |fs|
  {
    if fs == [] then None
    else if fs[0].0 == k then Some(fs[0].1)
    else Lookup(fs[1..], k)
  }

  /** The first field holding a key is the one `d.get` finds. */
  lemma {:induction false} LookupFirst(fs: seq<(string, Json)>, i: nat)
    requires i < |fs| && forall j :: 0 <= j < i ==> fs[j].0 != fs[i].0
    ensures Lookup(fs, fs[i].0) == Some(fs[i].1)
    decreases i
  {
    if i > 0 {
      assert fs[1..][i - 1] == fs[i];
      LookupFirst(fs[1..], i - 1);
    }
  }

  /** Lookups in a dict of two fields with distinct keys. */
  lemma PairFields(k0: string, v0: Json, k1: string, v1: Json)
    requires k0 != k1
    ensures Keys([(k0, v0), (k1, v1)]) == [k0, k1] && Lookup([(k0, v0), (k1, v1)], k1) == Some(v1)
  {
    LookupFirst([(k0, v0), (k1, v1)], 1);
  }

  /** Lookups in a dict of three fields with distinct keys. */
  lemma TripleFields(k0: string, v0: Json, k1: string, v1: Json, k2: string, v2: Json)
    requires k0 != k1 && k0 != k2 && k1 != k2
    ensures var fs := [(k0, v0), (k1, v1), (k2, v2)];
            Keys(fs) == [k0, k1, k2] && Lookup(fs, k1) == Some(v1) && Lookup(fs, k2) == Some(v2)
  {
    var fs := [(k0, v0), (k1, v1), (k2, v2)];
    assert Lookup(fs, k1) == Some(v1) by { LookupFirst(fs, 1); }
    assert Lookup(fs, k2) == Some(v2) by { LookupFirst(fs, 2); }
  }

  /** In a dict with distinct keys every field is the one `d.get` finds. */
  lemma LookupUnique(fs: seq<(string, Json)>, i: nat)
    requires UniqueKeys(fs) && i < |fs|
    ensures Lookup(fs, fs[i].0) == Some(fs[i].1)
  {
    LookupFirst(fs, i);
  }

  predicate IsObject(j: Json) { j.JObj? }

  /** `k in d` for a dict `d`. */
  predicate Has(j: Json, k: string) {
    j.JObj? && Lookup(j.fields, k).Some?
  }

  /** `d.get(k)`, None when the value is not a dict or lacks the key. */
  function Get(j: Json, k: string): Option<Json> {
    if j.JObj? then Lookup(j.fields, k) else None
  }

  /** `d.get(k, default)` */
  function GetOr(j: Json, k: string, default: Json): Json {
    Get(j, k).GetOr(default)
  }

  /** `d[k] = v`: an existing key keeps its place, a new key goes last. */
  function Put(fs: seq<(string, Json)>, k: string, v: Json): (r: seq<(string, Json)>)
    ensures Keys(r) == if k in Keys(fs) then Keys(fs) else Keys(fs) + [k]
    decreases |fs|
  {
    if fs == [] then [(k, v)]
    else if fs[0].0 == k then [(k, v)] + fs[1..]
    else [fs[0]] + Put(fs[1..], k, v)
  }

  lemma {:induction false} PutLookup(fs: seq<(string, Json)>, k: string, v: Json, k': string)
    ensures Lookup(Put(fs, k, v), k') == if k' == k then Some(v) else Lookup(fs, k')
    decreases |fs|
  {
    if fs != [] && fs[0].0 != k {
      PutLookup(fs[1..], k, v, k');
      assert Put(fs, k, v)[1..] == Put(fs[1..], k, v);
    } else if fs != [] {
      assert Put(fs, k, v)[1..] == fs[1..];
    }
  }

  /** `del d[k]` (or `d.pop(k)`) with the key's every occurrence gone. */
  function Remove(fs: seq<(string, Json)>, k: string): (r: seq<(string, Json)>)
    ensures k !in Keys(r)
    ensures |r| <= |fs|
    decreases |fs|
  {
    if fs == [] then []
    else if fs[0].0 == k then Remove(fs[1..], k)
    else [fs[0]] + Remove(fs[1..], k)
  }

  lemma {:induction false} RemoveLookup(fs: seq<(string, Json)>, k: string, k': string)
    ensures Lookup(Remove(fs, k), k') == if k' == k then None else Lookup(fs, k')
    decreases |fs|
  {
    if fs != [] {
      RemoveLookup(fs[1..], k, k');
    }
  }

  /** `{**base, **extra}`: every field of `extra` is put over `base` in order. */
  function Merge(base: seq<(string, Json)>, extra: seq<(string, Json)>): seq<(string, Json)>
    decreases |extra|
  {
    if extra == [] then base else Merge(Put(base, extra[0].0, extra[0].1), extra[1..])
  }

  /** In a merge, a key of `extra` takes its value from `extra`; any other key
      keeps the value it had in `base`. */
  lemma {:induction false} MergeLookup(base: seq<(string, Json)>, extra: seq<(string, Json)>, k: string)
    requires UniqueKeys(extra)
    ensures Lookup(Merge(base, extra), k) ==
            if k in Keys(extra) then Lookup(extra, k) else Lookup(base, k)
    decreases |extra|
  {
    if extra != [] {
      var b' := Put(base, extra[0].0, extra[0].1);
      assert UniqueKeys(extra[1..]);
      MergeLookup(b', extra[1..], k);
      PutLookup(base, extra[0].0, extra[0].1, k);
      if k == extra[0].0 {
        assert k !in Keys(extra[1..]);
      } else {
        assert k in Keys(extra) <==> k in Keys(extra[1..]);
      }
    }
  }

  /** Python truthiness: None, False, 0, "", [] and {} are false. */
  predicate Truthy(j: Json) {
    match j
    case JNull => false
    case JBool(b) => b
    case JInt(i) => i != 0
    case JStr(s) => s != ""
    case JArr(xs) => xs != []
    case JObj(fs) => fs != []
  }

  /** `x or y` on two values. */
  function Or(x: Json, y: Json): (r: Json)
    ensures Truthy(x) ==> r == x
    ensures !Truthy(x) ==> r == y
  {
    if Truthy(x) then x else y
  }

  /** `repr(x)` of a JSON-shaped Python value. Quote selection and escaping
      inside string literals are left as a single-quote wrap. */
  function PyRepr(j: Json): string
    decreases j, 1
  {
    match j
    case JNull => "None"
    case JBool(b) => if b then "True" else "False"
    case JInt(i) => IntToString(i)
    case JStr(s) => "'" + s + "'"
    case JArr(xs) => "[" + Join(", ", ReprItems(j, xs)) + "]"
    case JObj(fs) => "{" + Join(", ", ReprFields(j, fs)) + "}"
  }

  function ReprItems(ghost parent: Json, xs: seq<Json>): (r: seq<string>)
    requires forall i :: 0 <= i < |xs| ==> xs[i] < parent
    ensures |r| == |xs|
    decreases parent, 0, |xs|
  {
    if xs == [] then [] else [PyRepr(xs[0])] + ReprItems(parent, xs[1..])
  }

  function ReprFields(ghost parent: Json, fs: seq<(string, Json)>): (r: seq<string>)
    requires forall i :: 0 <= i < |fs| ==> fs[i].1 < parent
    ensures |r| == |fs|
    decreases parent, 0, |fs|
  {
    if fs == [] then []
    else ["'" + fs[0].0 + "': " + PyRepr(fs[0].1)] + ReprFields(parent, fs[1..])
  }

  /** `type(x).__name__`, as Python's attribute errors name it. */
  function TypeName(j: Json): string {
    match j
    case JNull => "NoneType"
    case JBool(_) => "bool"
    case JInt(_) => "int"
    case JStr(_) => "str"
    case JArr(_) => "list"
    case JObj(_) => "dict"
  }

  /** The AttributeError raised by calling a missing method on a value. */
  function NoAttribute(j: Json, attr: string): Error {
    Error(AttributeError, "'" + TypeName(j) + "' object has no attribute '" + attr + "'")
  }

  /** `str(x)`: a string is itself, anything else its repr. */
  function PyStr(j: Json): (r: string)
    ensures j.JStr? ==> r == j.s
  {
    if j.JStr? then j.s else PyRepr(j)
  }

  /** A JSON string literal; only the quote and the backslash are escaped. */
  function Quote(s: string): string {
    "\"" + Escape(s) + "\""
  }

  function Escape(s: string): string
    decreases |s|
  {
    if s == [] then ""
    else (if s[0] == '"' || s[0] == '\\' then ['\\', s[0]] else [s[0]]) + Escape(s[1..])
  }

  /** `json.dumps(x)` with its default separators. */
  function Dumps(j: Json): string
    decreases j, 1
  {
    match j
    case JNull => "null"
    case JBool(b) => if b then "true" else "false"
    case JInt(i) => IntToString(i)
    case JStr(s) => Quote(s)
    case JArr(xs) => "[" + Join(", ", DumpItems(j, xs)) + "]"
    case JObj(fs) => "{" + Join(", ", DumpFields(j, fs)) + "}"
  }

  function DumpItems(ghost parent: Json, xs: seq<Json>): (r: seq<string>)
    requires forall i :: 0 <= i < |xs| ==> xs[i] < parent
    ensures |r| == |xs|
    decreases parent, 0, |xs|
  {
    if xs == [] then [] else [Dumps(xs[0])] + DumpItems(parent, xs[1..])
  }

  function DumpFields(ghost parent: Json, fs: seq<(string, Json)>): (r: seq<string>)
    requires forall i :: 0 <= i < |fs| ==> fs[i].1 < parent
    ensures |r| == |fs|
    decreases parent, 0, |fs|
  {
    if fs == [] then []
    else [Quote(fs[0].0) + ": " + Dumps(fs[0].1)] + DumpFields(parent, fs[1..])
  }

  /** A list of strings as a JSON array. */
  function StrArray(ss: seq<string>): (j: Json)
    ensures j.JArr? && |j.items| == |ss|
    ensures forall i :: 0 <= i < |ss| ==> j.items[i] == JStr(ss[i])
  {
    JArr(seq(|ss|, i requires 0 <= i < |ss| => JStr(ss[i])))
  }
}
