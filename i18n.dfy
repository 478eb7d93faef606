/** Message lookup of mcp_backend/app/i18n/__init__.py: the current language,
    switching languages with a fallback to the default, and `get_message`,
    which walks a dotted key through the nested message table and fills in
    named placeholders the way `str.format(**kwargs)` does.

    Importing a language module is a parameter: `modules` gives the
    `MESSAGES` table of a module name, or None when importing it (or reading
    its `MESSAGES`) fails. */
module I18n {
  import opened Base
  import opened Text
  import opened Json

  const Languages: map<string, string> := map["en-US" := "en_US", "zh-CN" := "zh_CN"]
  const DefaultLanguage := "en-US"

  // ------------------------------------------------------------ formatting

  /** What `str.format(**kwargs)` does with a template. */
  datatype Formatted = Filled(text: string) | KeyMissing(name: string) | FormatFails(error: Error)

  /** The length of the replacement field at the front of `s`: up to the
      '}' that closes it, where a '{' inside opens a nested field that its
      own '}' closes; `|s|` when nothing closes it. */
  function FieldEnd(s: string, depth: nat): (n: nat)
    ensures n <= |s| && (n < |s| ==> s[n] == '}')
    decreases |s|
  {
    if s == [] then 0
    else if s[0] == '}' && depth == 0 then 0
    else if s[0] == '{' then 1 + FieldEnd(s[1..], depth + 1)
    else if s[0] == '}' then 1 + FieldEnd(s[1..], depth - 1)
    else 1 + FieldEnd(s[1..], depth)
  }

  /** The length of the longest prefix of `s` holding none of `stops`. */
  function PrefixLen(s: string, stops: set<char>): (n: nat)
    ensures n <= |s| && (forall i :: 0 <= i < n ==> s[i] !in stops) && (n < |s| ==> s[n] in stops)
    decreases |s|
  {
    if s == [] || s[0] in stops then 0 else 1 + PrefixLen(s[1..], stops)
  }

  /** What one replacement field asks for. Its name runs up to a conversion
      ('!') or a format spec (':'), and the name's first part, before any
      attribute ('.') or index ('['), picks the argument: an empty or
      all-digit first part is a positional argument, of which there are
      none, and any other is a keyword. */
  function FieldValue(field: string, kwargs: map<string, string>): (r: Formatted)
    ensures r.FormatFails? ==> r.error.kind == ValueError || r.error.kind == IndexError
  {
    var name := field[..PrefixLen(field, {':', '!'})];
    var arg := name[..PrefixLen(name, {'.', '['})];
    if '{' in name then FormatFails(Error(ValueError, "unexpected '{' in field name"))
    else if arg == [] then FormatFails(Error(IndexError, "Replacement index 0 out of range for positional args tuple"))
    else if IsDigits(arg) then
      FormatFails(Error(IndexError, "Replacement index " + NatToString(DigitsValue(arg)) +
                                    " out of range for positional args tuple"))
    else if arg !in kwargs then KeyMissing(arg)
    else Filled(kwargs[arg])
  }

  /** `template.format(**kwargs)`: `{{` and `}}` are literal braces, and each
      replacement field is looked up as `FieldValue` says. Processing goes
      left to right and stops at the first problem; only ValueError and
      IndexError are raised, a missing keyword being reported apart. */
  function Format(t: string, kwargs: map<string, string>): (r: Formatted)
    ensures r.FormatFails? ==> r.error.kind == ValueError || r.error.kind == IndexError
    decreases |t|
  {
    if t == [] then Filled("")
    else if t[0] == '{' then
      if |t| == 1 then FormatFails(Error(ValueError, "Single '{' encountered in format string"))
      else if t[1] == '{' then Prepend("{", Format(t[2..], kwargs))
      else
        var n := FieldEnd(t[1..], 0);
        if n == |t| - 1 then FormatFails(Error(ValueError, "expected '}' before end of string"))
        else
          match FieldValue(t[1..n + 1], kwargs)
          case Filled(v) => Prepend(v, Format(t[n + 2..], kwargs))
          case other => other
    else if t[0] == '}' then
      if |t| >= 2 && t[1] == '}' then Prepend("}", Format(t[2..], kwargs))
      else FormatFails(Error(ValueError, "Single '}' encountered in format string"))
    else Prepend([t[0]], Format(t[1..], kwargs))
  }

  function Prepend(p: string, f: Formatted): (r: Formatted)
    ensures f.Filled? ==> r == Filled(p + f.text)
    ensures !f.Filled? ==> r == f
  {
    if f.Filled? then Filled(p + f.text) else f
  }

  predicate BraceFree(s: string) {
    '{' !in s && '}' !in s
  }

  /** A template without braces formats to itself. */
  lemma {:induction false} FormatPlain(t: string, kwargs: map<string, string>)
    requires BraceFree(t)
    ensures Format(t, kwargs) == Filled(t)
    decreases |t|
  {
    if t != [] {
      FormatPlain(t[1..], kwargs);
      assert [t[0]] + t[1..] == t;
    }
  }

  /** A character other than a brace is copied and formatting goes on
      after it. */
  lemma FormatPlainHead(c: char, rest: string, kwargs: map<string, string>)
    requires c != '{' && c != '}'
    ensures Format([c] + rest, kwargs) == Prepend([c], Format(rest, kwargs))
  {
    assert ([c] + rest)[0] == c && ([c] + rest)[1..] == rest;
  }

  /** Brace-free text in front of a template is kept as it is. */
  lemma {:induction false} FormatPrefix(p: string, t: string, kwargs: map<string, string>)
    requires BraceFree(p)
    ensures Format(p + t, kwargs) == Prepend(p, Format(t, kwargs))
    decreases |p|
  {
    if p != [] {
      var c := p[0];
      assert c != '{' && c != '}' by { assert c in p; }
      assert p + t == [c] + (p[1..] + t);
      FormatPlainHead(c, p[1..] + t, kwargs);
      FormatPrefix(p[1..], t, kwargs);
      assert [p[0]] + p[1..] == p;
      if Format(t, kwargs).Filled? {
        assert [p[0]] + (p[1..] + Format(t, kwargs).text) == p + Format(t, kwargs).text;
      }
    } else {
      assert p + t == t;
    }
  }

  /** A plain keyword field: no braces, no conversion, format spec,
      attribute or index, and not all digits. */
  predicate NamedField(name: string) {
    name != [] && !IsDigits(name) && forall i :: 0 <= i < |name| ==> name[i] !in "{}:!.["
  }

  /** One named placeholder between brace-free text: a supplied name is
      substituted, a missing one is a KeyError. */
  lemma FormatOnePlaceholder(p: string, name: string, q: string, kwargs: map<string, string>)
    requires BraceFree(p) && NamedField(name) && BraceFree(q)
    ensures name in kwargs ==> Format(p + "{" + name + "}" + q, kwargs) == Filled(p + kwargs[name] + q)
    ensures name !in kwargs ==> Format(p + "{" + name + "}" + q, kwargs) == KeyMissing(name)
  {
    var t := "{" + name + "}" + q;
    assert p + "{" + name + "}" + q == p + t;
    FormatPrefix(p, t, kwargs);
    FormatField(name, q, kwargs);
    if name in kwargs {
      assert p + (kwargs[name] + q) == p + kwargs[name] + q;
    }
  }

  /** A plain keyword field is looked up whole. */
  lemma NamedFieldValue(name: string, kwargs: map<string, string>)
    requires NamedField(name)
    ensures FieldValue(name, kwargs) == if name in kwargs then Filled(kwargs[name]) else KeyMissing(name)
  {
    PrefixLenNone(name, {':', '!'});
    assert name[..|name|] == name;
    PrefixLenNone(name, {'.', '['});
  }

  /** A template that starts with a plain keyword field. */
  lemma FormatField(name: string, q: string, kwargs: map<string, string>)
    requires NamedField(name) && BraceFree(q)
    ensures Format("{" + name + "}" + q, kwargs) ==
            (if name in kwargs then Filled(kwargs[name] + q) else KeyMissing(name))
  {
    var t := "{" + name + "}" + q;
    assert t[1..] == name + ("}" + q);
    assert BraceFree(name) by {
      forall i | 0 <= i < |name|
        ensures name[i] != '{' && name[i] != '}'
      {
        assert name[i] !in "{}:!.[";
      }
    }
    FieldEndSkip(name, "}" + q, 0);
    assert ("}" + q)[0] == '}';
    assert t[0] == '{' && |t| >= 2 && t[1] == name[0] && name[0] != '{';
    assert FieldEnd(t[1..], 0) == |name|;
    assert t[1..|name| + 1] == name;
    assert t[|name| + 2..] == q;
    NamedFieldValue(name, kwargs);
    FormatPlain(q, kwargs);
  }

  /** A field made of digits asks for a positional argument: IndexError. */
  lemma PositionalFieldRaises(d: string, q: string, kwargs: map<string, string>)
    requires d != [] && IsDigits(d)
    ensures Format("{" + d + "}" + q, kwargs).FormatFails?
    ensures Format("{" + d + "}" + q, kwargs).error.kind == IndexError
  {
    var t := "{" + d + "}" + q;
    assert t[1..] == d + ("}" + q);
    assert BraceFree(d) by {
      forall i | 0 <= i < |d|
        ensures d[i] != '{' && d[i] != '}'
      {
      }
    }
    FieldEndSkip(d, "}" + q, 0);
    assert ("}" + q)[0] == '}';
    assert t[0] == '{' && |t| >= 2 && t[1] == d[0] && d[0] != '{';
    assert FieldEnd(t[1..], 0) == |d|;
    assert t[1..|d| + 1] == d;
    PrefixLenNone(d, {':', '!'});
    assert d[..|d|] == d;
    PrefixLenNone(d, {'.', '['});
  }

  /** A '{' inside a field's name is a ValueError, even when a '}' closes
      the inner brace. */
  lemma BraceInFieldRaises(a: string, b: string, q: string, kwargs: map<string, string>)
    requires a != [] && BraceFree(a) && BraceFree(b) && ':' !in a && '!' !in a
    ensures Format("{" + a + "{" + b + "}}" + q, kwargs) ==
            FormatFails(Error(ValueError, "unexpected '{' in field name"))
  {
    var t := "{" + a + "{" + b + "}}" + q;
    var field := a + "{" + b + "}";
    var rest := a + ("{" + (b + ("}" + ("}" + q))));
    assert t[1..] == rest;
    FieldEndNested(a, b, q);
    assert t[0] == '{' && |t| >= 2 && t[1] == a[0] && a[0] != '{';
    assert t[1..|field| + 1] == field;
    BraceNameValue(a, b, kwargs);
  }

  /** A brace-free prefix before a nested "{...}" field part: the inner '}'
      closes the inner '{', so the field ends at the next '}'. */
  lemma FieldEndNested(a: string, b: string, q: string)
    requires BraceFree(a) && BraceFree(b)
    ensures FieldEnd(a + ("{" + (b + ("}" + ("}" + q)))), 0) == |a| + |b| + 2
  {
    FieldEndInner(b, q);
    FieldEndSkip(a, "{" + (b + ("}" + ("}" + q))), 0);
  }

  /** A field that starts with a nested "{...}" part ends just after it. */
  lemma FieldEndInner(b: string, q: string)
    requires BraceFree(b)
    ensures FieldEnd("{" + (b + ("}" + ("}" + q))), 0) == |b| + 2
  {
    var w := "}" + q;
    var v := "}" + w;
    var u := "{" + (b + v);
    assert FieldEnd(w, 0) == 0 by { FieldEndBrace(w, 0); }
    assert FieldEnd(v, 1) == 1 + FieldEnd(w, 0) by { assert v[1..] == w; FieldEndBrace(v, 1); }
    assert FieldEnd(b + v, 1) == |b| + FieldEnd(v, 1) by { FieldEndSkip(b, v, 1); }
    assert FieldEnd(u, 0) == 1 + FieldEnd(b + v, 1) by { assert u[1..] == b + v; FieldEndBrace(u, 0); }
  }

  /** One brace at the front of a field: '{' goes one level deeper, '}'
      closes a level, and at the outer level ends the field. */
  lemma FieldEndBrace(s: string, depth: nat)
    requires s != []
    ensures s[0] == '}' && depth == 0 ==> FieldEnd(s, depth) == 0
    ensures s[0] == '{' ==> FieldEnd(s, depth) == 1 + FieldEnd(s[1..], depth + 1)
    ensures s[0] == '}' && depth > 0 ==> FieldEnd(s, depth) == 1 + FieldEnd(s[1..], depth - 1)
  {
  }

  /** A field whose name holds a '{' is refused before any lookup. */
  lemma BraceNameValue(a: string, b: string, kwargs: map<string, string>)
    requires BraceFree(a) && ':' !in a && '!' !in a
    ensures FieldValue(a + "{" + b + "}", kwargs) == FormatFails(Error(ValueError, "unexpected '{' in field name"))
  {
    var field := a + "{" + b + "}";
    var k := PrefixLen(field, {':', '!'});
    assert field[|a|] == '{';
    assert k >= |a| + 1;
    assert field[..k][|a|] == '{';
  }

  lemma {:induction false} FieldEndSkip(p: string, s: string, depth: nat)
    requires BraceFree(p)
    ensures FieldEnd(p + s, depth) == |p| + FieldEnd(s, depth)
    decreases |p|
  {
    if p == [] {
      assert p + s == s;
    } else {
      assert (p + s)[0] == p[0] && (p + s)[1..] == p[1..] + s;
      FieldEndSkip(p[1..], s, depth);
    }
  }

  lemma {:induction false} PrefixLenNone(s: string, stops: set<char>)
    requires forall i :: 0 <= i < |s| ==> s[i] !in stops
    ensures PrefixLen(s, stops) == |s|
    decreases |s|
  {
    if s != [] {
      PrefixLenNone(s[1..], stops);
    }
  }

  // ------------------------------------------------------------ navigation

  /** Where walking a key through the table ends. */
  datatype Reached = Found(value: Json) | NoSuchPart | WalkFails(error: Error)

  /** One step of the walk, `part in d` followed by `d[part]`. On a string
      the test is a substring test and indexing by a string raises; on a
      list the test is membership and indexing raises; anything else is not
      iterable. */
  function Step(node: Json, part: string): (r: Reached)
    ensures node.JObj? ==> (r.NoSuchPart? <==> part !in Keys(node.fields))
    ensures node.JObj? && part in Keys(node.fields) ==> r == Found(Lookup(node.fields, part).value)
    ensures !node.JObj? ==> !r.Found?
    ensures r.WalkFails? ==> r.error.kind == TypeError
  {
    match node
    case JObj(fs) => if part in Keys(fs) then Found(Lookup(fs, part).value) else NoSuchPart
    case JStr(s) =>
      if Contains(s, part) then WalkFails(Error(TypeError, "string indices must be integers, not 'str'"))
      else NoSuchPart
    case JArr(xs) =>
      if JStr(part) in xs then WalkFails(Error(TypeError, "list indices must be integers or slices, not str"))
      else NoSuchPart
    case _ => WalkFails(Error(TypeError, "argument of type '" + TypeName(node) + "' is not iterable"))
  }

  /** The walk over all parts, from the front. */
  function Walk(node: Json, parts: seq<string>): (r: Reached)
    ensures parts == [] ==> r == Found(node)
    ensures r.WalkFails? ==> r.error.kind == TypeError
    ensures parts != [] && !node.JObj? ==> !r.Found?
    decreases |parts|
  {
    if parts == [] then Found(node)
    else
      match Step(node, parts[0])
      case Found(v) => Walk(v, parts[1..])
      case other => other
  }

  /** Walking a concatenation walks the first stretch, then the second. */
  lemma {:induction false} WalkAppend(node: Json, a: seq<string>, b: seq<string>)
    ensures Walk(node, a + b) == match Walk(node, a) case Found(v) => Walk(v, b) case other => other
    decreases |a|
  {
    if a == [] {
      assert a + b == b;
    } else {
      assert (a + b)[0] == a[0] && (a + b)[1..] == a[1..] + b;
      match Step(node, a[0])
      case Found(v) => WalkAppend(v, a[1..], b);
      case _ =>
    }
  }

  /** `get_message` on a given table. */
  function MessageFor(table: Json, key: string, kwargs: map<string, string>): (r: Result<string>)
    ensures r.Err? ==> r.error.kind in {TypeError, ValueError, IndexError}
    ensures Walk(table, Split(key, '.')).NoSuchPart? ==> r == Ok(key)
    ensures Walk(table, Split(key, '.')).WalkFails? ==> r.Err? && r.error.kind == TypeError
  {
    match Walk(table, Split(key, '.'))
    case WalkFails(e) => Err(e)
    case NoSuchPart => Ok(key)
    case Found(v) =>
      if !v.JStr? then Ok(key)
      else
        match Format(v.s, kwargs)
        case Filled(s) => Ok(s)
        case KeyMissing(_) => Ok(v.s)
        case FormatFails(e) => Err(e)
  }

  /** A dotted segment missing from the dict reached so far gives the key
      back. */
  lemma MissingPartGivesKey(table: Json, key: string, kwargs: map<string, string>, i: nat)
    requires i < |Split(key, '.')|
    requires Walk(table, Split(key, '.')[..i]).Found? && Walk(table, Split(key, '.')[..i]).value.JObj?
    requires Split(key, '.')[i] !in Keys(Walk(table, Split(key, '.')[..i]).value.fields)
    ensures MessageFor(table, key, kwargs) == Ok(key)
  {
    var parts := Split(key, '.');
    assert parts == parts[..i] + parts[i..];
    WalkAppend(table, parts[..i], parts[i..]);
    assert parts[i..][0] == parts[i];
  }

  /** A walk ending on anything but a string gives the key back. */
  lemma NonStringGivesKey(table: Json, key: string, kwargs: map<string, string>)
    requires Walk(table, Split(key, '.')).Found? && !Walk(table, Split(key, '.')).value.JStr?
    ensures MessageFor(table, key, kwargs) == Ok(key)
  {
  }

  /** A template naming a placeholder that was not supplied comes back
      unformatted; one whose placeholder was supplied is filled in. */
  lemma PlaceholderFilling(table: Json, key: string, p: string, name: string, q: string,
                           kwargs: map<string, string>)
    requires Walk(table, Split(key, '.')) == Found(JStr(p + "{" + name + "}" + q))
    requires BraceFree(p) && NamedField(name) && BraceFree(q)
    ensures name !in kwargs ==> MessageFor(table, key, kwargs) == Ok(p + "{" + name + "}" + q)
    ensures name in kwargs ==> MessageFor(table, key, kwargs) == Ok(p + kwargs[name] + q)
  {
    FormatOnePlaceholder(p, name, q, kwargs);
  }

  /** A key that runs past a string whose text contains the next part
      raises a TypeError rather than giving the key back. */
  lemma PastStringRaises(table: Json, key: string, kwargs: map<string, string>, i: nat)
    requires i < |Split(key, '.')|
    requires Walk(table, Split(key, '.')[..i]).Found? && Walk(table, Split(key, '.')[..i]).value.JStr?
    requires Contains(Walk(table, Split(key, '.')[..i]).value.s, Split(key, '.')[i])
    ensures MessageFor(table, key, kwargs).Err? && MessageFor(table, key, kwargs).error.kind == TypeError
  {
    var parts := Split(key, '.');
    assert parts == parts[..i] + parts[i..];
    WalkAppend(table, parts[..i], parts[i..]);
    assert parts[i..][0] == parts[i];
  }

  // ----------------------------------------------------------------- state

  /** What importing a language module gives: an ImportError, a module
      without a MESSAGES attribute (an AttributeError once it is read), or
      the module's table. */
  datatype ModuleLoad = ImportFails | NoMessages | Loaded(table: Json)

  /** The module's globals `_current_language` and `_messages`. */
  class Catalog {
    const modules: string -> ModuleLoad
    var current: Option<string>
    var messages: Json

    /** The module as imported: nothing set yet. The import itself then
        calls `set_language(DEFAULT_LANGUAGE)`, which is `SetLanguage` below. */
    constructor (modules: string -> ModuleLoad)
      ensures this.modules == modules && current == None && messages == JObj([])
    {
      this.modules := modules;
      current := None;
      messages := JObj([]);
    }

    /** `get_language` */
    function GetLanguage(): (code: string)
      reads this
      ensures current.None? ==> code == DefaultLanguage
      ensures current.Some? && current.value != "" ==> code == current.value
    {
      if current.Some? && current.value != "" then current.value else DefaultLanguage
    }

    /** `set_language`: an unknown code is refused; a module that fails to
        load falls back to the default language, once. The language is
        switched before the table is read, so a module without a table
        leaves the language switched and the old table in place. */
    method SetLanguage(code: string) returns (ok: bool)
      modifies this
      ensures code !in Languages ==> !ok && current == old(current) && messages == old(messages)
      ensures code in Languages && modules(Languages[code]).Loaded? ==>
                ok && current == Some(code) && messages == modules(Languages[code]).table
      ensures code in Languages && !modules(Languages[code]).Loaded? && code == DefaultLanguage ==>
                !ok && messages == old(messages) &&
                current == (if modules(Languages[code]).NoMessages? then Some(code) else old(current))
      ensures code in Languages && !modules(Languages[code]).Loaded? && code != DefaultLanguage ==>
                ok == modules(Languages[DefaultLanguage]).Loaded? &&
                (ok ==> current == Some(DefaultLanguage) && messages == modules(Languages[DefaultLanguage]).table) &&
                (!ok ==> messages == old(messages) &&
                         current == (if modules(Languages[DefaultLanguage]).NoMessages? then Some(DefaultLanguage)
                                     else if modules(Languages[code]).NoMessages? then Some(code)
                                     else old(current)))
      ensures ok ==> current.Some? && current.value in Languages && GetLanguage() == current.value
      decreases if code == DefaultLanguage then 0 else 1
    {
      if code !in Languages {
        return false;
      }
      var load := modules(Languages[code]);
      if load.NoMessages? || load.Loaded? {
        current := Some(code);
      }
      if load.Loaded? {
        messages := load.table;
        return true;
      }
      if code != DefaultLanguage {
        ok := SetLanguage(DefaultLanguage);
        return;
      }
      return false;
    }

    /** `get_message`: an empty table is first loaded with the default
        language, then the key is walked part by part. */
    method GetMessage(key: string, kwargs: map<string, string>) returns (r: Result<string>)
      modifies this
      ensures Truthy(old(messages)) ==> current == old(current) && messages == old(messages)
      ensures !Truthy(old(messages)) && modules(Languages[DefaultLanguage]).Loaded? ==>
                current == Some(DefaultLanguage) && messages == modules(Languages[DefaultLanguage]).table
      ensures !Truthy(old(messages)) && modules(Languages[DefaultLanguage]).NoMessages? ==>
                current == Some(DefaultLanguage) && messages == old(messages)
      ensures !Truthy(old(messages)) && modules(Languages[DefaultLanguage]).ImportFails? ==>
                current == old(current) && messages == old(messages)
      ensures r == MessageFor(messages, key, kwargs)
    {
      if !Truthy(messages) {
        var _ := SetLanguage(DefaultLanguage);
      }
      var parts := Split(key, '.');
      var node := messages;
      var i := 0;
      while i < |parts|
        invariant 0 <= i <= |parts|
        invariant Walk(messages, parts) == Walk(node, parts[i..])
      {
        assert parts[i..][0] == parts[i] && parts[i..][1..] == parts[i + 1..];
        var step := Step(node, parts[i]);
        if !step.Found? {
          if step.WalkFails? {
            return Err(step.error);
          }
          return Ok(key);
        }
        node := step.value;
        i := i + 1;
      }
      if !node.JStr? {
        return Ok(key);
      }
      var f := Format(node.s, kwargs);
      r := match f
        case Filled(s) => Ok(s)
        case KeyMissing(_) => Ok(node.s)
        case FormatFails(e) => Err(e);
    }
  }
}
