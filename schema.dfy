/** The Ollama function-schema builder (`_map_python_type` and
    `func_to_ollama_schema`), which amin_agent/llm.py and agents/agent.py
    define twice with the same rules. Signatures and annotations are data
    here: what `inspect.signature` and `typing.get_origin`/`get_args` would
    report about a function. */
module Schema {
  import opened Wrappers
  import opened Values

  /** What `get_origin` reports for a parameterised annotation. It returns
      the builtin `list` / `dict` for both `list[int]` and `typing.List[int]`
      (and for the bare `typing.List` / `typing.Dict`), never `typing.List`
      or `typing.Dict` themselves; so the test `origin in (dict, typing.Dict)`
      of one file and `origin is dict` of the other accept the same
      annotations. */
  datatype Origin = ListOrigin | DictOrigin | OtherOrigin

  /** A type annotation: one of the four scalar classes, a generic alias with
      an origin and its type arguments, or anything `get_origin` gives no
      origin for (bare `list`, bare `dict`, a class such as `Candidate`). */
  datatype Annotation =
    | StrType
    | IntType
    | FloatType
    | BoolType
    | Generic(origin: Origin, args: seq<Annotation>)
    | Other

  /** The JSON-Schema type tags the builder produces. */
  datatype JType = JString | JInteger | JNumber | JBoolean | JArray(items: JType) | JObject

  /** `_map_python_type`. Scalars map to their tags, list generics to arrays
      of the mapped first type argument (strings when there is none), dict
      generics to objects, and everything else to strings. */
  function MapType(a: Annotation): (r: JType)
    ensures a == StrType || a == IntType || a == FloatType || a == BoolType ==>
              r == [JString, JInteger, JNumber, JBoolean][if a == StrType then 0 else if a == IntType then 1 else if a == FloatType then 2 else 3]
    ensures r.JArray? <==> a.Generic? && a.origin == ListOrigin
    ensures r.JArray? && |a.args| == 0 ==> r.items == JString
    ensures r.JObject? <==> a.Generic? && a.origin == DictOrigin
    ensures r.JString? <==> a == StrType || a.Other? || (a.Generic? && a.origin == OtherOrigin)
    decreases a
  {
    match a
    case StrType => JString
    case IntType => JInteger
    case FloatType => JNumber
    case BoolType => JBoolean
    case Generic(origin, args) =>
      (match origin
       case ListOrigin => JArray(if |args| > 0 then MapType(args[0]) else JString)
       case DictOrigin => JObject
       case OtherOrigin => JString)
    case Other => JString
  }

  /** How many list layers an annotation nests (`list[list[int]]` has two). */
  function ListDepth(a: Annotation): nat
    decreases a
  {
    if a.Generic? && a.origin == ListOrigin then
      1 + (if |a.args| > 0 then ListDepth(a.args[0]) else 0)
    else 0
  }

  function ArrayDepth(t: JType): nat {
    if t.JArray? then 1 + ArrayDepth(t.items) else 0
  }

  /** The mapping recurses exactly through the list layers: the array tags
      nest as deep as the lists do. */
  lemma {:induction false} ArrayDepthIsListDepth(a: Annotation)
    ensures ArrayDepth(MapType(a)) == ListDepth(a)
    decreases a
  {
    if a.Generic? && a.origin == ListOrigin && |a.args| > 0 {
      ArrayDepthIsListDepth(a.args[0]);
    }
  }

  /** `{"type": ...}` with `"items"` for arrays, as a Python value. */
  function TypeValue(t: JType): (v: Value)
    ensures v.Dict? && "type" in v.fields && v.fields["type"].Str?
    ensures "items" in v.fields <==> t.JArray?
  {
    match t
    case JString => Dict(map["type" := Str("string")])
    case JInteger => Dict(map["type" := Str("integer")])
    case JNumber => Dict(map["type" := Str("number")])
    case JBoolean => Dict(map["type" := Str("boolean")])
    case JArray(items) => Dict(map["type" := Str("array"), "items" := TypeValue(items)])
    case JObject => Dict(map["type" := Str("object")])
  }

  /** Different tags render as different values. */
  lemma {:induction false} TypeValueInjective(s: JType, t: JType)
    requires TypeValue(s) == TypeValue(t)
    ensures s == t
  {
    if s.JArray? && t.JArray? {
      assert TypeValue(s).fields["items"] == TypeValue(t).fields["items"];
      TypeValueInjective(s.items, t.items);
    } else {
      assert TypeValue(s).fields["type"] == TypeValue(t).fields["type"];
    }
  }

  datatype ParamKind = PositionalOnly | PositionalOrKeyword | VarPositional | KeywordOnly | VarKeyword

  /** One parameter as `inspect.signature` reports it: no annotation is
      `None` (`inspect._empty`), and so is no default. */
  datatype Param = Param(name: string, kind: ParamKind, annotation: Option<Annotation>, default: Option<Value>)

  /** A function as the builder sees it: `__name__`, `__doc__`, its parameters. */
  datatype Signature = Signature(name: string, doc: Option<string>, params: seq<Param>)

  datatype Property = Property(name: string, jtype: JType)

  /** The built schema, before rendering: the properties and the required
      names are kept in declaration order. */
  datatype FunctionSchema = FunctionSchema(name: string, description: Option<string>, properties: seq<Property>, required: seq<string>)

  predicate IsVariadic(p: Param) {
    p.kind == VarPositional || p.kind == VarKeyword
  }

  /** The property of one parameter: an unannotated parameter is a string. */
  function PropertyOf(p: Param): (q: Property)
    ensures q.name == p.name
    ensures p.annotation.None? ==> q.jtype == JString
    ensures p.annotation.Some? ==> q.jtype == MapType(p.annotation.value)
  {
    Property(p.name, MapType(p.annotation.GetOr(StrType)))
  }

  /** The properties of a parameter list, *args and **kwargs skipped. */
  function Properties(ps: seq<Param>): seq<Property>
    decreases |ps|
  {
    if |ps| == 0 then []
    else Properties(ps[..|ps| - 1]) + (if IsVariadic(ps[|ps| - 1]) then [] else [PropertyOf(ps[|ps| - 1])])
  }

  /** The names of the non-variadic parameters without a default. */
  function RequiredNames(ps: seq<Param>): seq<string>
    decreases |ps|
  {
    if |ps| == 0 then []
    else
      var p := ps[|ps| - 1];
      RequiredNames(ps[..|ps| - 1]) + (if IsVariadic(p) || p.default.Some? then [] else [p.name])
  }

  /** Exactly the non-variadic parameters get a property, each from its own
      parameter. */
  lemma {:induction false} PropertiesExact(ps: seq<Param>, q: Property)
    ensures q in Properties(ps) <==> exists p :: p in ps && !IsVariadic(p) && q == PropertyOf(p)
    decreases |ps|
  {
    if |ps| > 0 {
      var init, last := ps[..|ps| - 1], ps[|ps| - 1];
      PropertiesExact(init, q);
      assert ps == init + [last];
      if q in Properties(ps) && q !in Properties(init) {
        assert q == PropertyOf(last);
      }
      if exists p :: p in ps && !IsVariadic(p) && q == PropertyOf(p) {
        var p :| p in ps && !IsVariadic(p) && q == PropertyOf(p);
        if p != last {
          assert p in init;
        }
      }
    }
  }

  /** A name is required exactly when some non-variadic parameter of that
      name has no default. */
  lemma {:induction false} RequiredExact(ps: seq<Param>, n: string)
    ensures n in RequiredNames(ps) <==> exists p :: p in ps && !IsVariadic(p) && p.default.None? && p.name == n
    decreases |ps|
  {
    if |ps| > 0 {
      var init, last := ps[..|ps| - 1], ps[|ps| - 1];
      RequiredExact(init, n);
      assert ps == init + [last];
      if exists p :: p in ps && !IsVariadic(p) && p.default.None? && p.name == n {
        var p :| p in ps && !IsVariadic(p) && p.default.None? && p.name == n;
        if p != last {
          assert p in init;
        }
      }
    }
  }

  /** `a` is `b` with some elements removed, order kept. */
  predicate IsSubsequence<T(==)>(a: seq<T>, b: seq<T>)
    decreases |b|
  {
    if |b| == 0 then |a| == 0
    else (|a| > 0 && a[|a| - 1] == b[|b| - 1] && IsSubsequence(a[..|a| - 1], b[..|b| - 1]))
         || IsSubsequence(a, b[..|b| - 1])
  }

  function PropertyNames(qs: seq<Property>): (ns: seq<string>)
    ensures |ns| == |qs| && forall i :: 0 <= i < |qs| ==> ns[i] == qs[i].name
  {
    seq(|qs|, i requires 0 <= i < |qs| => qs[i].name)
  }

  /** The required names follow the declaration order of the properties. */
  lemma {:induction false} RequiredInOrder(ps: seq<Param>)
    ensures IsSubsequence(RequiredNames(ps), PropertyNames(Properties(ps)))
    decreases |ps|
  {
    if |ps| > 0 {
      var init, last := ps[..|ps| - 1], ps[|ps| - 1];
      RequiredInOrder(init);
      var r, n := RequiredNames(init), PropertyNames(Properties(init));
      if IsVariadic(last) {
        assert Properties(ps) == Properties(init);
        assert RequiredNames(ps) == RequiredNames(init);
      } else {
        var n' := PropertyNames(Properties(ps));
        assert n' == n + [last.name];
        assert n'[..|n'| - 1] == n;
        if last.default.None? {
          var r' := RequiredNames(ps);
          assert r' == r + [last.name];
          assert r'[..|r'| - 1] == r;
        } else {
          assert RequiredNames(ps) == r;
        }
      }
    }
  }

  /** `name or func.__name__`. */
  function SchemaName(f: Signature, name: Option<string>): string {
    if name.Some? && name.value != "" then name.value else f.name
  }

  /** `description if description is not None else (func.__doc__ or None)`. */
  function SchemaDescription(f: Signature, description: Option<string>): Option<string> {
    if description.Some? then description
    else if f.doc.Some? && f.doc.value != "" then f.doc
    else None
  }

  /** The schema `func_to_ollama_schema` builds for `f`. */
  function SchemaOf(f: Signature, name: Option<string>, description: Option<string>): (s: FunctionSchema)
    ensures name.Some? && name.value != "" ==> s.name == name.value
    ensures name.None? || name.value == "" ==> s.name == f.name
    ensures description.Some? ==> s.description == description
    ensures description.None? && f.doc.Some? && f.doc.value != "" ==> s.description == f.doc
    ensures description.None? && (f.doc.None? || f.doc.value == "") ==> s.description.None?
    ensures s.properties == Properties(f.params) && s.required == RequiredNames(f.params)
  {
    FunctionSchema(SchemaName(f, name), SchemaDescription(f, description), Properties(f.params), RequiredNames(f.params))
  }

  /** `func_to_ollama_schema`: one pass over the parameters, filling the
      properties and the required list. */
  method FuncToSchema(f: Signature, name: Option<string>, description: Option<string>) returns (s: FunctionSchema)
    ensures s == SchemaOf(f, name, description)
    ensures s.properties == Properties(f.params)
    ensures s.required == RequiredNames(f.params)
    ensures s.name == SchemaName(f, name)
    ensures s.description == SchemaDescription(f, description)
  {
    var props: seq<Property> := [];
    var required: seq<string> := [];
    var i := 0;
    while i < |f.params|
      invariant 0 <= i <= |f.params|
      invariant props == Properties(f.params[..i])
      invariant required == RequiredNames(f.params[..i])
    {
      var p := f.params[i];
      assert f.params[..i + 1][..i] == f.params[..i];
      if p.kind == VarPositional || p.kind == VarKeyword {
        i := i + 1;
        continue;
      }
      var ann := if p.annotation.Some? then p.annotation.value else StrType;
      props := props + [Property(p.name, MapType(ann))];
      if p.default.None? {
        required := required + [p.name];
      }
      i := i + 1;
    }
    assert f.params[..i] == f.params;
    var schemaName := if name.Some? && name.value != "" then name.value else f.name;
    var schemaDescription := if description.Some? then description
                             else if f.doc.Some? && f.doc.value != "" then f.doc
                             else None;
    s := FunctionSchema(schemaName, schemaDescription, props, required);
  }

  /** A property as rendered: its type, with `"description": None`. */
  function PropertyValue(q: Property): (v: Value)
    ensures v.Dict? && "description" in v.fields && v.fields["description"] == Null
    ensures v.fields - {"description"} == TypeValue(q.jtype).fields
  {
    Dict(TypeValue(q.jtype).fields["description" := Null])
  }

  function PropertiesValue(qs: seq<Property>): map<string, Value>
    decreases |qs|
  {
    if |qs| == 0 then map[]
    else PropertiesValue(qs[..|qs| - 1])[qs[|qs| - 1].name := PropertyValue(qs[|qs| - 1])]
  }

  function OptionalString(o: Option<string>): Value {
    match o
    case Some(t) => Str(t)
    case None => Null
  }

  /** The "parameters" part of a schema: the key "required" is present
      exactly when some parameter is required. */
  function ParametersValue(s: FunctionSchema): (v: Value)
    ensures v.Dict? && "type" in v.fields && "properties" in v.fields
    ensures v.fields["type"] == Str("object")
    ensures v.fields["properties"] == Dict(PropertiesValue(s.properties))
    ensures "required" in v.fields <==> |s.required| > 0
    ensures "required" in v.fields ==> v.fields["required"] == List(seq(|s.required|, i requires 0 <= i < |s.required| => Str(s.required[i])))
  {
    var base := map["type" := Str("object"), "properties" := Dict(PropertiesValue(s.properties))];
    if |s.required| > 0 then
      Dict(base["required" := List(seq(|s.required|, i requires 0 <= i < |s.required| => Str(s.required[i])))])
    else Dict(base)
  }

  /** The schema as the Python dict `{"function": {...}}`. */
  function SchemaValue(s: FunctionSchema): (v: Value)
    ensures v.Dict? && v.fields.Keys == {"function"}
  {
    Dict(map["function" := Dict(map[
      "name" := Str(s.name),
      "description" := OptionalString(s.description),
      "parameters" := ParametersValue(s)])])
  }

  /** Every property key of the rendered schema names a property, and the
      last property of each name is the one rendered. */
  lemma {:induction false} PropertiesValueKeys(qs: seq<Property>)
    ensures PropertiesValue(qs).Keys == set q | q in qs :: q.name
    decreases |qs|
  {
    if |qs| > 0 {
      PropertiesValueKeys(qs[..|qs| - 1]);
      assert qs == qs[..|qs| - 1] + [qs[|qs| - 1]];
    }
  }
}
