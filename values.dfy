/** Python values as the agent code sees them after JSON decoding, the chat
    message and agent action records shared by the three agent variants, and
    the foreign behaviour (JSON codec, `ast.literal_eval`, `str()`, the LLM)
    that the model takes as given. */
module Values {
  import opened Wrappers

  /** A JSON-shaped Python value. Python tuples (which `ast.literal_eval` can
      produce) are represented as lists: the code treats the two alike. */
  datatype Value =
    | Null
    | Bool(b: bool)
    | Int(i: int)
    | Str(s: string)
    | List(items: seq<Value>)
    | Dict(fields: map<string, Value>)

  /** Python truthiness (`if v:`). */
  predicate Truthy(v: Value) {
    match v
    case Null => false
    case Bool(b) => b
    case Int(i) => i != 0
    case Str(s) => s != ""
    case List(xs) => |xs| > 0
    case Dict(m) => |m| > 0
  }

  /** `d.get(k, default)`. */
  function Get(d: map<string, Value>, k: string, default: Value): (v: Value)
    ensures k in d ==> v == d[k]
    ensures k !in d ==> v == default
  {
    if k in d then d[k] else default
  }

  /** A chat message `{"role": ..., "content": ...}`; the content is None when
      the code puts Python's None there. */
  datatype Message = Message(role: string, content: Option<string>)

  /** `AgentAction(tool_name, tool_input, tool_output)`; all three variants
      declare the same three fields. */
  datatype Action = Action(toolName: string, toolInput: map<string, Value>, toolOutput: Option<string>)

  /** The behaviour the model does not define: the JSON codec,
      `ast.literal_eval`, `str()` of a value that is not a string, and the
      LLM, which maps the messages it is sent to the text content of its
      reply. A parser failing is `Failure` with the exception's text. */
  datatype Host = Host(
    loads: string -> Result<Value, string>,
    literalEval: string -> Result<Value, string>,
    dumps: Value -> string,
    toStr: Value -> string,
    chat: seq<Message> -> string)

  /** `str(v)`, and so `f"{v}"`: a string is itself. */
  function Format(h: Host, v: Value): (s: string)
    ensures v.Str? ==> s == v.s
  {
    if v.Str? then v.s else h.toStr(v)
  }

  /** `json.loads(json.dumps(v)) == v` for every value the model can express. */
  ghost predicate JsonRoundTrips(h: Host) {
    forall v :: h.loads(h.dumps(v)) == Success(v)
  }

  /** One formal parameter of a Python function, with its default if any. */
  datatype Formal = Formal(name: string, default: Option<Value>)

  function Names(formals: seq<Formal>): (names: set<string>)
    ensures forall k :: 0 <= k < |formals| ==> formals[k].name in names
    ensures forall n :: n in names ==> exists k :: 0 <= k < |formals| && formals[k].name == n
  {
    if |formals| == 0 then {} else {formals[0].name} + Names(formals[1..])
  }

  function Lookup(formals: seq<Formal>, n: string): (f: Option<Formal>)
    ensures f.Some? ==> f.value.name == n && f.value in formals
    ensures f.None? ==> n !in Names(formals)
  {
    if |formals| == 0 then None
    else if formals[0].name == n then Some(formals[0])
    else Lookup(formals[1..], n)
  }

  predicate Required(formals: seq<Formal>, n: string) {
    var f := Lookup(formals, n); f.Some? && f.value.default.None?
  }

  /** Binding `f(**args)` to keyword-or-positional parameters: an unknown key
      raises TypeError (CPython checks this first), then a parameter without a
      default that `args` leaves out raises TypeError; otherwise every
      parameter gets its argument or its default. */
  function Bind(fname: string, formals: seq<Formal>, args: map<string, Value>): (r: Result<map<string, Value>, string>)
    ensures r.Success? <==>
              (forall k :: k in args ==> k in Names(formals)) &&
              (forall n :: n in Names(formals) && Required(formals, n) ==> n in args)
    ensures r.Success? ==> r.value.Keys == Names(formals)
    ensures r.Success? ==> forall n :: n in args ==> r.value[n] == args[n]
    ensures r.Success? ==> forall n :: n in Names(formals) && n !in args ==>
                             Lookup(formals, n).value.default.Some? && r.value[n] == Lookup(formals, n).value.default.value
  {
    if exists k :: k in args && k !in Names(formals) then
      Failure(fname + ("() got an unexpected keyword " + "argument"))
    else if exists n :: n in Names(formals) && Required(formals, n) && n !in args then
      Failure(fname + "() missing a required argument")
    else
      Success(map n | n in Names(formals) :: if n in args then args[n] else Lookup(formals, n).value.default.value)
  }
}
