/**
  Values exchanged on the control plane: the JSON-shaped data that commands carry,
  JavaScript and Python truthiness over it, and the command envelope the clients send.
  Numbers are mathematical reals: NaN and the infinities of IEEE doubles are not modelled.
*/
module Values {

  datatype Option<T> = None | Some(value: T)

  /** A JavaScript value as it reaches the handlers after JSON parsing (plus `undefined`). */
  datatype Value =
    | Undefined
    | Null
    | Bool(b: bool)
    | Num(n: real)
    | Str(s: string)
    | Arr(items: seq<Value>)
    | Obj(fields: map<string, Value>)

  /** JavaScript truthiness: `undefined`, `null`, `false`, `0` and `""` are falsy. */
  predicate Truthy(v: Value) {
    match v
    case Undefined => false
    case Null => false
    case Bool(b) => b
    case Num(n) => n != 0.0
    case Str(s) => s != ""
    case Arr(_) => true
    case Obj(_) => true
  }

  /** Python truthiness of a decoded JSON value: `None`, `False`, `0`, `""`, `[]` and `{}` are falsy. */
  predicate PyTruthy(v: Value) {
    match v
    case Undefined => false
    case Null => false
    case Bool(b) => b
    case Num(n) => n != 0.0
    case Str(s) => s != ""
    case Arr(items) => items != []
    case Obj(fields) => fields != map[]
  }

  /** Destructuring `const { ... } = v` throws a TypeError exactly for these two values. */
  predicate Nullish(v: Value) {
    v.Undefined? || v.Null?
  }

  /**
    The property read `v.key` on a value that is not nullish. Only the own fields of a
    JSON object are found; the handlers never read a property that strings, numbers or
    arrays carry themselves.
  */
  function Prop(v: Value, key: string): (r: Value)
    ensures r != Undefined ==> v.Obj? && key in v.fields && r == v.fields[key]
  {
    if v.Obj? && key in v.fields then v.fields[key] else Undefined
  }

  /**
    JavaScript's conversion of a value to a number where arithmetic and comparisons
    apply it; `None` stands for `NaN`. Strings and arrays, which JavaScript would parse,
    are taken as `NaN` here.
  */
  function ToNumber(v: Value): (r: Option<real>)
    ensures v.Num? ==> r == Some(v.n)
    ensures Nullish(v) ==> (r.Some? <==> v.Null?)
  {
    match v
    case Num(n) => Some(n)
    case Bool(b) => Some(if b then 1.0 else 0.0)
    case Null => Some(0.0)
    case _ => None
  }

  /** The command envelope `{"action": action, "data": data}` that clients send. */
  datatype Command = Command(action: string, data: Value)

  /** No parameter is named twice in `ps`. */
  predicate DistinctNames<V>(ps: seq<(string, V)>) {
    forall i, j :: 0 <= i < j < |ps| ==> ps[i].0 != ps[j].0
  }

  /** One `{"parameterId": id, "value": value}` entry of a `setParameters` list. */
  function ParamEntry(id: string, value: real): Value {
    Obj(map["parameterId" := Str(id), "value" := Num(value)])
  }

  /** A list of parameter entries, in order. */
  function ParamList(ps: seq<(string, real)>): (r: Value)
    ensures r.Arr? && |r.items| == |ps|
    ensures forall i :: 0 <= i < |ps| ==> r.items[i] == ParamEntry(ps[i].0, ps[i].1)
  {
    Arr(seq(|ps|, i requires 0 <= i < |ps| => ParamEntry(ps[i].0, ps[i].1)))
  }

  /** `setParameters` with the given list. */
  function SetParametersCommand(ps: seq<(string, real)>): Command {
    Command("setParameters", Obj(map["parameters" := ParamList(ps)]))
  }

  /** `setParameter` of one parameter. */
  function SetParameterCommand(id: string, value: real): Command {
    Command("setParameter", Obj(map["parameterId" := Str(id), "value" := Num(value)]))
  }

  /** A command whose data is `{key: value}`, such as `setAutoBreath {"enabled": false}`. */
  function FlagCommand(action: string, key: string, value: Value): Command {
    Command(action, Obj(map[key := value]))
  }
}
