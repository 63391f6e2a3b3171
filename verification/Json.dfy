/** Parsed JSON values and the few JavaScript notions the source applies to them. */
module Json {
  datatype Option<+T> = None | Some(value: T)

  /** The value of a successful `JSON.parse`. `Huge` stands for a numeral that overflows to an infinite number. */
  datatype Json =
    | Null
    | Bool(b: bool)
    | Num(n: real)
    | Huge
    | Str(s: string)
    | Arr(items: seq<Json>)
    | Obj(fields: map<string, Json>)

  /** What a property read yields: a JSON value or `undefined`. */
  datatype JsValue = Undefined | Def(v: Json)

  /** `v?.name`. Only objects have own properties with the names the source reads. */
  function Member(v: JsValue, name: string): JsValue {
    if v.Def? && v.v.Obj? && name in v.v.fields then Def(v.v.fields[name]) else Undefined
  }

  /** `v ?? w` */
  function OrElse(v: JsValue, w: JsValue): JsValue {
    if v == Undefined || v == Def(Null) then w else v
  }

  /** JavaScript truthiness. */
  predicate Truthy(v: JsValue) {
    match v
    case Undefined => false
    case Def(Null) => false
    case Def(Bool(b)) => b
    case Def(Num(n)) => n != 0.0
    case Def(Str(s)) => s != ""
    case _ => true
  }

  predicate IsString(v: JsValue) {
    v.Def? && v.v.Str?
  }

  predicate IsNonEmptyString(v: JsValue) {
    IsString(v) && v.v.s != ""
  }

  predicate IsStringOrNull(v: JsValue) {
    v == Def(Null) || IsString(v)
  }

  /** `v === text` for a string `text`. */
  predicate Is(v: JsValue, text: string) {
    v == Def(Str(text))
  }
}
