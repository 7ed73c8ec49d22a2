/**
 * The untyped Java object trees the kernel passes around: the payload of a
 * MessageEnvelope, the JSON body of an HTTP reply, the result of Jackson's
 * readValue(..., Map.class). `Null` is Java's null.
 */
module Json {
  import opened Wrappers
  import Text

  datatype Number = Integral(i: int) | Floating(r: real)

  datatype Value =
    | Null
    | Bool(b: bool)
    | Num(n: Number)
    | Str(s: string)
    | Arr(items: seq<Value>)
    | Obj(fields: map<string, Value>)
    | Set(members: set<Value>)
    | Other(className: string)

  type Fields = map<string, Value>

  /** Map.get: an absent key and a key mapped to null both give null. */
  function Get(m: Fields, key: string): Value {
    if key in m then m[key] else Null
  }

  /** Map.getOrDefault: the default only for an absent key; a present null stays null. */
  function GetOrDefault(m: Fields, key: string, default: Value): Value {
    if key in m then m[key] else default
  }

  /** Map.putIfAbsent: writes when the key is absent or mapped to null. */
  function PutIfAbsent(m: Fields, key: string, v: Value): (r: Fields)
    ensures key in r
    ensures Get(r, key) == (if Get(m, key) != Null then Get(m, key) else v)
    ensures r.Keys == m.Keys + {key}
    ensures forall k :: k in m && k != key ==> r[k] == m[k]
  {
    if key in m && m[key] != Null then m else m[key := v]
  }

  /** Java null as a Value. */
  function FromOption(o: Option<string>): Value {
    match o
    case Some(s) => Str(s)
    case None => Null
  }

  /** Outcome of a `(String) x` cast. */
  datatype StringCast = CastNull | CastString(s: string) | CastFails

  function AsString(v: Value): StringCast {
    match v
    case Null => CastNull
    case Str(s) => CastString(s)
    case _ => CastFails
  }

  /** The nullable string a successful cast yields. */
  function CastValue(c: StringCast): Option<string>
    requires !c.CastFails?
  {
    if c.CastNull? then None else Some(c.s)
  }

  /**
   * String.valueOf / Objects.toString. Strings, booleans, integers and null
   * print as Java prints them; other values get a fixed rendering.
   */
  function ToText(v: Value): string {
    match v
    case Null => "null"
    case Bool(b) => if b then "true" else "false"
    case Num(Integral(i)) => Text.IntToString(i)
    case Num(Floating(_)) => "<double>"
    case Str(s) => s
    case Arr(_) => "[...]"
    case Obj(_) => "{...}"
    case Set(_) => "[...]"
    case Other(c) => c + "@..."
  }

  /** `"..." + s` with a nullable String s. */
  function Show(o: Option<string>): string {
    match o
    case Some(s) => s
    case None => "null"
  }

  /** Optional.ofNullable(v).map(Object::toString).orElse(default). */
  function TextOrDefault(v: Value, default: string): (r: string)
    ensures v == Null ==> r == default
    ensures v.Str? ==> r == v.s
  {
    if v == Null then default else ToText(v)
  }

  /** Applying putIfAbsent twice with the same key keeps the first value. */
  lemma PutIfAbsentIdempotent(m: Fields, key: string, v: Value, w: Value)
    requires v != Null
    ensures PutIfAbsent(PutIfAbsent(m, key, v), key, w) == PutIfAbsent(m, key, v)
  {
  }
}
