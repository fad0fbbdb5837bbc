/** The JavaScript values the two widgets handle: the host page's
    configuration object, parsed webhook response bodies and outbound
    payloads. Only what the widgets observe is modelled: truthiness,
    reading a named property, and the own entries that object spread
    (`{ ...v }`) copies. */
module JsValues {

  datatype Value =
    | Undefined
    | Null
    | Bool(b: bool)
    | Num(n: real)
    | Str(s: string)
    | Arr(items: seq<Value>)
    | Obj(fields: map<string, Value>)

  /** The outcome of an expression that may throw. Every exception the
      widgets can raise while reading values is a TypeError. */
  datatype Result<T> = Ok(value: T) | TypeError

  /** JavaScript's ToBoolean (NaN is not representable here): null and
      undefined are falsy, every object and array is truthy. */
  function Truthy(v: Value): (b: bool)
    ensures Nullish(v) ==> !b
    ensures v.Obj? || v.Arr? ==> b
  {
    match v
    case Undefined => false
    case Null => false
    case Bool(b) => b
    case Num(n) => n != 0.0
    case Str(s) => s != []
    case Arr(_) => true
    case Obj(_) => true
  }

  /** Whether converting `v` to text throws, as the template literals,
      `style.setProperty` and the `textContent` setter do. The values
      modelled hold no functions, so an object with an own `toString`
      entry has nothing callable to convert it with (its `valueOf`, own
      or inherited, returns an object), and it throws. Any other object
      uses `Object.prototype.toString`. An array converts through `join`,
      which converts every element that is not null or undefined. */
  function ConvertThrows(v: Value): (r: bool)
    ensures r ==> v.Obj? || v.Arr?
    ensures v.Obj? ==> (r <==> "toString" in v.fields)
    ensures v.Arr? && (forall i :: 0 <= i < |v.items| ==> !v.items[i].Obj? && !v.items[i].Arr?) ==> !r
  {
    match v
    case Obj(fields) => "toString" in fields
    case Arr(items) => exists i :: 0 <= i < |items| && ConvertThrows(items[i])
    case _ => false
  }

  predicate Nullish(v: Value) {
    v.Undefined? || v.Null?
  }

  /** Reading a named property, `v.key`. Only own properties of objects
      are modelled; the keys the widgets read are not own properties of
      arrays, strings, numbers or booleans, so reading them there gives
      `undefined`. Reading any property of null or undefined throws. */
  function Get(v: Value, key: string): (r: Result<Value>)
    ensures r.TypeError? <==> Nullish(v)
    ensures v.Obj? && key in v.fields ==> r == Ok(v.fields[key])
    ensures !Nullish(v) && !(v.Obj? && key in v.fields) ==> r == Ok(Undefined)
  {
    match v
    case Undefined => TypeError
    case Null => TypeError
    case Obj(fields) => Ok(if key in fields then fields[key] else Undefined)
    case _ => Ok(Undefined)
  }

  function Digit(d: nat): (c: char)
    requires d < 10
    ensures '0' <= c <= '9'
  {
    ('0' as int + d) as char
  }

  /** The decimal spelling of an array or string index, which is the
      property key under which the element is stored. */
  function IndexKey(i: nat): (k: string)
    ensures k != []
    ensures forall j :: 0 <= j < |k| ==> '0' <= k[j] <= '9'
    ensures i < 10 <==> |k| == 1
  {
    if i < 10 then [Digit(i)] else IndexKey(i / 10) + [Digit(i % 10)]
  }

  /** Keys made of decimal digits only: the keys that spreading an array
      or a string produces. */
  predicate IsIndexKey(k: string) {
    k != [] && forall j :: 0 <= j < |k| ==> '0' <= k[j] <= '9'
  }

  /** Distinct indices have distinct keys, so spreading never lets one
      element overwrite another. */
  lemma {:induction false} IndexKeyInjective(a: nat, b: nat)
    requires IndexKey(a) == IndexKey(b)
    ensures a == b
  {
    var ka, kb := IndexKey(a), IndexKey(b);
    if a < 10 && b < 10 {
      assert ka[0] == kb[0];
    } else if a >= 10 && b >= 10 {
      assert ka[|ka| - 1] == kb[|kb| - 1];
      assert a % 10 == b % 10;
      assert IndexKey(a / 10) == ka[..|ka| - 1] == kb[..|kb| - 1] == IndexKey(b / 10);
      IndexKeyInjective(a / 10, b / 10);
    }
  }

  /** The entries `{ ...items }` produces for an array (or the code points
      of a string): element i under key IndexKey(i). */
  function IndexEntries(items: seq<Value>): (m: map<string, Value>)
    ensures forall k :: k in m ==> IsIndexKey(k)
  {
    if items == [] then map[]
    else IndexEntries(items[..|items| - 1])[IndexKey(|items| - 1) := items[|items| - 1]]
  }

  /** Spreading an array keeps every element, each under its own index. */
  lemma {:induction false} IndexEntriesAt(items: seq<Value>, i: nat)
    requires i < |items|
    ensures IndexKey(i) in IndexEntries(items) && IndexEntries(items)[IndexKey(i)] == items[i]
  {
    var n := |items| - 1;
    if i < n {
      IndexEntriesAt(items[..n], i);
      if IndexKey(i) == IndexKey(n) {
        IndexKeyInjective(i, n);
      }
    }
  }

  /** The own enumerable entries that object spread copies out of `v`:
      an object's fields, an array's elements or a string's characters
      under their index keys, and nothing for the other values. */
  function OwnEntries(v: Value): (m: map<string, Value>)
    ensures v.Obj? ==> m == v.fields
    ensures !v.Obj? ==> forall k :: k in m ==> IsIndexKey(k)
    ensures !(v.Obj? || v.Arr? || v.Str?) ==> m == map[]
  {
    match v
    case Obj(fields) => fields
    case Arr(items) => IndexEntries(items)
    case Str(s) => IndexEntries(seq(|s|, i requires 0 <= i < |s| => Str([s[i]])))
    case _ => map[]
  }
}
