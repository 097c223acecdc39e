/** JavaScript values as far as the wallet's event handlers inspect them:
    truthiness, `===` against string constants, property reads that throw on
    null/undefined, `a || b`, and the object spread `{ ...v }`.
    Numbers are integers (amounts are opaque or whole cents). */
module JsValue {

  datatype Value =
    | Undefined
    | Null
    | Bool(b: bool)
    | Num(n: int)
    | Str(s: string)
    | Arr(elems: seq<Value>)
    | Obj(props: map<string, Value>)

  /** `v == null` in JavaScript: true for both null and undefined. */
  predicate IsNullish(v: Value) {
    v.Undefined? || v.Null?
  }

  /** The values JavaScript treats as false in `if`, `&&` and `||`. */
  predicate Truthy(v: Value) {
    match v
    case Undefined => false
    case Null => false
    case Bool(b) => b
    case Num(n) => n != 0
    case Str(s) => s != ""
    case Arr(_) => true
    case Obj(_) => true
  }

  lemma TruthyIsNotNullish(v: Value)
    ensures Truthy(v) ==> !IsNullish(v)
  {
  }

  /** `a || b`: the left operand if it is truthy, otherwise the right one. */
  function Or(a: Value, b: Value): (r: Value)
    ensures Truthy(r) <==> Truthy(a) || Truthy(b)
    ensures r == a || r == b
    ensures Truthy(a) ==> r == a
  {
    if Truthy(a) then a else b
  }

  function DigitChar(d: nat): (c: char)
    requires d < 10
    ensures '0' <= c <= '9'
  {
    "0123456789"[d]
  }

  /** The decimal spelling JavaScript uses for an array or string index. */
  function IndexKey(n: nat): (k: string)
    ensures |k| > 0
    ensures forall i :: 0 <= i < |k| ==> '0' <= k[i] <= '9'
  {
    if n < 10 then [DigitChar(n)] else IndexKey(n / 10) + [DigitChar(n % 10)]
  }

  lemma {:induction false} IndexKeyInjective(a: nat, b: nat)
    requires IndexKey(a) == IndexKey(b)
    ensures a == b
  {
    var ka, kb := IndexKey(a), IndexKey(b);
    if a < 10 && b < 10 {
      assert ka[0] == kb[0];
    } else if a >= 10 && b >= 10 {
      var pa, pb := IndexKey(a / 10), IndexKey(b / 10);
      assert ka == pa + [DigitChar(a % 10)];
      assert kb == pb + [DigitChar(b % 10)];
      assert ka[..|ka| - 1] == pa && kb[..|kb| - 1] == pb;
      IndexKeyInjective(a / 10, b / 10);
      assert ka[|ka| - 1] == DigitChar(a % 10) && kb[|kb| - 1] == DigitChar(b % 10);
    }
  }

  /** The own enumerable properties of a value: an object's entries, the
      characters of a string and the elements of an array under their
      decimal indices; none for the other values. */
  function OwnProps(v: Value): (m: map<string, Value>)
    ensures v.Obj? ==> m == v.props
    ensures !v.Obj? && !v.Str? && !v.Arr? ==> m == map[]
  {
    match v
    case Obj(props) => props
    case Str(s) =>
      IndexKeysDistinct();
      map i | 0 <= i < |s| :: IndexKey(i) := Str([s[i]])
    case Arr(xs) =>
      IndexKeysDistinct();
      map i | 0 <= i < |xs| :: IndexKey(i) := xs[i]
    case _ => map[]
  }

  lemma IndexKeysDistinct()
    ensures forall a: nat, b: nat :: IndexKey(a) == IndexKey(b) ==> a == b
  {
    forall a: nat, b: nat | IndexKey(a) == IndexKey(b)
      ensures a == b
    {
      IndexKeyInjective(a, b);
    }
  }

  /** `v.key` for the property names the handlers read (`id`, `selectedBill`,
      `amount`, `description`): an own property, the `length` of a string or
      array, otherwise undefined. Reading from null or undefined throws, so
      callers must rule that out first. */
  function Get(v: Value, key: string): (r: Value)
    requires !IsNullish(v)
    ensures v.Obj? ==> r == (if key in v.props then v.props[key] else Undefined)
    ensures v.Bool? || v.Num? ==> r == Undefined
  {
    var own := OwnProps(v);
    if key in own then own[key]
    else if key == "length" && v.Str? then Num(|v.s|)
    else if key == "length" && v.Arr? then Num(|v.elems|)
    else Undefined
  }

  /** `{ ...v, key: x }`: a fresh object holding v's own properties with key
      set to x (spreading null, undefined or a primitive adds nothing). */
  function SpreadWith(v: Value, key: string, x: Value): (r: Value)
    ensures r.Obj? && key in r.props && r.props[key] == x
    ensures forall k :: k in r.props ==> k == key || k in OwnProps(v)
    ensures forall k :: k in OwnProps(v) && k != key ==> k in r.props && r.props[k] == OwnProps(v)[k]
  {
    Obj(OwnProps(v)[key := x])
  }
}
