/** JSON values as the HTTP body parser and the protocol SDK hand them to the
    server, with the few pieces of JavaScript semantics the core relies on:
    truthiness (`||`, `if (x)`), optional property access (`body?.params`) and
    object spread (`{...body}`). */
module JsonValues {
  import opened Wrappers

  /** A JSON value. Numbers are modelled as integers. */
  datatype Json =
    | JNull
    | JBool(b: bool)
    | JNum(n: int)
    | JStr(s: string)
    | JArr(items: seq<Json>)
    | JObj(fields: map<string, Json>)

  /** JavaScript truthiness of a JSON value: `null`, `false`, `0` and `""`
      are falsy; every array and every object is truthy. */
  predicate Truthy(v: Json)
  {
    match v
    case JNull => false
    case JBool(b) => b
    case JNum(n) => n != 0
    case JStr(s) => s != ""
    case JArr(_) => true
    case JObj(_) => true
  }

  /** Truthiness of a string that may be `undefined`. */
  predicate TruthyText(s: Option<string>)
  {
    s.Some? && s.value != ""
  }

  /** `v?.key`: the property of an object, `undefined` (None) for a missing
      property and for every value that is not an object. */
  function Property(v: Json, key: string): (r: Option<Json>)
    ensures r.Some? <==> v.JObj? && key in v.fields
    ensures r.Some? ==> r.value == v.fields[key]
  {
    if v.JObj? && key in v.fields then Some(v.fields[key]) else None
  }

  /** `String(n)` for a natural number: its decimal digits. */
  function Decimal(n: nat): (r: string)
    ensures |r| >= 1
    ensures forall i :: 0 <= i < |r| ==> '0' <= r[i] <= '9'
  {
    var d := ['0' + (n % 10) as char];
    if n < 10 then d else Decimal(n / 10) + d
  }

  /** The own enumerable properties an array or a string contributes to an
      object spread: one per index, keyed by the index in decimal. */
  function IndexedProperties(items: seq<Json>): (m: map<string, Json>)
    ensures forall k :: k in m ==> k != "" && '0' <= k[0] <= '9'
  {
    if items == [] then map[]
    else
      var last := |items| - 1;
      IndexedProperties(items[..last])[Decimal(last) := items[last]]
  }

  /** Distinct numbers have distinct decimal forms. */
  lemma {:induction false} DecimalInjective(m: nat, n: nat)
    requires Decimal(m) == Decimal(n)
    ensures m == n
  {
    var dm, dn := Decimal(m), Decimal(n);
    assert dm[|dm| - 1] == '0' + (m % 10) as char;
    assert dn[|dn| - 1] == '0' + (n % 10) as char;
    assert m % 10 == n % 10;
    if m >= 10 && n >= 10 {
      assert dm[..|dm| - 1] == Decimal(m / 10);
      assert dn[..|dn| - 1] == Decimal(n / 10);
      DecimalInjective(m / 10, n / 10);
    }
  }

  /** The spread of a sequence holds item `i` under the key `String(i)`, and
      no other keys. */
  lemma {:induction false} IndexedPropertiesLookup(items: seq<Json>)
    ensures forall i :: 0 <= i < |items| ==>
      Decimal(i) in IndexedProperties(items) && IndexedProperties(items)[Decimal(i)] == items[i]
    ensures forall k :: k in IndexedProperties(items) ==> exists i :: 0 <= i < |items| && k == Decimal(i)
  {
    if items != [] {
      var last := |items| - 1;
      var prefix := items[..last];
      IndexedPropertiesLookup(prefix);
      forall i | 0 <= i < |items|
        ensures Decimal(i) in IndexedProperties(items) && IndexedProperties(items)[Decimal(i)] == items[i]
      {
        if i < last {
          if Decimal(i) == Decimal(last) {
            DecimalInjective(i, last);
          }
          assert prefix[i] == items[i];
        }
      }
    }
  }

  /** `{...v}`: the properties that spreading `v` into an object literal
      copies. Objects give their fields, arrays and strings their indices,
      and `null`, booleans and numbers nothing. */
  function Spread(v: Json): (m: map<string, Json>)
    ensures v.JObj? ==> m == v.fields
    ensures !v.JObj? ==> forall k :: k in m ==> k != "" && '0' <= k[0] <= '9'
  {
    match v
    case JObj(fields) => fields
    case JArr(items) => IndexedProperties(items)
    case JStr(s) => IndexedProperties(seq(|s|, i requires 0 <= i < |s| => JStr([s[i]])))
    case _ => map[]
  }
}
