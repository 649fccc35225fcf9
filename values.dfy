/**
 * Dynamically typed values (Go's interface{}) as the backend meets them in
 * panel inputs, station inputs and object properties. Each constructor is
 * one dynamic Go type, so a Go type assertion is a constructor test.
 */
module Values {
  import MathUtils

  datatype Value =
    | Null                              // nil, also a missing map entry
    | Bool(b: bool)                     // bool
    | Float(f: real)                    // float64 (what encoding/json yields for numbers)
    | Int(i: int)                       // int and the other integer kinds
    | Str(s: string)                    // string
    | FloatMap(fm: map<string, real>)   // map[string]float64
    | IntMap(im: map<string, int>)      // map[string]int
    | StrMap(sm: map<string, string>)   // map[string]string
    | StrList(sl: seq<string>)          // []string
    | Vector(v: MathUtils.Vector3)      // utils.Vector3
    | Other                             // any other dynamic type

  /**
   * toFloat64 of backend/panels/manager.go: numbers convert, everything
   * else (nil, strings, booleans, collections) reads as 0.
   */
  function ToFloat64(v: Value): (r: real)
    ensures v.Float? ==> r == v.f
    ensures v.Int? ==> r == v.i as real
    ensures !v.Float? && !v.Int? ==> r == 0.0
  {
    match v
    case Float(f) => f
    case Int(i) => i as real
    case _ => 0.0
  }

  /**
   * Conversion from floating point to integer, truncating toward zero as
   * Go's int(f) and C's (int)f do; the result's magnitude never exceeds the
   * input's.
   */
  function TruncToInt(x: real): (n: int)
    ensures x >= 0.0 ==> 0 <= n && n as real <= x < n as real + 1.0
    ensures x < 0.0 ==> n <= 0 && n as real - 1.0 < x <= n as real
  {
    if x >= 0.0 then x.Floor else -((-x).Floor)
  }

  /** Truncation is not flooring: -0.5 becomes 0 and -2.7 becomes -2. */
  lemma TruncExamples()
    ensures TruncToInt(-0.5) == 0 && TruncToInt(-2.7) == -2 && TruncToInt(2.7) == 2
  {
    assert (0.5).Floor == 0;
    assert (2.7).Floor == 2;
  }

  /** A missing key of a map[string]interface{} reads as nil. */
  function Lookup(m: map<string, Value>, key: string): Value
  {
    if key in m then m[key] else Null
  }

  /** The sum of a map's values; Go iterates maps in no fixed order, and the sum does not depend on it. */
  ghost function MapSum<K>(m: map<K, real>): real
    decreases |m|
  {
    if m == map[] then 0.0
    else
      var k :| k in m;
      m[k] + MapSum(m - {k})
  }

  /** Taking out any one key first gives the same sum. */
  lemma {:induction false} MapSumRemove<K>(m: map<K, real>, j: K)
    requires j in m
    ensures MapSum(m) == m[j] + MapSum(m - {j})
    decreases |m|
  {
    var k :| k in m && MapSum(m) == m[k] + MapSum(m - {k});
    if k != j {
      var rest := m - {k};
      assert j in rest && |rest| < |m|;
      MapSumRemove(rest, j);
      var both := m - {j} - {k};
      assert rest - {j} == both;
      assert k in m - {j} && |m - {j}| < |m|;
      MapSumRemove(m - {j}, k);
      assert (m - {j}) - {k} == both;
    }
  }

  /** Sums of non-negative values are non-negative. */
  lemma {:induction false} MapSumNonNegative<K>(m: map<K, real>)
    requires forall k :: k in m ==> m[k] >= 0.0
    ensures MapSum(m) >= 0.0
    decreases |m|
  {
    if m != map[] {
      var k :| k in m && MapSum(m) == m[k] + MapSum(m - {k});
      MapSumNonNegative(m - {k});
    }
  }

  /** The entries of a map whose keys are in a set: the part of a map visited so far. */
  function Restrict<K>(m: map<K, real>, keys: set<K>): map<K, real>
  {
    map k | k in m && k in keys :: m[k]
  }

  /** Visiting one more key adds its value to the partial sum. */
  lemma MapSumRestrictStep<K>(m: map<K, real>, keys: set<K>, k: K)
    requires k in m && k !in keys
    ensures MapSum(Restrict(m, keys + {k})) == MapSum(Restrict(m, keys)) + m[k]
  {
    var bigger := Restrict(m, keys + {k});
    MapSumRemove(bigger, k);
    assert bigger - {k} == Restrict(m, keys);
  }
}
