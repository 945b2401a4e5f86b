/**
 * The Python values the handlers pass around: JSON-like dictionaries for the
 * attribute maps, the State and the Props, together with the few built-ins the
 * handlers rely on (`dict.get`, truthiness, `str`, `str.lower`) and the
 * `remove_none_attributes` helper, which drops the keys whose value is `None`.
 */
module PyValue {

  import opened Wrappers

  datatype Json =
    | Null
    | Bool(b: bool)
    | Int(i: int)
    | Str(s: string)
    | List(items: seq<Json>)
    | Object(fields: map<string, Json>)

  /** A Python dictionary with string keys. */
  type Dict = map<string, Json>

  /** `d.get(k)`: the value stored under `k`, or `None` when `k` is absent. */
  function Get(d: Dict, k: string): (v: Json)
    ensures k in d ==> v == d[k]
    ensures k !in d ==> v == Null
  {
    if k in d then d[k] else Null
  }

  /** Python truthiness: `None`, `False`, `0`, `""`, `[]` and `{}` are falsy. */
  predicate Truthy(v: Json)
  {
    match v
    case Null => false
    case Bool(b) => b
    case Int(i) => i != 0
    case Str(s) => s != ""
    case List(items) => items != []
    case Object(fields) => fields != map[]
  }

  /** `remove_none_attributes(d)`: the shallow copy of `d` without its `None` values. */
  function RemoveNone(d: Dict): (r: Dict)
    ensures forall k :: k in r <==> k in d && d[k] != Null
    ensures forall k | k in r :: r[k] == d[k]
  {
    map k | k in d && d[k] != Null :: d[k]
  }

  /**
   * After `remove_none_attributes` no value is `None`, so applying it again
   * changes nothing, and `get` cannot tell a dropped entry from an absent one.
   */
  lemma RemoveNoneIdempotent(d: Dict)
    ensures forall k | k in RemoveNone(d) :: RemoveNone(d)[k] != Null
    ensures RemoveNone(RemoveNone(d)) == RemoveNone(d)
    ensures forall k :: Get(RemoveNone(d), k) == Get(d, k)
  {
  }

  /** A dictionary is left as it is by `remove_none_attributes` exactly when it holds no `None`. */
  lemma RemoveNoneFixed(d: Dict)
    ensures RemoveNone(d) == d <==> forall k | k in d :: d[k] != Null
  {
    if RemoveNone(d) == d {
      forall k | k in d
        ensures d[k] != Null
      {
        assert k in RemoveNone(d);
      }
    }
  }

  /** One entry of a literal passed to `remove_none_attributes`: kept unless it is `None`. */
  function PutUnlessNone(d: Dict, k: string, v: Json): (r: Dict)
    ensures v == Null ==> r == d
    ensures v != Null ==> r == d[k := v]
  {
    if v == Null then d else d[k := v]
  }

  /**
   * Adding the entries of a literal one by one, each unless it is `None`, is
   * `remove_none_attributes` of the whole literal: one more entry under a new key
   * gives `remove_none_attributes` of the literal extended by that entry.
   */
  lemma PutUnlessNoneIsRemoveNone(literal: Dict, k: string, v: Json)
    requires k !in literal
    ensures PutUnlessNone(RemoveNone(literal), k, v) == RemoveNone(literal[k := v])
  {
    var lhs := PutUnlessNone(RemoveNone(literal), k, v);
    var rhs := RemoveNone(literal[k := v]);
    assert forall j :: j in lhs <==> j in rhs;
    assert forall j | j in lhs :: lhs[j] == rhs[j];
  }

  /** `{i: d[i] for i in d if i not in keys}`. */
  function Without(d: Dict, keys: set<string>): (r: Dict)
    ensures r.Keys == d.Keys - keys
    ensures forall k | k in r :: r[k] == d[k]
  {
    map k | k in d && k !in keys :: d[k]
  }

  /** Leaving out two key sets in turn is leaving out their union; leaving out keys `d` lacks changes nothing. */
  lemma WithoutCompose(d: Dict, a: set<string>, b: set<string>)
    ensures Without(Without(d, a), b) == Without(d, a + b)
    ensures a !! d.Keys ==> Without(d, a) == d
  {
  }

  /** Two dictionaries agree outside `keys` exactly when every key outside `keys` is in both or in neither, with the same value. */
  lemma WithoutEqual(d: Dict, e: Dict, keys: set<string>)
    ensures Without(d, keys) == Without(e, keys) <==>
      forall k | k !in keys :: (k in d <==> k in e) && (k in d ==> d[k] == e[k])
  {
    if forall k | k !in keys :: (k in d <==> k in e) && (k in d ==> d[k] == e[k]) {
      assert Without(d, keys).Keys == Without(e, keys).Keys;
    } else {
      var k :| k !in keys && !((k in d <==> k in e) && (k in d ==> d[k] == e[k]));
      if k in d && k in e {
        assert Without(d, keys)[k] != Without(e, keys)[k];
      } else if k in d {
        assert k in Without(d, keys).Keys;
      } else {
        assert k in Without(e, keys).Keys;
      }
    }
  }

  /** `str(x)` of an optional string: the string itself, or `"None"`. */
  function StrOrNone(x: Option<string>): (r: string)
    ensures x.Some? ==> r == x.value
    ensures x.None? ==> r == "None"
  {
    if x.Some? then x.value else "None"
  }

  /** `str()` of an optional string tells every two values apart except a missing value and the string `"None"`. */
  lemma StrOrNoneConflates(x: Option<string>, y: Option<string>)
    ensures StrOrNone(x) == StrOrNone(y) <==>
      x == y || ((x.None? || x == Some("None")) && (y.None? || y == Some("None")))
  {
  }

  /** The optional string as a value: `None` or the string. */
  function FromOption(x: Option<string>): (v: Json)
    ensures v == Null <==> x.None?
    ensures x.Some? ==> v == Str(x.value)
  {
    if x.Some? then Str(x.value) else Null
  }

  /** `x or default` for an optional string. */
  function Or(x: Option<string>, default: string): (r: string)
    ensures x.Some? && x.value != "" ==> r == x.value
    ensures !(x.Some? && x.value != "") ==> r == default
  {
    if x.Some? && x.value != "" then x.value else default
  }

  /** `x or default` is never empty when the default is not, and applying it again changes nothing. */
  lemma OrDefault(x: Option<string>, default: string)
    ensures default != "" ==> Or(x, default) != ""
    ensures Or(Some(Or(x, default)), default) == Or(x, default)
  {
  }

  /** An optional list of strings as a value: `None` or the list. */
  function OptionalList(x: Option<seq<string>>): (v: Json)
    ensures v == Null <==> x.None?
    ensures x.Some? ==> v == StrList(x.value)
  {
    if x.Some? then StrList(x.value) else Null
  }

  /** A list of strings as a value. */
  function StrList(ss: seq<string>): Json
  {
    List(seq(|ss|, i requires 0 <= i < |ss| => Str(ss[i])))
  }

  /** Distinct optional lists are distinct values: the value of a list keeps every string, in order. */
  lemma OptionalListInjective(x: Option<seq<string>>, y: Option<seq<string>>)
    ensures OptionalList(x) == OptionalList(y) <==> x == y
  {
    if OptionalList(x) == OptionalList(y) && x.Some? && y.Some? {
      var a, b := x.value, y.value;
      assert |StrList(a).items| == |a| && |StrList(b).items| == |b|;
      forall i | 0 <= i < |a|
        ensures a[i] == b[i]
      {
        assert StrList(a).items[i] == Str(a[i]);
        assert StrList(b).items[i] == Str(b[i]);
      }
      assert a == b;
    }
  }

  /** A dictionary of strings as a value. */
  function StrMap(m: map<string, string>): Dict
  {
    map k | k in m :: Str(m[k])
  }

  /** A dictionary of strings read back from a value; `None` unless every entry is a string. */
  function AsStrMap(v: Json): Option<map<string, string>>
  {
    if v.Object? && forall k | k in v.fields :: v.fields[k].Str? then
      Some(map k | k in v.fields :: v.fields[k].s)
    else None
  }

  /** Reading back succeeds exactly on dictionaries of strings, and keeps every entry. */
  lemma AsStrMapReadsStrings(v: Json)
    ensures AsStrMap(v).Some? <==> v.Object? && forall k | k in v.fields :: v.fields[k].Str?
    ensures AsStrMap(v).Some? ==>
      AsStrMap(v).value.Keys == v.fields.Keys && forall k | k in AsStrMap(v).value :: v.fields[k] == Str(AsStrMap(v).value[k])
  {
  }

  /** Storing a dictionary of strings and reading it back gives the same dictionary. */
  lemma StrMapRoundTrip(m: map<string, string>)
    ensures AsStrMap(Object(StrMap(m))) == Some(m)
  {
    var r := AsStrMap(Object(StrMap(m)));
    assert r.Some?;
    assert r.value == m;
  }

  /** `str(b)` of a boolean. */
  function BoolStr(b: bool): string
  {
    if b then "True" else "False"
  }

  function Digit(d: nat): (c: char)
    requires d < 10
    ensures '0' <= c <= '9'
  {
    "0123456789"[d]
  }

  /** `str(n)` of a non-negative integer: its decimal digits, most significant first. */
  function NatStr(n: nat): (r: string)
    ensures |r| > 0
    ensures forall i | 0 <= i < |r| :: '0' <= r[i] <= '9'
    decreases n
  {
    if n < 10 then [Digit(n)] else NatStr(n / 10) + [Digit(n % 10)]
  }

  /** `str(i)` of an integer. */
  function IntStr(i: int): (r: string)
    ensures |r| > 0
    ensures r[0] == '-' <==> i < 0
    ensures i >= 0 ==> r == NatStr(i)
    ensures i < 0 ==> r[1..] == NatStr(-i)
  {
    if i < 0 then "-" + NatStr(-i) else NatStr(i)
  }

  /** The value of a string of decimal digits. */
  function DecimalValue(s: string): (n: nat)
    requires forall i | 0 <= i < |s| :: '0' <= s[i] <= '9'
  {
    if s == [] then 0 else 10 * DecimalValue(s[..|s| - 1]) + (s[|s| - 1] - '0') as nat
  }

  /** `str` loses nothing on non-negative integers: reading the digits back gives `n`. */
  lemma {:induction false} NatStrValue(n: nat)
    ensures DecimalValue(NatStr(n)) == n
  {
    var r := NatStr(n);
    if n >= 10 {
      NatStrValue(n / 10);
      assert r[..|r| - 1] == NatStr(n / 10);
    }
  }

  /**
   * `int(s)` of a string: the value of a non-empty run of decimal digits; on
   * anything else `int` raises `ValueError`, which is `None` here.
   */
  function ParseInt(s: string): (r: Option<int>)
    ensures r.Some? <==> s != [] && forall i | 0 <= i < |s| :: '0' <= s[i] <= '9'
    ensures r.Some? ==> r.value >= 0
  {
    if s != [] && forall i | 0 <= i < |s| :: '0' <= s[i] <= '9' then Some(DecimalValue(s)) else None
  }

  /** Recording a non-negative integer as a string and parsing it back gives the integer. */
  lemma ParseIntStr(n: nat)
    ensures ParseInt(NatStr(n)) == Some(n)
  {
    NatStrValue(n);
  }

  /** `str` of integers loses nothing: distinct integers have distinct strings. */
  lemma IntStrInjective(i: int, j: int)
    ensures IntStr(i) == IntStr(j) <==> i == j
  {
    var r, t := IntStr(i), IntStr(j);
    if r == t {
      assert (i < 0) == (j < 0) by {
        assert r[0] == t[0];
      }
      var m, n := if i < 0 then -i else i, if j < 0 then -j else j;
      assert NatStr(m) == NatStr(n) by {
        if i < 0 {
          assert NatStr(m) == r[1..] && NatStr(n) == t[1..];
        }
      }
      NatStrValue(m);
      NatStrValue(n);
    }
  }

  /** `str.lower()` on ASCII letters; every other character is kept. */
  function Lower(s: string): (r: string)
    ensures |r| == |s|
    ensures forall i | 0 <= i < |s| :: r[i] == if 'A' <= s[i] <= 'Z' then (s[i] - 'A' + 'a') else s[i]
  {
    seq(|s|, i requires 0 <= i < |s| => if 'A' <= s[i] <= 'Z' then (s[i] - 'A' + 'a') as char else s[i])
  }

  /** `lower()` of a lowered string changes nothing, and leaves no upper-case ASCII letter. */
  lemma LowerIdempotent(s: string)
    ensures Lower(Lower(s)) == Lower(s)
    ensures forall i | 0 <= i < |s| :: !('A' <= Lower(s)[i] <= 'Z')
  {
  }

  /**
   * botocore's client-side parameter check rejects `None` wherever a request
   * holds it: a value passes when it is no `None` and neither is anything inside it.
   */
  predicate NoNone(v: Json)
  {
    match v
    case Null => false
    case Bool(_) => true
    case Int(_) => true
    case Str(_) => true
    case List(items) => forall i | 0 <= i < |items| :: NoNone(items[i])
    case Object(fields) => forall k | k in fields :: NoNone(fields[k])
  }

  /** A list of strings holds no `None`. */
  lemma StrListNoNone(ss: seq<string>)
    ensures NoNone(StrList(ss))
  {
    var items := StrList(ss).items;
    forall i | 0 <= i < |items|
      ensures NoNone(items[i])
    {
      assert items[i] == Str(ss[i]);
    }
  }
}
