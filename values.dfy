/** Python values as they flow through the application: optional strings,
    the exceptions the code lets escape, and the loosely typed values that
    end up in CSV rows and template placeholders. */
module Values {

  datatype Option<T> = None | Some(value: T)

  /** A timestamp produced by `datetime.now()`; opaque in the model. */
  type Time = int

  /** The exceptions the source raises and does not catch where they occur. */
  datatype Fault =
    | AttributeError
    | TypeError
    | IndexError
    | ValueError(message: string)
    | JsonDecodeError
    | ConversionError
    | TransportError
    | ApiError

  datatype Result<T> = Ok(value: T) | Err(fault: Fault)

  /** Normal completion, or an exception that propagates to the caller. */
  datatype Outcome = Done | Raised(fault: Fault)

  /** Python truthiness of an optional string: `None` and `""` are falsy. */
  predicate Truthy(s: Option<string>) {
    s.Some? && s.value != ""
  }

  /** `arg or default` (equivalently `arg if arg else default`). */
  function Or(arg: Option<string>, default: Option<string>): (r: Option<string>)
    ensures Truthy(arg) ==> r == arg
    ensures !Truthy(arg) ==> r == default
  {
    if Truthy(arg) then arg else default
  }

  /** A loosely typed Python value, as written to a CSV cell or a template. */
  datatype Value =
    | VNone
    | VStr(s: string)
    | VBool(b: bool)
    | VInt(i: int)
    | VReal(r: real)
    | VTime(t: Time)
    | VEnum(member: string)
    | VEnumClass(name: string)
    | VObject(kind: string)

  function OfStr(s: Option<string>): Value {
    if s.Some? then VStr(s.value) else VNone
  }

  function OfInt(i: Option<int>): Value {
    if i.Some? then VInt(i.value) else VNone
  }

  function OfTime(t: Option<Time>): Value {
    if t.Some? then VTime(t.value) else VNone
  }

  function OfReal(r: Option<real>): Value {
    if r.Some? then VReal(r.value) else VNone
  }

  /** An insertion-ordered Python dict (or the `vars()` of an object). */
  type Dict = seq<(string, Value)>

  function KeysOf(d: Dict): (ks: seq<string>)
    ensures |ks| == |d|
    ensures forall i | 0 <= i < |d| :: ks[i] == d[i].0
  {
    seq(|d|, i requires 0 <= i < |d| => d[i].0)
  }

  /** Python dicts never repeat a key. */
  predicate DistinctKeys(d: Dict) {
    forall i, j | 0 <= i < j < |d| :: d[i].0 != d[j].0
  }

  /** `d.get(k)`: the value stored under `k`, if any. */
  function Lookup(d: Dict, k: string): (r: Option<Value>)
    ensures r.None? <==> k !in KeysOf(d)
    ensures forall i | 0 <= i < |d| && d[i].0 == k && DistinctKeys(d) :: r == Some(d[i].1)
  {
    if d == [] then None
    else if d[0].0 == k then Some(d[0].1)
    else Lookup(d[1..], k)
  }

  /** `d.update({k: v})` (and `d[k] = v`): an existing key keeps its place
      and takes the new value, a new key goes at the end. */
  function Update(d: Dict, k: string, v: Value): (r: Dict)
    ensures KeysOf(r) == (if k in KeysOf(d) then KeysOf(d) else KeysOf(d) + [k])
  {
    if d == [] then [(k, v)]
    else if d[0].0 == k then [(k, v)] + d[1..]
    else [d[0]] + Update(d[1..], k, v)
  }

  /** The updated dict still has no repeated key. */
  lemma UpdateKeepsKeysDistinct(d: Dict, k: string, v: Value)
    requires DistinctKeys(d)
    ensures DistinctKeys(Update(d, k, v))
  {
    var r := Update(d, k, v);
    var ks := KeysOf(d);
    forall i, j | 0 <= i < j < |r| ensures r[i].0 != r[j].0 {
      assert r[i].0 == KeysOf(r)[i] && r[j].0 == KeysOf(r)[j];
      if j < |d| {
        assert d[i].0 == ks[i] && d[j].0 == ks[j];
      } else {
        assert ks[i] in ks;
      }
    }
  }

  /** After the update the key holds the new value. */
  lemma {:induction false} UpdateSetsKey(d: Dict, k: string, v: Value)
    ensures Lookup(Update(d, k, v), k) == Some(v)
  {
    if d != [] && d[0].0 != k {
      UpdateSetsKey(d[1..], k, v);
    }
  }

  /** Every other key keeps its value. */
  lemma {:induction false} UpdateKeepsOthers(d: Dict, k: string, v: Value, other: string)
    requires other != k
    ensures Lookup(Update(d, k, v), other) == Lookup(d, other)
  {
    if d != [] && d[0].0 != k {
      UpdateKeepsOthers(d[1..], k, v, other);
    } else if d != [] {
      assert Update(d, k, v)[1..] == d[1..];
    }
  }

  /** A key not yet in the dict is appended at the end. */
  lemma {:induction false} UpdateAbsentAppends(d: Dict, k: string, v: Value)
    requires k !in KeysOf(d)
    ensures Update(d, k, v) == d + [(k, v)]
  {
    if d != [] {
      assert KeysOf(d)[0] == d[0].0;
      assert forall i | 0 <= i < |d| - 1 :: KeysOf(d[1..])[i] == KeysOf(d)[i + 1];
      UpdateAbsentAppends(d[1..], k, v);
      assert [d[0]] + (d[1..] + [(k, v)]) == d + [(k, v)];
    }
  }
}
