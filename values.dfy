/** JavaScript values as they cross the provisioning API and the document
    store, and the `{data, error}` shape every API call answers with. */
module Values {

  datatype Option<+T> = None | Some(value: T)

  /** A JavaScript value. `Null` stands for both `null` and `undefined`:
      optional chaining and the document store treat them alike. Object
      fields keep their insertion order, as JavaScript objects do. */
  datatype Json =
    | Null
    | Bool(b: bool)
    | Num(n: real)
    | Str(s: string)
    | Arr(items: seq<Json>)
    | Obj(fields: seq<Field>)

  datatype Field = Field(name: string, value: Json)

  /** The object literal `{}`. */
  const EmptyObject: Json := Obj([])

  /** What one call of the provisioning API resolves to: `{data}` or `{error}`
      with `error.status` and `error.message`. */
  datatype ApiResult = Ok(data: Json) | Err(status: int, message: string)

  /** The value of the first field called `name`, or Null when there is none. */
  function LookupField(fs: seq<Field>, name: string): (r: Json)
    ensures r != Null ==> exists i :: 0 <= i < |fs| && fs[i].name == name && fs[i].value == r
    ensures (forall i :: 0 <= i < |fs| ==> fs[i].name != name) ==> r == Null
  {
    if fs == [] then Null
    else if fs[0].name == name then fs[0].value
    else LookupField(fs[1..], name)
  }

  /** `j?.[name]`: Null unless `j` is an object holding that field. */
  function Get(j: Json, name: string): Json
  {
    if j.Obj? then LookupField(j.fields, name) else Null
  }

  /** `j?.[i]`: Null unless `j` is an array with an element at `i`. */
  function At(j: Json, i: int): (r: Json)
    ensures j.Arr? && 0 <= i < |j.items| ==> r == j.items[i]
    ensures !j.Arr? || i < 0 || |j.items| <= i ==> r == Null
  {
    if j.Arr? && 0 <= i < |j.items| then j.items[i] else Null
  }

  /** `j?.[j.length - 1]`: the last element of an array, Null otherwise. */
  function Last(j: Json): Json
  {
    if j.Arr? then At(j, |j.items| - 1) else Null
  }

  /** JavaScript truthiness (NaN is not modelled). */
  predicate Truthy(j: Json)
  {
    match j
    case Null => false
    case Bool(b) => b
    case Num(n) => n != 0.0
    case Str(s) => s != ""
    case Arr(_) => true
    case Obj(_) => true
  }

  /** The fields after `o[name] = v`: an existing field keeps its place,
      a new one goes last. */
  function PutField(fs: seq<Field>, name: string, v: Json): (r: seq<Field>)
    ensures LookupField(r, name) == v
    ensures forall other :: other != name ==> LookupField(r, other) == LookupField(fs, other)
  {
    if fs == [] then [Field(name, v)]
    else if fs[0].name == name then [Field(name, v)] + fs[1..]
    else [fs[0]] + PutField(fs[1..], name, v)
  }

  /** `j[name] = v` on an object. On null, undefined or a primitive the
      assignment throws a TypeError in strict code; callers model that
      themselves (see `Assignable`). An array keeps its elements only, as
      that is all a stored array keeps. */
  function SetField(j: Json, name: string, v: Json): (r: Json)
    ensures j.Obj? ==> r.Obj? && Get(r, name) == v
    ensures forall other :: other != name ==> Get(r, other) == Get(j, other)
    ensures !j.Obj? ==> r == j
  {
    if j.Obj? then Obj(PutField(j.fields, name, v)) else j
  }

  /** Whether `j[name] = v` runs in strict code: only objects and arrays
      take a property; null, undefined and primitives throw a TypeError. */
  predicate Assignable(j: Json)
  {
    j.Obj? || j.Arr?
  }

  /** `Object.values(j)`: None where JavaScript throws a TypeError (null or
      undefined), the elements of an array, the field values of an object in
      order, the characters of a string, nothing for other values. */
  function ObjectValues(j: Json): (r: Option<seq<Json>>)
    ensures r.None? <==> j == Null
    ensures j.Arr? ==> r == Some(j.items)
  {
    match j
    case Null => None
    case Arr(items) => Some(items)
    case Obj(fs) => Some(seq(|fs|, i requires 0 <= i < |fs| => fs[i].value))
    case Str(s) => Some(seq(|s|, i requires 0 <= i < |s| => Str([s[i]])))
    case Bool(_) => Some([])
    case Num(_) => Some([])
  }

  /** `Array.prototype.reverse` as a value. */
  function Reverse<T>(s: seq<T>): (r: seq<T>)
  {
    if s == [] then [] else Reverse(s[1..]) + [s[0]]
  }

  lemma {:induction false} ReverseAt<T>(s: seq<T>, k: int)
    requires 0 <= k < |s|
    ensures |Reverse(s)| == |s| && Reverse(s)[k] == s[|s| - 1 - k]
  {
    ReverseLength(s);
    if k < |s| - 1 {
      ReverseAt(s[1..], k);
    }
  }

  lemma {:induction false} ReverseLength<T>(s: seq<T>)
    ensures |Reverse(s)| == |s|
  {
    if s != [] {
      ReverseLength(s[1..]);
    }
  }

  /** Reversing twice gives the original list back. */
  lemma ReverseReverse<T>(s: seq<T>)
    ensures Reverse(Reverse(s)) == s
  {
    ReverseLength(s);
    ReverseLength(Reverse(s));
    forall k | 0 <= k < |s|
      ensures Reverse(Reverse(s))[k] == s[k]
    {
      ReverseAt(Reverse(s), k);
      ReverseAt(s, |s| - 1 - k);
    }
  }
}
