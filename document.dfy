/** The JSON-shaped documents the tidy engine works on: mappings (with their
    key order), ordered sequences and scalar leaves, plus the few field
    accessors the engine uses (`_.has`, `obj[key]`, `obj[key] = v`). */
module Document {

  datatype Option<+T> = None | Some(value: T)

  /** The value `new Date(x)` produces: a time value, or an invalid date. */
  datatype DateTime = ValidDate(epochMillis: int) | InvalidDate

  datatype Scalar = Null | Bool(b: bool) | Num(n: int) | Str(s: string) | Date(time: DateTime)

  datatype Json =
    | Leaf(value: Scalar)
    | Obj(fields: seq<(string, Json)>)
    | Arr(items: seq<Json>)

  /** traverse's `isLeaf`: a node with no own keys, so a scalar or an empty
      mapping or sequence. */
  predicate IsLeaf(j: Json) {
    j.Leaf? || (j.Obj? && |j.fields| == 0) || (j.Arr? && |j.items| == 0)
  }

  /** JavaScript truthiness (NaN is not a value of the model). */
  predicate Truthy(j: Json) {
    match j
    case Leaf(Null) => false
    case Leaf(Bool(b)) => b
    case Leaf(Num(n)) => n != 0
    case Leaf(Str(s)) => s != ""
    case _ => true
  }

  /** Position of the first field named `k`. */
  function IndexOf(fields: seq<(string, Json)>, k: string): (r: Option<nat>)
    ensures r.Some? ==> r.value < |fields| && fields[r.value].0 == k
    ensures r.Some? ==> forall i :: 0 <= i < r.value ==> fields[i].0 != k
    ensures r.None? ==> forall i :: 0 <= i < |fields| ==> fields[i].0 != k
  {
    if |fields| == 0 then None
    else if fields[0].0 == k then Some(0)
    else match IndexOf(fields[1..], k)
      case None => None
      case Some(i) => Some(i + 1)
  }

  /** `_.has(j, k)` for a mapping: an own field named `k`. */
  predicate HasField(j: Json, k: string) {
    j.Obj? && IndexOf(j.fields, k).Some?
  }

  /** `j[k]` when `j` has the field. */
  function Field(j: Json, k: string): (r: Option<Json>)
    ensures r.Some? <==> HasField(j, k)
    ensures r.Some? ==> exists i :: 0 <= i < |j.fields| && j.fields[i] == (k, r.value)
  {
    if j.Obj? then
      match IndexOf(j.fields, k)
      case None => None
      case Some(i) => Some(j.fields[i].1)
    else None
  }

  /** JavaScript property assignment `o[k] = v` on a field list: an existing
      key keeps its position and takes the new value, a new key is appended. */
  function Assign(fields: seq<(string, Json)>, k: string, v: Json): (r: seq<(string, Json)>)
    ensures IndexOf(fields, k).Some? ==>
      |r| == |fields| && r[IndexOf(fields, k).value] == (k, v) &&
      forall i :: 0 <= i < |fields| && i != IndexOf(fields, k).value ==> r[i] == fields[i]
    ensures IndexOf(fields, k).None? ==> r == fields + [(k, v)]
  {
    match IndexOf(fields, k)
    case Some(i) => fields[i := (k, v)]
    case None => fields + [(k, v)]
  }

  /** `obj[k] = v` on a document; a non-mapping is left as it is. */
  function SetField(j: Json, k: string, v: Json): (r: Json)
    ensures j.Obj? ==> r == Obj(Assign(j.fields, k, v))
    ensures !j.Obj? ==> r == j
  {
    if j.Obj? then Obj(Assign(j.fields, k, v)) else j
  }

  /** Writing a field that is present changes that field's value and nothing
      else: same keys in the same order, every other value untouched. */
  lemma SetFieldFrame(j: Json, k: string, v: Json)
    requires HasField(j, k)
    ensures SetField(j, k, v).Obj? && |SetField(j, k, v).fields| == |j.fields|
    ensures forall i :: 0 <= i < |j.fields| ==> SetField(j, k, v).fields[i].0 == j.fields[i].0
    ensures forall i :: 0 <= i < |j.fields| && j.fields[i].0 != k ==> SetField(j, k, v).fields[i] == j.fields[i]
    ensures Field(SetField(j, k, v), k) == Some(v)
  {
    var i := IndexOf(j.fields, k).value;
    var r := SetField(j, k, v).fields;
    assert r[i] == (k, v);
    assert IndexOf(r, k) == Some(i) by {
      assert forall m :: 0 <= m < i ==> r[m] == j.fields[m];
      IndexOfIs(r, k, i);
    }
  }

  /** The first position holding key `k` is the value of `IndexOf`. */
  lemma {:induction false} IndexOfIs(fields: seq<(string, Json)>, k: string, i: nat)
    requires i < |fields| && fields[i].0 == k
    requires forall m :: 0 <= m < i ==> fields[m].0 != k
    ensures IndexOf(fields, k) == Some(i)
  {
    if i > 0 {
      IndexOfIs(fields[1..], k, i - 1);
    }
  }

  /** The decimal string of a sequence index, as traverse hands it to the
      visitor as `this.key`. */
  function IndexKey(n: nat): (r: string)
    ensures |r| > 0
    ensures forall c :: c in r ==> '0' <= c <= '9'
  {
    var d := ['0', '1', '2', '3', '4', '5', '6', '7', '8', '9'][n % 10];
    if n < 10 then [d] else IndexKey(n / 10) + [d]
  }
}
