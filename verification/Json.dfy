/** JavaScript values as the services see them, and what survives JSON text.

    An object is a map from its own property names to values; property order is not modelled.
    A number is carried by an integer code, since nothing here computes with one. */
module Json {
  datatype Value =
    | Undefined
    | Null
    | Bool(b: bool)
    | Num(code: int)
    | Str(s: string)
    | Arr(items: seq<Value>)
    | Obj(fields: Record)

  type Record = map<string, Value>

  /** `JSON.parse(JSON.stringify(v))`: an object's undefined properties vanish, an array's become null. */
  function Clean(v: Value): Value {
    match v
    case Obj(f) => Obj(map k | k in f && !f[k].Undefined? :: Clean(f[k]))
    case Arr(xs) =>
      Arr(seq(|xs|, i requires 0 <= i < |xs| => if xs[i].Undefined? then Null else Clean(xs[i])))
    case _ => v
  }

  /** The same for a whole record: a Kafka value or a JSONB column read back. */
  function CleanRecord(f: Record): Record {
    Clean(Obj(f)).fields
  }

  /** A value that JSON text can carry: no undefined anywhere. */
  predicate IsJson(v: Value) {
    match v
    case Undefined => false
    case Obj(f) => forall k | k in f :: IsJson(f[k])
    case Arr(xs) => forall i | 0 <= i < |xs| :: IsJson(xs[i])
    case _ => true
  }

  lemma {:induction false} CleanIsJson(v: Value)
    requires !v.Undefined?
    ensures IsJson(Clean(v))
  {
    match v
    case Obj(f) =>
      forall k | k in f && !f[k].Undefined? ensures IsJson(Clean(f[k])) { CleanIsJson(f[k]); }
    case Arr(xs) =>
      forall i | 0 <= i < |xs| && !xs[i].Undefined? ensures IsJson(Clean(xs[i])) { CleanIsJson(xs[i]); }
    case _ =>
  }

  /** An array keeps its length, and an undefined item of it becomes null. */
  lemma CleanItem(items: seq<Value>, i: nat)
    requires i < |items|
    ensures Clean(Arr(items)).Arr? && |Clean(Arr(items)).items| == |items|
    ensures items[i].Undefined? ==> Clean(Arr(items)).items[i] == Null
    ensures !items[i].Undefined? ==> Clean(Arr(items)).items[i] == Clean(items[i])
  {
  }

  /** JSON text changes nothing that it can carry. */
  lemma {:induction false} CleanKeepsJson(v: Value)
    requires IsJson(v)
    ensures Clean(v) == v
  {
    match v
    case Obj(f) =>
      forall k | k in f ensures Clean(f[k]) == f[k] { CleanKeepsJson(f[k]); }
      assert Clean(v).fields == f;
    case Arr(xs) =>
      forall i | 0 <= i < |xs| ensures Clean(xs[i]) == xs[i] { CleanKeepsJson(xs[i]); }
      assert Clean(v).items == xs;
    case _ =>
  }

  /** A record that has been through JSON once is unchanged by going through again. */
  lemma CleanRecordTwice(f: Record)
    ensures CleanRecord(CleanRecord(f)) == CleanRecord(f)
  {
    CleanIsJson(Obj(f));
    CleanKeepsJson(Clean(Obj(f)));
  }

  /** A property read through JSON: gone when undefined, otherwise cleaned. */
  lemma CleanRecordAt(f: Record, k: string)
    ensures k in CleanRecord(f) <==> k in f && !f[k].Undefined?
    ensures k in CleanRecord(f) ==> CleanRecord(f)[k] == Clean(f[k])
  {
  }
}
