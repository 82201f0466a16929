/**
 * JavaScript values as the request builders see them: objects are ordered lists of
 * fields (the order of Object.keys), numbers are carried as their own JavaScript text.
 * The conversions the builders use are here: String(v) and `${v}`, truthiness,
 * JSON.stringify, URLSearchParams(o).toString(), and `{...o, k: v}`.
 */
module Values {
  import opened Wrappers
  import opened Text
  import opened External

  datatype Value =
    | Str(s: string)
    | Num(text: string)
    | Bool(b: bool)
    | Null
    | Rows(items: seq<Obj>)
    | Object(obj: Obj)

  datatype Obj = Obj(fields: seq<Field>)

  datatype Field = Field(key: string, value: Value)

  /** Object.keys(o), in order. */
  function Keys(o: Obj): (ks: seq<string>)
    ensures |ks| == |o.fields|
  {
    KeysOf(o.fields)
  }

  function KeysOf(fs: seq<Field>): (ks: seq<string>)
    ensures |ks| == |fs|
  {
    seq(|fs|, i requires 0 <= i < |fs| => fs[i].key)
  }

  lemma KeysOfCons(fs: seq<Field>)
    requires fs != []
    ensures KeysOf(fs) == [fs[0].key] + KeysOf(fs[1..])
  {
  }

  /** A JavaScript object never holds the same key twice. */
  predicate DistinctKeys(o: Obj) {
    forall i, j :: 0 <= i < j < |o.fields| ==> o.fields[i].key != o.fields[j].key
  }

  /** o[k], or None when o has no key k (first field with that key). */
  function Get(o: Obj, k: string): Option<Value> {
    Lookup(o.fields, k)
  }

  function Lookup(fs: seq<Field>, k: string): Option<Value> {
    if fs == [] then None
    else if fs[0].key == k then Some(fs[0].value)
    else Lookup(fs[1..], k)
  }

  /** o[k] is undefined exactly when k is not a key of o, and otherwise is the value of a field k of o. */
  lemma {:induction false} LookupFound(fs: seq<Field>, k: string)
    ensures Lookup(fs, k).None? <==> k !in KeysOf(fs)
    ensures Lookup(fs, k).Some? ==> Field(k, Lookup(fs, k).value) in fs
  {
    if fs != [] {
      KeysOfCons(fs);
      if fs[0].key != k {
        LookupFound(fs[1..], k);
        assert fs == [fs[0]] + fs[1..];
      }
    }
  }

  /** With distinct keys, o[k] is v exactly when the field k: v is in o. */
  lemma {:induction false} LookupDistinct(fs: seq<Field>, k: string, v: Value)
    requires forall i, j :: 0 <= i < j < |fs| ==> fs[i].key != fs[j].key
    ensures Lookup(fs, k) == Some(v) <==> Field(k, v) in fs
  {
    if fs != [] && fs[0].key != k {
      LookupDistinct(fs[1..], k, v);
    }
  }

  lemma KeysOfConcat(u: seq<Field>, v: seq<Field>)
    ensures KeysOf(u + v) == KeysOf(u) + KeysOf(v)
  {
  }

  /** Taking out the field at i takes its key out of the keys and the field out of the fields. */
  lemma KeysWithout(b: seq<Field>, i: nat)
    requires i < |b|
    ensures multiset(b[..i] + b[i + 1..]) == multiset(b) - multiset{b[i]}
    ensures multiset(KeysOf(b)) == multiset(KeysOf(b[..i] + b[i + 1..])) + multiset{b[i].key}
  {
    var u, v := b[..i], b[i + 1..];
    assert b == u + [b[i]] + v;
    assert multiset(b) == multiset(u) + multiset{b[i]} + multiset(v);
    KeysOfConcat(u + [b[i]], v);
    KeysOfConcat(u, [b[i]]);
    KeysOfConcat(u, v);
    var ku, kv := KeysOf(u), KeysOf(v);
    assert KeysOf([b[i]]) == [b[i].key];
    assert KeysOf(b) == ku + [b[i].key] + kv;
    assert multiset(KeysOf(b)) == multiset(ku) + multiset{b[i].key} + multiset(kv);
    assert multiset(KeysOf(u + v)) == multiset(ku) + multiset(kv);
  }

  lemma FieldIndex(b: seq<Field>, x: Field) returns (i: nat)
    requires x in multiset(b)
    ensures i < |b| && b[i] == x
  {
    assert x in b;
    i :| 0 <= i < |b| && b[i] == x;
  }

  /** Objects holding the same fields in another order have the same keys in another order. */
  lemma {:induction false} PermutedKeys(a: seq<Field>, b: seq<Field>)
    requires multiset(a) == multiset(b)
    ensures multiset(KeysOf(a)) == multiset(KeysOf(b))
    decreases |a|
  {
    if a == [] {
      assert |b| == |multiset(b)| == 0;
    } else {
      var x := a[0];
      var i := FieldIndex(b, x);
      var rest := b[..i] + b[i + 1..];
      KeysWithout(b, i);
      KeysOfTail(a);
      PermutedKeys(a[1..], rest);
    }
  }

  lemma KeysOfTail(a: seq<Field>)
    requires a != []
    ensures multiset(a[1..]) == multiset(a) - multiset{a[0]}
    ensures multiset(KeysOf(a)) == multiset(KeysOf(a[1..])) + multiset{a[0].key}
  {
    KeysOfCons(a);
    assert a == [a[0]] + a[1..];
  }

  /** Objects with distinct keys holding the same fields in another order map every key alike. */
  lemma PermutedLookup(a: seq<Field>, b: seq<Field>, k: string)
    requires multiset(a) == multiset(b)
    requires forall i, j :: 0 <= i < j < |a| ==> a[i].key != a[j].key
    requires forall i, j :: 0 <= i < j < |b| ==> b[i].key != b[j].key
    ensures Lookup(a, k) == Lookup(b, k)
  {
    var ra, rb := Lookup(a, k), Lookup(b, k);
    LookupFound(a, k);
    LookupFound(b, k);
    if ra.Some? {
      assert Field(k, ra.value) in multiset(b);
      LookupDistinct(b, k, ra.value);
    } else if rb.Some? {
      assert Field(k, rb.value) in multiset(a);
      LookupDistinct(a, k, rb.value);
    }
  }

  /** `{...o, k: v}`: an existing key keeps its place and takes the new value; a new key goes last. */
  function WithField(o: Obj, k: string, v: Value): Obj {
    Obj(Assign(o.fields, k, v))
  }

  /** After `{...o, k: v}`, k holds v, and the keys are o's with k appended when it is new. */
  lemma WithFieldSets(o: Obj, k: string, v: Value)
    ensures Get(WithField(o, k, v), k) == Some(v)
    ensures Keys(WithField(o, k, v)) == if k in Keys(o) then Keys(o) else Keys(o) + [k]
  {
    AssignLookup(o.fields, k, v, k);
    AssignKeys(o.fields, k, v);
  }

  /** `{...o, k: v}` leaves every other key's value as it was. */
  lemma WithFieldKeepsOthers(o: Obj, k: string, v: Value, other: string)
    requires other != k
    ensures Get(WithField(o, k, v), other) == Get(o, other)
  {
    AssignLookup(o.fields, k, v, other);
  }

  function Assign(fs: seq<Field>, k: string, v: Value): seq<Field> {
    if fs == [] then [Field(k, v)]
    else if fs[0].key == k then [Field(k, v)] + fs[1..]
    else [fs[0]] + Assign(fs[1..], k, v)
  }

  lemma {:induction false} AssignLookup(fs: seq<Field>, k: string, v: Value, other: string)
    ensures Lookup(Assign(fs, k, v), other) == if other == k then Some(v) else Lookup(fs, other)
  {
    if fs != [] && fs[0].key != k {
      AssignLookup(fs[1..], k, v, other);
    }
  }

  lemma {:induction false} AssignKeys(fs: seq<Field>, k: string, v: Value)
    ensures KeysOf(Assign(fs, k, v)) == if k in KeysOf(fs) then KeysOf(fs) else KeysOf(fs) + [k]
  {
    if fs == [] {
      assert KeysOf([Field(k, v)]) == [k];
    } else if fs[0].key != k {
      AssignKeys(fs[1..], k, v);
      KeysOfCons(fs);
      KeysOfCons(Assign(fs, k, v));
      assert Assign(fs, k, v)[1..] == Assign(fs[1..], k, v);
    } else {
      KeysOfCons(fs);
      KeysOfCons(Assign(fs, k, v));
    }
  }

  /** `delete o[k]`: every field with key k removed, the others kept in order. */
  function WithoutField(o: Obj, k: string): (r: Obj)
    ensures k !in Keys(r)
  {
    Obj(Remove(o.fields, k))
  }

  /** `delete o[k]` leaves every other key's value as it was. */
  lemma WithoutFieldKeepsOthers(o: Obj, k: string, other: string)
    requires other != k
    ensures Get(WithoutField(o, k), other) == Get(o, other)
  {
    RemoveLookup(o.fields, k, other);
  }

  function Remove(fs: seq<Field>, k: string): (r: seq<Field>)
    ensures k !in KeysOf(r)
  {
    if fs == [] then []
    else if fs[0].key == k then Remove(fs[1..], k)
    else
      var t := Remove(fs[1..], k);
      KeysOfCons([fs[0]] + t);
      assert ([fs[0]] + t)[1..] == t;
      [fs[0]] + t
  }

  lemma {:induction false} RemoveLookup(fs: seq<Field>, k: string, other: string)
    requires other != k
    ensures Lookup(Remove(fs, k), other) == Lookup(fs, other)
  {
    if fs != [] {
      RemoveLookup(fs[1..], k, other);
      if fs[0].key != k {
        assert Remove(fs, k)[1..] == Remove(fs[1..], k);
      }
    }
  }

  /** Adding a key an object does not have and deleting it again gives back the object. */
  lemma {:induction false} RemoveAssign(fs: seq<Field>, k: string, v: Value)
    requires k !in KeysOf(fs)
    ensures Remove(Assign(fs, k, v), k) == fs
  {
    if fs != [] {
      KeysOfCons(fs);
      RemoveAssign(fs[1..], k, v);
    }
  }

  lemma WithoutWithField(o: Obj, k: string, v: Value)
    requires k !in Keys(o)
    ensures WithoutField(WithField(o, k, v), k) == o
  {
    RemoveAssign(o.fields, k, v);
  }

  /** String(v), which is also what a template literal `${v}` and URLSearchParams write. */
  function ToText(v: Value): string {
    match v
    case Str(s) => s
    case Num(t) => t
    case Bool(b) => if b then "true" else "false"
    case Null => "null"
    case Rows(items) => Join(",", seq(|items|, _ => "[object Object]"))
    case Object(_) => "[object Object]"
  }

  /** JavaScript truthiness: "", 0, NaN, false and null are falsy. */
  predicate Truthy(v: Value) {
    match v
    case Str(s) => s != ""
    case Num(t) => t != "0" && t != "NaN"
    case Bool(b) => b
    case Null => false
    case Rows(_) => true
    case Object(_) => true
  }

  /** A value that may be absent (undefined) is truthy only when present and truthy. */
  predicate IsTruthy(v: Option<Value>) {
    v.Some? && Truthy(v.value)
  }

  /** NaN, Infinity and -Infinity, the numbers JSON cannot represent. */
  predicate NonFinite(t: string) {
    t == "NaN" || t == "Infinity" || t == "-Infinity"
  }

  /** JSON.stringify(v), with the object keys in Object.keys order; a non-finite number becomes null. */
  function Json(lib: Lib, v: Value): string
    decreases v, 1
  {
    match v
    case Str(s) => lib.jsonString(s)
    case Num(t) => if NonFinite(t) then "null" else t
    case Bool(b) => if b then "true" else "false"
    case Null => "null"
    case Rows(items) => "[" + JsonItems(lib, v, 0) + "]"
    case Object(o) => JsonObj(lib, o)
  }

  function JsonItems(lib: Lib, v: Value, i: nat): string
    requires v.Rows? && i <= |v.items|
    decreases v, 0, |v.items| - i
  {
    if i == |v.items| then ""
    else (if i == 0 then "" else ",") + JsonObj(lib, v.items[i]) + JsonItems(lib, v, i + 1)
  }

  function JsonObj(lib: Lib, o: Obj): (s: string)
    ensures |s| >= 2 && s[0] == '{' && s[|s| - 1] == '}'
    decreases o, 1
  {
    "{" + JsonFields(lib, o, 0) + "}"
  }

  function JsonFields(lib: Lib, o: Obj, i: nat): string
    requires i <= |o.fields|
    decreases o, 0, |o.fields| - i
  {
    if i == |o.fields| then ""
    else
      (if i == 0 then "" else ",")
      + lib.jsonString(o.fields[i].key) + ":" + Json(lib, o.fields[i].value)
      + JsonFields(lib, o, i + 1)
  }

  /** A number field: JSON writes the number's text when it is finite and null for NaN, Infinity or -Infinity. */
  lemma JsonNumberField(lib: Lib, k: string, t: string)
    ensures JsonObj(lib, Obj([Field(k, Num(t))]))
         == "{" + lib.jsonString(k) + ":" + (if NonFinite(t) then "null" else t) + "}"
  {
    var o := Obj([Field(k, Num(t))]);
    assert JsonFields(lib, o, 1) == "";
    assert JsonFields(lib, o, 0) == lib.jsonString(k) + ":" + Json(lib, Num(t)) + "";
  }

  /** One `name=value` pair of a URL-encoded form. */
  function FormPair(lib: Lib, f: Field): string {
    lib.formEscape(f.key) + "=" + lib.formEscape(ToText(f.value))
  }

  /** new URLSearchParams(o).toString(): the pairs in key order, joined by '&'. */
  function Form(lib: Lib, o: Obj): string {
    Join("&", seq(|o.fields|, i requires 0 <= i < |o.fields| => FormPair(lib, o.fields[i])))
  }
}
