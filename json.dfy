/** JSON values as they travel between the application, the broker and the
    hosted database, and the database's tree of locations: reading a child
    path, writing a value at a path, merging fields (PATCH) and the shallow
    listing of a node's keys. */
module Json {
  import opened Text

  datatype Json =
    | JNull
    | JBool(b: bool)
    | JNum(n: int)
    | JStr(s: string)
    | JObj(fields: map<string, Json>)

  /** JavaScript truthiness of a parsed value. */
  predicate TruthyValue(j: Json) {
    match j
    case JNull => false
    case JBool(b) => b
    case JNum(n) => n != 0
    case JStr(s) => s != ""
    case JObj(_) => true
  }

  /** `payload.k !== undefined`: the value is an object that has key `k`. */
  predicate Has(j: Json, k: string) {
    j.JObj? && k in j.fields
  }

  function Fields(j: Json): map<string, Json> {
    if j.JObj? then j.fields else map[]
  }

  /** The child at key `k`; a missing child reads as null, as the database reports it. */
  function Child(j: Json, k: string): Json {
    if j.JObj? && k in j.fields then j.fields[k] else JNull
  }

  /** The value at a path of keys below `j`. */
  function Get(j: Json, path: seq<string>): Json
    decreases |path|
  {
    if path == [] then j else Get(Child(j, path[0]), path[1..])
  }

  /** `j` with the value at `path` replaced by `v`; missing nodes on the way
      are created as objects. */
  function SetAt(j: Json, path: seq<string>, v: Json): (r: Json)
    ensures Get(r, path) == v
    decreases |path|
  {
    if path == [] then v
    else JObj(Fields(j)[path[0] := SetAt(Child(j, path[0]), path[1..], v)])
  }

  /** The database's PATCH: the fields of `f` are written into the node at
      `path`; its other children are kept. */
  function Patch(j: Json, path: seq<string>, f: map<string, Json>): Json {
    SetAt(j, path, JObj(Fields(Get(j, path)) + f))
  }

  /** The database's shallow read: an object's children are replaced by `true`. */
  function Shallow(j: Json): (r: Json)
    ensures j.JObj? <==> r.JObj?
    ensures j.JObj? ==> r.fields.Keys == j.fields.Keys
  {
    if j.JObj? then JObj(map k | k in j.fields :: JBool(true)) else j
  }

  /** Reading a concatenated path reads the first part, then the second below it. */
  lemma {:induction false} GetAppend(j: Json, p: seq<string>, q: seq<string>)
    ensures Get(j, p + q) == Get(Get(j, p), q)
    decreases |p|
  {
    if p != [] {
      assert (p + q)[1..] == p[1..] + q;
      GetAppend(Child(j, p[0]), p[1..], q);
    } else {
      assert p + q == q;
    }
  }

  /** After a PATCH, each written field reads back as written. */
  lemma PatchThenGet(j: Json, path: seq<string>, f: map<string, Json>, k: string)
    requires k in f
    ensures Get(Patch(j, path, f), path + [k]) == f[k]
  {
    GetAppend(Patch(j, path, f), path, [k]);
  }

  /** A PATCH keeps every child of the node that it does not name. */
  lemma PatchKeeps(j: Json, path: seq<string>, f: map<string, Json>, k: string)
    requires k !in f
    ensures Get(Patch(j, path, f), path + [k]) == Get(j, path + [k])
  {
    GetAppend(Patch(j, path, f), path, [k]);
    GetAppend(j, path, [k]);
  }

  /** Writing at a path leaves every location that is not below it and not
      above it unchanged (the two paths part at some index). */
  lemma {:induction false} SetAtElsewhere(j: Json, p: seq<string>, v: Json, q: seq<string>, i: nat)
    requires i < |p| && i < |q| && p[..i] == q[..i] && p[i] != q[i]
    ensures Get(SetAt(j, p, v), q) == Get(j, q)
    decreases i
  {
    if i > 0 {
      assert p[0] == q[0] by { assert p[..i][0] == q[..i][0]; }
      assert p[1..][..i - 1] == p[..i][1..];
      assert q[1..][..i - 1] == q[..i][1..];
      SetAtElsewhere(Child(j, p[0]), p[1..], v, q[1..], i - 1);
    }
  }

  /** A JavaScript number: finite (integers only here) or NaN. */
  datatype Num = Finite(v: int) | NaN

  /** `Number(value)` for a value read from the database. */
  function ToNumber(j: Json): (r: Num)
    ensures j.JNum? ==> r == Finite(j.n)
    ensures j.JObj? ==> r == NaN
    ensures j.JStr? ==> (r.Finite? <==> forall i :: 0 <= i < |j.s| ==> IsDigit(j.s[i]))
    ensures j.JStr? && r.Finite? ==> r.v >= 0
    ensures j == JStr("") ==> r == Finite(0)
  {
    match j
    case JNull => Finite(0)
    case JBool(b) => Finite(if b then 1 else 0)
    case JNum(n) => Finite(n)
    case JStr(s) =>
      if forall i :: 0 <= i < |s| ==> IsDigit(s[i]) then Finite(DecimalValue(s)) else NaN
    case JObj(_) => NaN
  }

  /** `Number` reads back a number stored in its decimal rendering. */
  lemma ToNumberOfRendered(n: nat)
    ensures ToNumber(JStr(NatToString(n))) == Finite(n)
  {
    DecimalOfNatToString(n);
  }
}
