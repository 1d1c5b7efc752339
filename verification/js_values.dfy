/** The slice of JavaScript's value model the reporter touches: primitives,
    objects in a finite heap addressed by identity, and the plain-data tree
    that a JSON round trip produces. */
module JsValues {

  datatype Option<+T> = None | Some(value: T)

  /** A primitive JavaScript value. Numbers are restricted to integers. */
  datatype Prim = Undefined | Null | Bool(b: bool) | Num(n: int) | Str(s: string)

  /** Object identity: an index into the heap. */
  type Id = nat

  /** What a property holds: a primitive, or a reference to an object. */
  datatype Val = P(prim: Prim) | Ref(id: Id)

  /** One own string-keyed property of an object. */
  datatype Prop = Prop(key: string, value: Val, enumerable: bool)

  /** An object: its own properties in enumeration order, whether
      `Error.prototype` is on its prototype chain (`instanceof Error`), and
      the string that the coercion `"" + obj` yields for it. A JavaScript
      object never holds two own properties with one key. A node that does
      lies outside the modelled domain: the model's copy in `errorJSON` would
      keep both, where assigning `res[key]` keeps one. */
  datatype Node = Node(props: seq<Prop>, isError: bool, repr: string)

  predicate ValidVal(h: seq<Node>, v: Val)
  {
    v.Ref? ==> v.id < |h|
  }

  predicate ValidProps(h: seq<Node>, ps: seq<Prop>)
  {
    forall j :: 0 <= j < |ps| ==> ValidVal(h, ps[j].value)
  }

  /** Every reference stored in the heap points at an object of the heap:
      JavaScript has no dangling references. */
  predicate Closed(h: seq<Node>)
  {
    forall i :: 0 <= i < |h| ==> ValidProps(h, h[i].props)
  }

  type Heap = h: seq<Node> | Closed(h) witness []

  /** JavaScript truthiness (`x || y` picks `y` exactly when `x` is falsy). */
  predicate Truthy(v: Val)
  {
    match v
    case Ref(_) => true
    case P(p) =>
      match p
      case Undefined => false
      case Null => false
      case Bool(b) => b
      case Num(n) => n != 0
      case Str(s) => s != ""
  }

  /** Plain data as `JSON.parse` returns it: finite and acyclic by construction. */
  datatype Tree = Leaf(prim: Prim) | Obj(fields: seq<Field>)
  datatype Field = Field(key: string, tree: Tree)

  function FieldKeys(fs: seq<Field>): seq<string>
  {
    if fs == [] then [] else [fs[0].key] + FieldKeys(fs[1..])
  }

  /** Number of objects (as opposed to primitives) in a tree. */
  function ObjCount(t: Tree): nat
  {
    match t
    case Leaf(_) => 0
    case Obj(fs) => 1 + FieldsObjCount(fs)
  }

  function FieldsObjCount(fs: seq<Field>): nat
    decreases fs
  {
    if fs == [] then 0 else ObjCount(fs[0].tree) + FieldsObjCount(fs[1..])
  }

  predicate NoDup<T(==)>(s: seq<T>)
  {
    forall i, j :: 0 <= i < j < |s| ==> s[i] != s[j]
  }

  lemma SubsetCard<T>(a: set<T>, b: set<T>)
    requires a <= b
    ensures |a| <= |b|
  {
    assert b == a + (b - a);
  }

  /** The identities 0..n-1. */
  function Below(n: nat): (r: set<nat>)
    ensures |r| == n
    ensures forall k: nat :: k in r <==> k < n
  {
    if n == 0 then {} else Below(n - 1) + {n - 1}
  }

  /** A sequence without repetitions drawn from 0..n-1 has at most n elements. */
  lemma {:induction false} NoDupBounded(s: seq<nat>, n: nat)
    requires NoDup(s)
    requires forall i :: 0 <= i < |s| ==> s[i] < n
    ensures |s| <= n
  {
    var elems := set i | 0 <= i < |s| :: s[i];
    DistinctCard(s);
    SubsetCard(elems, Below(n));
  }

  lemma {:induction false} DistinctCard(s: seq<nat>)
    requires NoDup(s)
    ensures |set i | 0 <= i < |s| :: s[i]| == |s|
  {
    if s != [] {
      var t := s[..|s| - 1];
      assert NoDup(t);
      DistinctCard(t);
      var elemsT := set i | 0 <= i < |t| :: t[i];
      var elemsS := set i | 0 <= i < |s| :: s[i];
      assert s[|s| - 1] !in elemsT;
      assert elemsS == elemsT + {s[|s| - 1]};
    }
  }
}
