/** The result sanitizer: `errorJSON`, `cleanCycles` and `clean` of the
    reporter, over a finite heap of JavaScript objects. */
module Sanitizer {
  import opened JsValues

  /** What `"" + obj` yields for a plain object. */
  const ObjectRepr := "[object Object]"

  // ---------------------------------------------------------------------------
  // Property lists
  // ---------------------------------------------------------------------------

  function PropKeys(ps: seq<Prop>): seq<string>
  {
    if ps == [] then [] else [ps[0].key] + PropKeys(ps[1..])
  }

  /** `obj[k]` for an own property: the value of the first property named k. */
  function Lookup(ps: seq<Prop>, k: string): Option<Val>
  {
    if ps == [] then None
    else if ps[0].key == k then Some(ps[0].value)
    else Lookup(ps[1..], k)
  }

  /** `JSON.stringify` visits the own enumerable keys of an object and leaves
      out a property whose value is `undefined`. */
  predicate Serialized(p: Prop)
  {
    p.enumerable && p.value != P(Undefined)
  }

  /** The keys `JSON.stringify` writes for an object, in order. */
  function SerializedKeys(ps: seq<Prop>): seq<string>
  {
    if ps == [] then []
    else (if Serialized(ps[0]) then [ps[0].key] else []) + SerializedKeys(ps[1..])
  }

  /** The keys of the own properties, enumerable or not, whose value is not
      `undefined`, in order. */
  function DefinedKeys(ps: seq<Prop>): seq<string>
  {
    if ps == [] then []
    else (if ps[0].value != P(Undefined) then [ps[0].key] else []) + DefinedKeys(ps[1..])
  }

  // ---------------------------------------------------------------------------
  // errorJSON (index.js:171-177)
  // ---------------------------------------------------------------------------

  /** The loop of `errorJSON`: one plain assignment `res[key] = err[key]` per
      own property name, in the order `Object.getOwnPropertyNames` lists them. */
  function CopyOwnProps(ps: seq<Prop>): (r: seq<Prop>)
    ensures |r| == |ps| && PropKeys(r) == PropKeys(ps)
    ensures forall i :: 0 <= i < |r| ==> r[i].value == ps[i].value && r[i].enumerable
    ensures forall k :: Lookup(r, k) == Lookup(ps, k)
    ensures SerializedKeys(r) == DefinedKeys(ps)
  {
    if ps == [] then []
    else [Prop(ps[0].key, ps[0].value, true)] + CopyOwnProps(ps[1..])
  }

  /** `errorJSON(err)`: a fresh plain object whose keys are exactly the own
      property names of `err` (enumerable or not) and whose values are those
      of `err`, unchanged. */
  function ErrorJSON(err: Node): (r: Node)
    ensures |r.props| == |err.props| && PropKeys(r.props) == PropKeys(err.props)
    ensures forall k :: Lookup(r.props, k) == Lookup(err.props, k)
    ensures forall i :: 0 <= i < |r.props| ==> r.props[i].value == err.props[i].value
    ensures forall p :: p in r.props ==> p.enumerable
    ensures !r.isError
  {
    Node(CopyOwnProps(err.props), false, ObjectRepr)
  }

  // ---------------------------------------------------------------------------
  // cleanCycles (index.js:147-162)
  // ---------------------------------------------------------------------------

  function Elems(cache: seq<Id>): set<Id>
  {
    set x | x in cache
  }

  /** The identities of the heap that the cache does not hold yet. */
  function Unvisited(h: Heap, cache: seq<Id>): set<Id>
  {
    Below(|h|) - Elems(cache)
  }

  lemma UnvisitedShrinks(h: Heap, c1: seq<Id>, c2: seq<Id>)
    requires c1 <= c2
    ensures |Unvisited(h, c2)| <= |Unvisited(h, c1)|
  {
    assert Elems(c1) <= Elems(c2);
    SubsetCard(Unvisited(h, c2), Unvisited(h, c1));
  }

  /** Pushing an identity the cache lacks keeps it free of repetitions and
      leaves one identity fewer unvisited. */
  lemma Push(h: Heap, cache: seq<Id>, id: Id)
    requires id < |h| && id !in cache
    ensures NoDup(cache) ==> NoDup(cache + [id])
    ensures |Unvisited(h, cache + [id])| < |Unvisited(h, cache)|
  {
    assert Elems(cache + [id]) == Elems(cache) + {id};
    assert Unvisited(h, cache + [id]) == Unvisited(h, cache) - {id};
  }

  datatype Walked = Walked(tree: Tree, cache: seq<Id>)
  datatype PropsWalked = PropsWalked(fields: seq<Field>, cache: seq<Id>)

  /** The replacer of `cleanCycles` applied to `v`, followed by the descent of
      `JSON.stringify` into whatever the replacer returned. `cache` is the
      traversal-global list of objects met so far: an object already in it
      becomes its string coercion; any other object is pushed and expanded. */
  function Walk(h: Heap, v: Val, cache: seq<Id>): (r: Walked)
    requires ValidVal(h, v)
    ensures cache <= r.cache
    ensures forall i :: |cache| <= i < |r.cache| ==> r.cache[i] < |h|
    ensures NoDup(cache) ==> NoDup(r.cache)
    ensures ObjCount(r.tree) == |r.cache| - |cache|
    ensures v.P? ==> r == Walked(Leaf(v.prim), cache)
    ensures v.Ref? ==> v.id in r.cache
    ensures v.Ref? && v.id in cache ==> r == Walked(Leaf(Str(h[v.id].repr)), cache)
    ensures v.Ref? && v.id !in cache ==>
              && |cache| < |r.cache| && r.cache[|cache|] == v.id
              && r.tree.Obj? && FieldKeys(r.tree.fields) == SerializedKeys(h[v.id].props)
    decreases |Unvisited(h, cache)|, 0
  {
    match v
    case P(p) => Walked(Leaf(p), cache)
    case Ref(id) =>
      if id in cache then Walked(Leaf(Str(h[id].repr)), cache)
      else
        Push(h, cache, id);
        var w := WalkProps(h, h[id].props, cache + [id]);
        assert (cache + [id])[|cache|] == id;
        Walked(Obj(w.fields), w.cache)
  }

  /** `JSON.stringify`'s loop over the properties of one object. */
  function WalkProps(h: Heap, ps: seq<Prop>, cache: seq<Id>): (r: PropsWalked)
    requires ValidProps(h, ps)
    ensures cache <= r.cache
    ensures forall i :: |cache| <= i < |r.cache| ==> r.cache[i] < |h|
    ensures NoDup(cache) ==> NoDup(r.cache)
    ensures FieldsObjCount(r.fields) == |r.cache| - |cache|
    ensures FieldKeys(r.fields) == SerializedKeys(ps)
    decreases |Unvisited(h, cache)|, 1, |ps|
  {
    if ps == [] then PropsWalked([], cache)
    else if !Serialized(ps[0]) then WalkProps(h, ps[1..], cache)
    else
      var w := Walk(h, ps[0].value, cache);
      UnvisitedShrinks(h, cache, w.cache);
      var rest := WalkProps(h, ps[1..], w.cache);
      var fields := [Field(ps[0].key, w.tree)] + rest.fields;
      assert fields[1..] == rest.fields;
      PropsWalked(fields, rest.cache)
  }

  /** `cleanCycles(obj)`: `JSON.parse(JSON.stringify(obj, replacer))`. The
      replacer is first called on the root itself, so the root is the first
      object pushed into the cache. `None` is the `SyntaxError` that
      `JSON.parse` throws when `JSON.stringify` returned `undefined`. */
  function CleanCycles(h: Heap, root: Val): (r: Option<Tree>)
    requires ValidVal(h, root)
    ensures r.None? <==> root == P(Undefined)
    ensures r.Some? ==> ObjCount(r.value) <= |h|
    ensures root.P? && r.Some? ==> r.value == Leaf(root.prim)
    ensures root.Ref? ==> r.Some? && r.value.Obj? && FieldKeys(r.value.fields) == SerializedKeys(h[root.id].props)
  {
    if root == P(Undefined) then None
    else
      var w := Walk(h, root, []);
      NoDupBounded(w.cache, |h|);
      Some(w.tree)
  }

  // ---------------------------------------------------------------------------
  // Reference: the plain structural copy
  // ---------------------------------------------------------------------------

  datatype Unfolded = Unfolded(tree: Tree, ids: seq<Id>)
  datatype PropsUnfolded = PropsUnfolded(fields: seq<Field>, ids: seq<Id>)

  /** The copy `JSON.parse(JSON.stringify(v))` would make without a replacer,
      with the identities of the objects it expands in visiting order. `None`
      when the copy does not close within `fuel` levels of nesting, as is the
      case for every cycle. */
  function Unfold(h: Heap, v: Val, fuel: nat): Option<Unfolded>
    requires ValidVal(h, v)
    decreases fuel, 0
  {
    match v
    case P(p) => Some(Unfolded(Leaf(p), []))
    case Ref(id) =>
      if fuel == 0 then None
      else
        match UnfoldProps(h, h[id].props, fuel - 1)
        case None => None
        case Some(u) => Some(Unfolded(Obj(u.fields), [id] + u.ids))
  }

  function UnfoldProps(h: Heap, ps: seq<Prop>, fuel: nat): Option<PropsUnfolded>
    requires ValidProps(h, ps)
    decreases fuel, 1, |ps|
  {
    if ps == [] then Some(PropsUnfolded([], []))
    else if !Serialized(ps[0]) then UnfoldProps(h, ps[1..], fuel)
    else
      match Unfold(h, ps[0].value, fuel)
      case None => None
      case Some(u) =>
        match UnfoldProps(h, ps[1..], fuel)
        case None => None
        case Some(rest) => Some(PropsUnfolded([Field(ps[0].key, u.tree)] + rest.fields, u.ids + rest.ids))
  }

  lemma NoDupPrefix(a: seq<Id>, b: seq<Id>)
    requires NoDup(a + b)
    ensures NoDup(a)
  {
    assert forall i :: 0 <= i < |a| ==> (a + b)[i] == a[i];
  }

  /** When no object is met twice (counting those already in the cache), the
      walk is the plain structural copy and pushes exactly the objects it
      expands. */
  lemma {:induction false} WalkCopiesUnshared(h: Heap, v: Val, cache: seq<Id>, fuel: nat)
    requires ValidVal(h, v)
    requires Unfold(h, v, fuel).Some?
    requires NoDup(cache + Unfold(h, v, fuel).value.ids)
    ensures Walk(h, v, cache) == Walked(Unfold(h, v, fuel).value.tree, cache + Unfold(h, v, fuel).value.ids)
    decreases fuel, 0
  {
    match v
    case P(p) =>
    case Ref(id) =>
      var u := UnfoldProps(h, h[id].props, fuel - 1).value;
      assert Unfold(h, v, fuel).value == Unfolded(Obj(u.fields), [id] + u.ids);
      var all := cache + ([id] + u.ids);
      assert all == (cache + [id]) + u.ids;
      forall k | 0 <= k < |cache|
        ensures cache[k] != id
      {
        assert all[k] == cache[k] && all[|cache|] == id;
      }
      WalkPropsCopiesUnshared(h, h[id].props, cache + [id], fuel - 1);
  }

  lemma {:induction false} WalkPropsCopiesUnshared(h: Heap, ps: seq<Prop>, cache: seq<Id>, fuel: nat)
    requires ValidProps(h, ps)
    requires UnfoldProps(h, ps, fuel).Some?
    requires NoDup(cache + UnfoldProps(h, ps, fuel).value.ids)
    ensures WalkProps(h, ps, cache) == PropsWalked(UnfoldProps(h, ps, fuel).value.fields, cache + UnfoldProps(h, ps, fuel).value.ids)
    decreases fuel, 1, |ps|
  {
    if ps == [] {
    } else if !Serialized(ps[0]) {
      WalkPropsCopiesUnshared(h, ps[1..], cache, fuel);
    } else {
      var u := Unfold(h, ps[0].value, fuel).value;
      var rest := UnfoldProps(h, ps[1..], fuel).value;
      assert cache + (u.ids + rest.ids) == (cache + u.ids) + rest.ids;
      NoDupPrefix(cache + u.ids, rest.ids);
      WalkCopiesUnshared(h, ps[0].value, cache, fuel);
      WalkPropsCopiesUnshared(h, ps[1..], cache + u.ids, fuel);
    }
  }

  /** A root from which no object identity is reachable twice is copied
      structurally unchanged. */
  lemma CleanCyclesCopiesUnshared(h: Heap, root: Val, fuel: nat)
    requires ValidVal(h, root) && root != P(Undefined)
    requires Unfold(h, root, fuel).Some?
    requires NoDup(Unfold(h, root, fuel).value.ids)
    ensures CleanCycles(h, root) == Some(Unfold(h, root, fuel).value.tree)
  {
    assert [] + Unfold(h, root, fuel).value.ids == Unfold(h, root, fuel).value.ids;
    WalkCopiesUnshared(h, root, [], fuel);
  }

  /** The cache after the walk has passed the first property. */
  function NextCache(h: Heap, ps: seq<Prop>, cache: seq<Id>): seq<Id>
    requires ps != [] && ValidProps(h, ps)
  {
    if Serialized(ps[0]) then Walk(h, ps[0].value, cache).cache else cache
  }

  /** Property `j` of `ps`, walked from `cache`, is written as the string
      form of object `x`, at output position `|SerializedKeys(ps[..j])|`:
      the number of properties written before it. */
  ghost predicate CutAt(h: Heap, ps: seq<Prop>, cache: seq<Id>, x: Id, j: nat)
    requires ValidProps(h, ps) && j < |ps| && x < |h|
  {
    var w := WalkProps(h, ps, cache);
    && |SerializedKeys(ps[..j])| < |w.fields|
    && w.fields[|SerializedKeys(ps[..j])|] == Field(ps[j].key, Leaf(Str(h[x].repr)))
  }

  /** One step of the walk over a property list: the cache only grows past
      the head, and a cut of property `j` in the tail is a cut of it in the
      whole list, one position further when the head is written. */
  lemma PropsStep(h: Heap, ps: seq<Prop>, cache: seq<Id>, x: Id, j: nat)
    requires ValidProps(h, ps) && 0 < j < |ps| && x < |h|
    ensures cache <= NextCache(h, ps, cache)
    ensures CutAt(h, ps[1..], NextCache(h, ps, cache), x, j - 1) ==> CutAt(h, ps, cache, x, j)
  {
    assert ps[..j][1..] == ps[1..][..j - 1];
  }

  /** Once an object is in the cache, every later serialized property that
      refers to it is written as the object's string form. */
  lemma {:induction false} CachedRefCut(h: Heap, ps: seq<Prop>, cache: seq<Id>, x: Id, j: nat)
    requires ValidProps(h, ps) && x in cache && x < |h|
    requires j < |ps| && Serialized(ps[j]) && ps[j].value == Ref(x)
    ensures CutAt(h, ps, cache, x, j)
    decreases |ps|
  {
    if j == 0 {
      assert ps[..0] == [];
    } else {
      PropsStep(h, ps, cache, x, j);
      var c := NextCache(h, ps, cache);
      assert x in c by {
        var k :| 0 <= k < |cache| && cache[k] == x;
        assert c[k] == x;
      }
      CachedRefCut(h, ps[1..], c, x, j - 1);
    }
  }

  /** Two sibling properties referring to one object, at any positions
      `i < j`: the later one becomes the object's string form, whether or
      not it closes a cycle. */
  lemma {:induction false} SiblingRepeatReplaced(h: Heap, ps: seq<Prop>, cache: seq<Id>, x: Id, i: nat, j: nat)
    requires ValidProps(h, ps) && x < |h|
    requires i < j < |ps| && Serialized(ps[i]) && Serialized(ps[j])
    requires ps[i].value == Ref(x) && ps[j].value == Ref(x)
    ensures CutAt(h, ps, cache, x, j)
    decreases |ps|
  {
    PropsStep(h, ps, cache, x, j);
    var c := NextCache(h, ps, cache);
    if i == 0 {
      CachedRefCut(h, ps[1..], c, x, j - 1);
    } else {
      SiblingRepeatReplaced(h, ps[1..], c, x, i - 1, j - 1);
    }
  }

  /** The replacer is called on the root before anything else, so the root
      is in the cache from the start: a serialized property of the root that
      refers back to the root is cut at depth one, to the root's string
      form. */
  lemma RootSelfReferenceCut(h: Heap, x: Id, j: nat)
    requires x < |h| && j < |h[x].props|
    requires Serialized(h[x].props[j]) && h[x].props[j].value == Ref(x)
    ensures var r := CleanCycles(h, Ref(x));
            && r.Some? && r.value.Obj?
            && |SerializedKeys(h[x].props[..j])| < |r.value.fields|
            && r.value.fields[|SerializedKeys(h[x].props[..j])|]
               == Field(h[x].props[j].key, Leaf(Str(h[x].repr)))
  {
    assert [] + [x] == [x];
    CachedRefCut(h, h[x].props, [x], x, j);
  }

  // ---------------------------------------------------------------------------
  // clean (index.js:123-138)
  // ---------------------------------------------------------------------------

  datatype Speed = Fast | Medium | Slow

  /** A Mocha test handle as `clean` reads it. `fullTitle` and `currentRetry`
      are the values the handle's methods of those names return; `err` lives
      in `heap`. */
  datatype TestHandle = TestHandle(
    title: string,
    fullTitle: string,
    file: Option<string>,
    duration: Option<nat>,
    currentRetry: nat,
    speed: Option<Speed>,
    heap: Heap,
    err: Val)

  type Test = t: TestHandle | ValidVal(t.heap, t.err)
    witness TestHandle("", "", None, None, 0, None, [], P(Undefined))

  /** The plain record `clean` returns: exactly these seven fields. */
  datatype TestRecord = TestRecord(
    title: string,
    fullTitle: string,
    file: Option<string>,
    duration: Option<nat>,
    currentRetry: nat,
    speed: Option<Speed>,
    err: Tree)

  predicate IsErrorObject(h: Heap, v: Val)
  {
    v.Ref? && v.id < |h| && h[v.id].isError
  }

  /** A new object allocated at identity `|h|`. */
  function Alloc(h: Heap, n: Node): (r: Heap)
    requires ValidProps(h, n.props)
    ensures r == h + [n]
  {
    var r := h + [n];
    assert forall i :: 0 <= i < |h| ==> r[i] == h[i];
    r
  }

  /** The heap and value `clean` hands to `cleanCycles`: `test.err || {}`,
      flattened by `errorJSON` when it is an `Error`. */
  function ErrorToClean(t: Test): (r: (Heap, Val))
    ensures ValidVal(r.0, r.1) && r.1 != P(Undefined)
  {
    if !Truthy(t.err) then (Alloc(t.heap, Node([], false, ObjectRepr)), Ref(|t.heap|))
    else if IsErrorObject(t.heap, t.err) then
      var copy := ErrorJSON(t.heap[t.err.id]);
      assert ValidProps(t.heap, copy.props);
      (Alloc(t.heap, copy), Ref(|t.heap|))
    else (t.heap, t.err)
  }

  /** `clean(test)`: the seven reported fields, read off the handle, with the
      error sanitized. */
  function Clean(t: Test): (r: TestRecord)
    ensures r.title == t.title && r.fullTitle == t.fullTitle && r.file == t.file
    ensures r.duration == t.duration && r.currentRetry == t.currentRetry && r.speed == t.speed
    ensures !Truthy(t.err) ==> r.err == Obj([])
    ensures Truthy(t.err) && !IsErrorObject(t.heap, t.err) ==> CleanCycles(t.heap, t.err) == Some(r.err)
    ensures IsErrorObject(t.heap, t.err) ==>
              r.err.Obj? && FieldKeys(r.err.fields) == DefinedKeys(t.heap[t.err.id].props)
    ensures IsErrorObject(t.heap, t.err) ==>
              && ValidProps(t.heap, ErrorJSON(t.heap[t.err.id]).props)
              && CleanCycles(Alloc(t.heap, ErrorJSON(t.heap[t.err.id])), Ref(|t.heap|)) == Some(r.err)
  {
    var (h, root) := ErrorToClean(t);
    TestRecord(t.title, t.fullTitle, t.file, t.duration, t.currentRetry, t.speed,
               CleanCycles(h, root).value)
  }

  predicate AllPrimitive(ps: seq<Prop>)
  {
    forall i :: 0 <= i < |ps| ==> ps[i].value.P?
  }

  /** What `JSON.stringify` writes for properties holding primitives only:
      each serialized (key, value) pair, in order. */
  function PrimFields(ps: seq<Prop>): seq<Field>
    requires AllPrimitive(ps)
  {
    if ps == [] then []
    else (if Serialized(ps[0]) then [Field(ps[0].key, Leaf(ps[0].value.prim))] else [])
         + PrimFields(ps[1..])
  }

  /** The own (key, value) pairs whose value is not `undefined`, enumerable
      or not, in order. */
  function DefinedFields(ps: seq<Prop>): seq<Field>
    requires AllPrimitive(ps)
  {
    if ps == [] then []
    else (if ps[0].value != P(Undefined) then [Field(ps[0].key, Leaf(ps[0].value.prim))] else [])
         + DefinedFields(ps[1..])
  }

  /** Over primitive-valued properties the walk pushes nothing and writes
      every serialized pair unchanged. */
  lemma {:induction false} PrimPropsWalk(h: Heap, ps: seq<Prop>, cache: seq<Id>)
    requires ValidProps(h, ps) && AllPrimitive(ps)
    ensures WalkProps(h, ps, cache) == PropsWalked(PrimFields(ps), cache)
    decreases |ps|
  {
    if ps != [] {
      assert AllPrimitive(ps[1..]) by {
        forall i | 0 <= i < |ps[1..]| ensures ps[1..][i].value.P? { assert ps[1..][i] == ps[i + 1]; }
      }
      PrimPropsWalk(h, ps[1..], cache);
    }
  }

  /** The `errorJSON` copy of primitive-valued properties serializes to the
      original's defined pairs, non-enumerable ones included. */
  lemma {:induction false} CopyPrimFields(ps: seq<Prop>)
    requires AllPrimitive(ps)
    ensures AllPrimitive(CopyOwnProps(ps)) && PrimFields(CopyOwnProps(ps)) == DefinedFields(ps)
    decreases |ps|
  {
    if ps != [] {
      assert AllPrimitive(ps[1..]) by {
        forall i | 0 <= i < |ps[1..]| ensures ps[1..][i].value.P? { assert ps[1..][i] == ps[i + 1]; }
      }
      CopyPrimFields(ps[1..]);
      assert CopyOwnProps(ps)[1..] == CopyOwnProps(ps[1..]);
    }
  }

  /** An `Error` whose own values are all primitives is cleaned to exactly
      its defined (key, value) pairs in order: `message` and `stack` come
      through with their values although they are not enumerable. */
  lemma ErrorPrimitivesKept(t: Test)
    requires IsErrorObject(t.heap, t.err) && AllPrimitive(t.heap[t.err.id].props)
    ensures Clean(t).err == Obj(DefinedFields(t.heap[t.err.id].props))
  {
    var ps := t.heap[t.err.id].props;
    var copy := ErrorJSON(t.heap[t.err.id]);
    var h := Alloc(t.heap, copy);
    CopyPrimFields(ps);
    assert h[|t.heap|] == copy;
    PrimPropsWalk(h, copy.props, [|t.heap|]);
    assert [] + [|t.heap|] == [|t.heap|];
    assert Walk(h, Ref(|t.heap|), []) == Walked(Obj(PrimFields(copy.props)), [|t.heap|]);
  }

  // ---------------------------------------------------------------------------
  // Worked heaps
  // ---------------------------------------------------------------------------

  /** A diamond: `{a: o, b: o}` with `o = {}`. No cycle, yet `b` is replaced. */
  lemma DiamondIsFlattened()
    ensures var h: Heap := [Node([Prop("a", Ref(1), true), Prop("b", Ref(1), true)], false, ObjectRepr),
                             Node([], false, ObjectRepr)];
            CleanCycles(h, Ref(0)) == Some(Obj([Field("a", Obj([])), Field("b", Leaf(Str(ObjectRepr)))]))
  {
    var h: Heap := [Node([Prop("a", Ref(1), true), Prop("b", Ref(1), true)], false, ObjectRepr),
                    Node([], false, ObjectRepr)];
    var ps := h[0].props;
    var b := Field("b", Leaf(Str(ObjectRepr)));
    assert WalkProps(h, [], [0, 1]) == PropsWalked([], [0, 1]);
    assert Walk(h, Ref(1), [0]) == Walked(Obj([]), [0, 1]);
    assert Walk(h, Ref(1), [0, 1]) == Walked(Leaf(Str(ObjectRepr)), [0, 1]);
    assert ps[1..][1..] == [];
    assert WalkProps(h, ps[1..], [0, 1]) == PropsWalked([b], [0, 1]);
    assert WalkProps(h, ps, [0]) == PropsWalked([Field("a", Obj([])), b], [0, 1]);
    assert [] + [0] == [0];
    assert Walk(h, Ref(0), []) == Walked(Obj([Field("a", Obj([])), b]), [0, 1]);
  }

  /** An `Error` whose `cause` is itself (`err.cause = err`); `message` and
      `stack` are own but not enumerable, as for every `Error`. The property
      order is this heap's own choice: V8 lists `stack` before `message`, and
      the walk would then emit the two fields in that order instead. */
  const SelfCaused := Node([Prop("message", P(Str("boom")), false),
                            Prop("stack", P(Str("Error: boom")), false),
                            Prop("cause", Ref(0), true)], true, "Error: boom")

  /** What `errorJSON` makes of it: every property, now enumerable. */
  const SelfCausedCopy := Node([Prop("message", P(Str("boom")), true),
                                Prop("stack", P(Str("Error: boom")), true),
                                Prop("cause", Ref(0), true)], false, ObjectRepr)

  /** Inside the original error only `cause` is serialized, and it is cut. */
  lemma SelfCausedInner(h: Heap)
    requires h == [SelfCaused, SelfCausedCopy]
    ensures Walk(h, Ref(0), [1]) == Walked(Obj([Field("cause", Leaf(Str("Error: boom")))]), [1, 0])
  {
    var ps := SelfCaused.props;
    var cut := Field("cause", Leaf(Str("Error: boom")));
    assert ps[1..][1..][1..] == [];
    assert Walk(h, Ref(0), [1, 0]) == Walked(Leaf(Str("Error: boom")), [1, 0]);
    assert WalkProps(h, ps[1..][1..], [1, 0]) == PropsWalked([cut], [1, 0]);
    assert WalkProps(h, ps, [1, 0]) == PropsWalked([cut], [1, 0]);
    assert [1] + [0] == [1, 0];
  }

  /** The copy's `cause` leads back into the original error. */
  lemma SelfCausedCopyCause(h: Heap)
    requires h == [SelfCaused, SelfCausedCopy]
    ensures WalkProps(h, SelfCausedCopy.props[2..], [1])
         == PropsWalked([Field("cause", Obj([Field("cause", Leaf(Str("Error: boom")))]))], [1, 0])
  {
    var ps := SelfCausedCopy.props[2..];
    assert ps == [Prop("cause", Ref(0), true)] && ps[1..] == [];
    SelfCausedInner(h);
  }

  /** A serialized primitive property is written as is and leaves the cache alone. */
  lemma PrimitivePropKept(h: Heap, p: Prop, rest: seq<Prop>, cache: seq<Id>)
    requires Serialized(p) && p.value.P? && ValidProps(h, rest)
    ensures var w := WalkProps(h, rest, cache);
            WalkProps(h, [p] + rest, cache) == PropsWalked([Field(p.key, Leaf(p.value.prim))] + w.fields, w.cache)
  {
  }

  /** The flattened copy is walked from the root: every own property is kept. */
  lemma SelfCausedOuter(h: Heap)
    requires h == [SelfCaused, SelfCausedCopy]
    ensures Walk(h, Ref(1), []).tree == Obj([Field("message", Leaf(Str("boom"))),
                                             Field("stack", Leaf(Str("Error: boom"))),
                                             Field("cause", Obj([Field("cause", Leaf(Str("Error: boom")))]))])
  {
    var ps := SelfCausedCopy.props;
    SelfCausedCopyProps(h);
    assert [] + [1] == [1];
    assert h[1].props == ps;
  }

  lemma SelfCausedCopyProps(h: Heap)
    requires h == [SelfCaused, SelfCausedCopy]
    ensures WalkProps(h, SelfCausedCopy.props, [1]).fields
         == [Field("message", Leaf(Str("boom"))),
             Field("stack", Leaf(Str("Error: boom"))),
             Field("cause", Obj([Field("cause", Leaf(Str("Error: boom")))]))]
  {
    var ps := SelfCausedCopy.props;
    SelfCausedCopyCause(h);
    assert ps == [ps[0]] + ([ps[1]] + ps[2..]);
    PrimitivePropKept(h, ps[1], ps[2..], [1]);
    PrimitivePropKept(h, ps[0], [ps[1]] + ps[2..], [1]);
  }

  /** The sanitized error keeps `message` and `stack` thanks to `errorJSON`;
      the copy's `cause` still points at the original error, which is expanded
      once, and its own `cause` then becomes the error's string form. */
  lemma SelfCausedErrorIsCut(t: Test)
    requires t.heap == [SelfCaused] && t.err == Ref(0)
    ensures Clean(t).err == Obj([Field("message", Leaf(Str("boom"))),
                                 Field("stack", Leaf(Str("Error: boom"))),
                                 Field("cause", Obj([Field("cause", Leaf(Str("Error: boom")))]))])
  {
    assert ErrorJSON(SelfCaused) == SelfCausedCopy;
    assert Truthy(t.err) && IsErrorObject(t.heap, t.err) && t.heap[0] == SelfCaused;
    assert t.heap + [SelfCausedCopy] == [SelfCaused, SelfCausedCopy];
    assert ErrorToClean(t) == ([SelfCaused, SelfCausedCopy], Ref(1));
    SelfCausedOuter([SelfCaused, SelfCausedCopy]);
  }
}
