/**
 * The deep copier `Clone(object, registry)` used to build undo snapshots.
 *
 * Objects live in a heap (a sequence; a reference is an index) and the
 * registry maps a source object to the clone made for it. `Clone` dispatches on
 * the kind of object, clones the parts of containers and scene nodes
 * recursively, allocates the copy and only then registers it. Because the
 * registration comes after the children, a reference back to an object whose
 * clone is still in progress is not cut off: the recursion goes on until the
 * stack runs out. `fuel` is that stack: every call takes one frame, and a call
 * with none left ends in `StackExhausted`.
 */
module Clone {

  type Ref = nat

  /** What a field or a container slot holds: a number, a string, or a reference to an object. */
  datatype Value = Num(n: int) | Str(s: string) | Obj(ref: Ref)

  /** One level of a scene item's level-of-detail node: the level's object and its distance. */
  datatype LodLevel = LodLevel(node: Value, distance: int)

  /** Scene items cloned by copying the item and re-adding each LOD level's object (`Solid`, `SpaceInstance`). */
  datatype ItemKind = SolidItem | SpaceInstanceItem

  /** Scene nodes cloned by a shallow copy plus their children (`FaceGroup`, `CurveEdgeGroup`, `Curve3D`, `RecursiveGroup`, `THREE.Scene`). */
  datatype GroupKind = FaceGroupNode | CurveEdgeGroupNode | Curve3DNode | RecursiveGroupNode | SceneNode

  /** Objects cloned by the object's own copy, without the registry (`TopologyItem`, `CurveEdge`, `CurveSegment`, `AxesHelper`). */
  datatype LeafKind = TopologyLeaf | CurveEdgeLeaf | CurveSegmentLeaf | AxesHelperLeaf

  /**
   * The objects `Clone` meets. `data` stands for a scene node's own properties
   * (name, transform, user data), which a shallow copy keeps.
   */
  datatype Object =
    | Item(itemKind: ItemKind, data: nat, disposable: bool, levels: seq<LodLevel>)
    | Group(groupKind: GroupKind, data: nat, children: seq<Value>)
    | Leaf(leafKind: LeafKind, data: nat)
    | KernelItem(handle: nat)                       // c3d.Item or c3d.TopologyItem
    | Snap(snap: nat)
    | RefCounter(counts: seq<(Value, int)>)
    | SetObject(elements: seq<Value>)               // insertion order, no duplicates
    | MapObject(entries: seq<(Value, Value)>)       // insertion order, keys distinct
    | WeakValueMap(weakEntries: seq<(Value, Value)>)
    | OtherObject                                   // anything the dispatcher does not know

  datatype Session = Session(heap: seq<Object>, registry: map<Ref, Ref>)

  /** The outcome of a clone: the copy and the session after it, or the thrown error, or a stack overflow. */
  datatype Cloned<T> = Done(value: T, session: Session) | UnsupportedDeepClone | StackExhausted

  /** A reference outside the heap cannot arise in the source; it reads as an object nobody supports. */
  function Deref(heap: seq<Object>, r: Ref): Object
  {
    if r < |heap| then heap[r] else OtherObject
  }

  function Register(st: Session, r: Ref, clone: Ref): Session
  {
    st.(registry := st.registry[r := clone])
  }

  /** Allocates the copy `o` of `r` and registers it (`registry.set(object, result)`). */
  function Alloc(st: Session, r: Ref, o: Object): Cloned<Value>
  {
    Done(Obj(|st.heap|), Session(st.heap + [o], st.registry[r := |st.heap|]))
  }

  // ---------------------------------------------------------------------
  // JavaScript Set and Map insertion

  /** `set.add(x)`: appended unless already present. */
  function SetAdd(elements: seq<Value>, x: Value): (r: seq<Value>)
    ensures forall y :: y in r <==> y in elements || y == x
    ensures x in elements ==> r == elements
    ensures x !in elements ==> r == elements + [x]
  {
    if x in elements then elements else elements + [x]
  }

  /** The set built by adding the values one after the other. */
  function SetOf(xs: seq<Value>): (s: seq<Value>)
    ensures forall x :: x in s <==> x in xs
  {
    if xs == [] then [] else SetAdd(SetOf(xs[..|xs| - 1]), xs[|xs| - 1])
  }

  function Keys(entries: seq<(Value, Value)>): set<Value>
  {
    set e | e in entries :: e.0
  }

  /** No key appears in two entries, as in a JavaScript `Map`. */
  ghost predicate UniqueKeys(entries: seq<(Value, Value)>)
  {
    forall i, j :: 0 <= i < j < |entries| ==> entries[i].0 != entries[j].0
  }

  lemma HeadKeyUnique(entries: seq<(Value, Value)>)
    requires entries != []
    ensures UniqueKeys(entries) ==> UniqueKeys(entries[1..]) && entries[0].0 !in Keys(entries[1..])
  {
  }

  lemma ConsUnique(x: (Value, Value), rest: seq<(Value, Value)>)
    ensures UniqueKeys(rest) && x.0 !in Keys(rest) ==> UniqueKeys([x] + rest)
  {
  }

  /** `map.set(k, v)`: replaces the value of an existing key in place, appends a new one. */
  function MapSet(entries: seq<(Value, Value)>, k: Value, v: Value): (r: seq<(Value, Value)>)
    ensures Keys(r) == Keys(entries) + {k}
    ensures (k, v) in r
    ensures forall e :: e in r ==> e == (k, v) || e in entries
  {
    if entries == [] then [(k, v)]
    else if entries[0].0 == k then [(k, v)] + entries[1..]
    else
      var rest := MapSet(entries[1..], k, v);
      assert Keys(entries) == {entries[0].0} + Keys(entries[1..]) by {
        assert entries == [entries[0]] + entries[1..];
      }
      [entries[0]] + rest
  }

  /** On a map whose keys are distinct, `set` keeps them distinct: the key's old pair is replaced, not kept. */
  lemma {:induction false} MapSetReplaces(entries: seq<(Value, Value)>, k: Value, v: Value)
    requires UniqueKeys(entries)
    ensures UniqueKeys(MapSet(entries, k, v))
    ensures forall e :: e in MapSet(entries, k, v) && e.0 == k ==> e == (k, v)
  {
    if entries != [] {
      HeadKeyUnique(entries);
      if entries[0].0 == k {
        ConsUnique((k, v), entries[1..]);
      } else {
        MapSetReplaces(entries[1..], k, v);
        ConsUnique(entries[0], MapSet(entries[1..], k, v));
      }
    }
  }

  /** The map built by setting the pairs one after the other. */
  function MapOf(pairs: seq<(Value, Value)>): seq<(Value, Value)>
  {
    if pairs == [] then [] else
      var last := pairs[|pairs| - 1];
      MapSet(MapOf(pairs[..|pairs| - 1]), last.0, last.1)
  }

  function LevelObjects(levels: seq<LodLevel>): (xs: seq<Value>)
    ensures |xs| == |levels|
    ensures forall i :: 0 <= i < |levels| ==> xs[i] == levels[i].node
  {
    if levels == [] then [] else [levels[0].node] + LevelObjects(levels[1..])
  }

  /** `result.lod.addLevel(clone, level.distance)` for each level in turn. */
  function Relevel(levels: seq<LodLevel>, objects: seq<Value>): (r: seq<LodLevel>)
    requires |objects| == |levels|
    ensures |r| == |levels|
    ensures forall i :: 0 <= i < |levels| ==> r[i] == LodLevel(objects[i], levels[i].distance)
  {
    if levels == [] then [] else [LodLevel(objects[0], levels[0].distance)] + Relevel(levels[1..], objects[1..])
  }

  function WeakValues(entries: seq<(Value, Value)>): (xs: seq<Value>)
    ensures |xs| == |entries|
    ensures forall i :: 0 <= i < |entries| ==> xs[i] == entries[i].1
  {
    if entries == [] then [] else [entries[0].1] + WeakValues(entries[1..])
  }

  /** The weak-value map rebuilt with the original keys and the cloned values. */
  function Rekey(entries: seq<(Value, Value)>, values: seq<Value>): (r: seq<(Value, Value)>)
    requires |values| == |entries|
    ensures |r| == |entries|
    ensures forall i :: 0 <= i < |entries| ==> r[i] == (entries[i].0, values[i])
  {
    if entries == [] then [] else [(entries[0].0, values[0])] + Rekey(entries[1..], values[1..])
  }

  function Prepend<T>(x: T, rest: Cloned<seq<T>>): Cloned<seq<T>>
  {
    match rest
    case Done(xs, st) => Done([x] + xs, st)
    case UnsupportedDeepClone => UnsupportedDeepClone
    case StackExhausted => StackExhausted
  }

  // ---------------------------------------------------------------------
  // The dispatcher (History.ts:83-147)

  /**
   * `Clone(object, registry)`: one stack frame; numbers pass, strings are
   * refused, registered objects are looked up, and any other object is copied
   * according to its kind, with the frames left for its parts.
   */
  function Clone(fuel: nat, v: Value, st: Session): Cloned<Value>
    decreases fuel, 2
  {
    if fuel == 0 then StackExhausted
    else match v
      case Num(_) => Done(v, st)
      case Str(_) => UnsupportedDeepClone
      case Obj(r) =>
        if r in st.registry then Done(Obj(st.registry[r]), st)
        else match Deref(st.heap, r)
          case Item(kind, data, disposable, levels) => CopyItem(fuel - 1, r, kind, data, disposable, levels, st)
          case Group(kind, data, children) => CopyGroup(fuel - 1, r, kind, data, children, st)
          case Leaf(kind, data) => Alloc(st, r, Leaf(kind, data))
          case KernelItem(_) => Done(v, Register(st, r, r))
          case RefCounter(_) =>
            // the loop walks the new, empty counter, so no count is carried over
            Alloc(st, r, RefCounter([]))
          case Snap(_) => Done(v, Register(st, r, r))
          case SetObject(elements) => CopySet(fuel - 1, r, elements, st)
          case MapObject(entries) => CopyMap(fuel - 1, r, entries, st)
          case WeakValueMap(entries) => CopyWeakValueMap(fuel - 1, r, entries, st)
          case OtherObject => UnsupportedDeepClone
  }

  /** A solid or space instance: each LOD level's object is cloned, then the copy re-adds them at their distances. */
  function CopyItem(inner: nat, r: Ref, kind: ItemKind, data: nat, disposable: bool, levels: seq<LodLevel>, st: Session): Cloned<Value>
    decreases inner, 4
  {
    match CloneSeq(inner, LevelObjects(levels), st)
    case Done(cs, st1) => Alloc(st1, r, Item(kind, data, disposable, Relevel(levels, cs)))
    case UnsupportedDeepClone => UnsupportedDeepClone
    case StackExhausted => StackExhausted
  }

  /** A scene node: the children are cloned in order, then the shallow copy receives them. */
  function CopyGroup(inner: nat, r: Ref, kind: GroupKind, data: nat, children: seq<Value>, st: Session): Cloned<Value>
    decreases inner, 4
  {
    match CloneSeq(inner, children, st)
    case Done(cs, st1) => Alloc(st1, r, Group(kind, data, cs))
    case UnsupportedDeepClone => UnsupportedDeepClone
    case StackExhausted => StackExhausted
  }

  function CopySet(inner: nat, r: Ref, elements: seq<Value>, st: Session): Cloned<Value>
    decreases inner, 4
  {
    match CloneSeq(inner, elements, st)
    case Done(cs, st1) => Alloc(st1, r, SetObject(SetOf(cs)))
    case UnsupportedDeepClone => UnsupportedDeepClone
    case StackExhausted => StackExhausted
  }

  function CopyMap(inner: nat, r: Ref, entries: seq<(Value, Value)>, st: Session): Cloned<Value>
    decreases inner, 4
  {
    match CloneEntries(inner, entries, st)
    case Done(cs, st1) => Alloc(st1, r, MapObject(MapOf(cs)))
    case UnsupportedDeepClone => UnsupportedDeepClone
    case StackExhausted => StackExhausted
  }

  function CopyWeakValueMap(inner: nat, r: Ref, entries: seq<(Value, Value)>, st: Session): Cloned<Value>
    decreases inner, 4
  {
    match CloneSeq(inner, WeakValues(entries), st)
    case Done(cs, st1) => Alloc(st1, r, WeakValueMap(MapOf(Rekey(entries, cs))))
    case UnsupportedDeepClone => UnsupportedDeepClone
    case StackExhausted => StackExhausted
  }

  /** Clones the values one after the other, threading the session; the first failure ends it. */
  function CloneSeq(fuel: nat, xs: seq<Value>, st: Session): (c: Cloned<seq<Value>>)
    ensures c.Done? ==> |c.value| == |xs|
    decreases fuel, 3, |xs|
  {
    if xs == [] then Done([], st)
    else match Clone(fuel, xs[0], st)
      case Done(c, st1) => Prepend(c, CloneSeq(fuel, xs[1..], st1))
      case UnsupportedDeepClone => UnsupportedDeepClone
      case StackExhausted => StackExhausted
  }

  /** Clones each entry's key and then its value, one entry after the other. */
  function CloneEntries(fuel: nat, es: seq<(Value, Value)>, st: Session): Cloned<seq<(Value, Value)>>
    decreases fuel, 3, |es|
  {
    if es == [] then Done([], st)
    else match Clone(fuel, es[0].0, st)
      case Done(k, st1) =>
        (match Clone(fuel, es[0].1, st1)
         case Done(x, st2) => Prepend((k, x), CloneEntries(fuel, es[1..], st2))
         case UnsupportedDeepClone => UnsupportedDeepClone
         case StackExhausted => StackExhausted)
      case UnsupportedDeepClone => UnsupportedDeepClone
      case StackExhausted => StackExhausted
  }

  // ---------------------------------------------------------------------
  // Properties

  /** The later session keeps every object and every registry entry of the earlier one. */
  ghost predicate Extends(st: Session, st': Session)
  {
    && |st.heap| <= |st'.heap| && st'.heap[..|st.heap|] == st.heap
    && (forall r :: r in st.registry ==> r in st'.registry && st'.registry[r] == st.registry[r])
  }

  /** What a value stands for after cloning: a number itself, an object its registered clone. */
  function Image(registry: map<Ref, Ref>, v: Value): Value
  {
    match v
    case Obj(r) => if r in registry then Obj(registry[r]) else v
    case _ => v
  }

  function Images(registry: map<Ref, Ref>, xs: seq<Value>): (ys: seq<Value>)
    ensures |ys| == |xs|
    ensures forall i :: 0 <= i < |xs| ==> ys[i] == Image(registry, xs[i])
  {
    if xs == [] then [] else [Image(registry, xs[0])] + Images(registry, xs[1..])
  }

  /**
   * A finished clone keeps the session's objects and registry entries; an
   * object ends up registered to its clone; a number comes back unchanged and
   * leaves the session alone.
   */
  lemma {:induction false} CloneSound(fuel: nat, v: Value, st: Session)
    requires Clone(fuel, v, st).Done?
    ensures var c := Clone(fuel, v, st);
      && Extends(st, c.session)
      && (v.Obj? ==> v.ref in c.session.registry && c.value == Obj(c.session.registry[v.ref]))
      && (v.Num? ==> c.value == v && c.session == st)
    decreases fuel, 2
  {
    if v.Obj? && v.ref !in st.registry {
      var r := v.ref;
      match Deref(st.heap, r)
      case Item(_, _, _, _) => ItemSound(fuel, r, st);
      case Group(_, _, _) => GroupSound(fuel, r, st);
      case SetObject(_) => SetSound(fuel, r, st);
      case MapObject(_) => MapSound(fuel, r, st);
      case WeakValueMap(_) => WeakValueMapSound(fuel, r, st);
      case _ =>
        AllocExtends(st, st, r, RefCounter([]));
        AllocExtends(st, st, r, Deref(st.heap, r));
    }
  }

  /** The registered clone of `r` is what the clone of `Obj(r)` returned, and the session only grew. */
  ghost predicate Finished(st: Session, r: Ref, c: Cloned<Value>)
  {
    c.Done? && Extends(st, c.session) && r in c.session.registry && c.value == Obj(c.session.registry[r])
  }

  lemma ItemSound(fuel: nat, r: Ref, st: Session)
    requires fuel > 0 && r !in st.registry && Deref(st.heap, r).Item? && Clone(fuel, Obj(r), st).Done?
    ensures Finished(st, r, Clone(fuel, Obj(r), st))
    decreases fuel, 1
  {
    var o := Deref(st.heap, r);
    var cs := CloneSeq(fuel - 1, LevelObjects(o.levels), st);
    CloneSeqSound(fuel - 1, LevelObjects(o.levels), st);
    AllocExtends(st, cs.session, r, Item(o.itemKind, o.data, o.disposable, Relevel(o.levels, cs.value)));
  }

  lemma GroupSound(fuel: nat, r: Ref, st: Session)
    requires fuel > 0 && r !in st.registry && Deref(st.heap, r).Group? && Clone(fuel, Obj(r), st).Done?
    ensures Finished(st, r, Clone(fuel, Obj(r), st))
    decreases fuel, 1
  {
    var o := Deref(st.heap, r);
    var cs := CloneSeq(fuel - 1, o.children, st);
    CloneSeqSound(fuel - 1, o.children, st);
    AllocExtends(st, cs.session, r, Group(o.groupKind, o.data, cs.value));
  }

  lemma SetSound(fuel: nat, r: Ref, st: Session)
    requires fuel > 0 && r !in st.registry && Deref(st.heap, r).SetObject? && Clone(fuel, Obj(r), st).Done?
    ensures Finished(st, r, Clone(fuel, Obj(r), st))
    decreases fuel, 1
  {
    var o := Deref(st.heap, r);
    var cs := CloneSeq(fuel - 1, o.elements, st);
    CloneSeqSound(fuel - 1, o.elements, st);
    AllocExtends(st, cs.session, r, SetObject(SetOf(cs.value)));
  }

  lemma MapSound(fuel: nat, r: Ref, st: Session)
    requires fuel > 0 && r !in st.registry && Deref(st.heap, r).MapObject? && Clone(fuel, Obj(r), st).Done?
    ensures Finished(st, r, Clone(fuel, Obj(r), st))
    decreases fuel, 1
  {
    var o := Deref(st.heap, r);
    var cs := CloneEntries(fuel - 1, o.entries, st);
    CloneEntriesSound(fuel - 1, o.entries, st);
    AllocExtends(st, cs.session, r, MapObject(MapOf(cs.value)));
  }

  lemma WeakValueMapSound(fuel: nat, r: Ref, st: Session)
    requires fuel > 0 && r !in st.registry && Deref(st.heap, r).WeakValueMap? && Clone(fuel, Obj(r), st).Done?
    ensures Finished(st, r, Clone(fuel, Obj(r), st))
    decreases fuel, 1
  {
    var o := Deref(st.heap, r);
    var cs := CloneSeq(fuel - 1, WeakValues(o.weakEntries), st);
    CloneSeqSound(fuel - 1, WeakValues(o.weakEntries), st);
    AllocExtends(st, cs.session, r, WeakValueMap(MapOf(Rekey(o.weakEntries, cs.value))));
  }

  /** Allocating a copy after a run that extended the session still extends it, and registers the original. */
  lemma AllocExtends(st: Session, st1: Session, r: Ref, o: Object)
    requires Extends(st, st1) && r !in st.registry
    ensures var a := Alloc(st1, r, o);
      && Extends(st, a.session) && r in a.session.registry && a.value == Obj(a.session.registry[r])
  {
    var a := Alloc(st1, r, o);
    assert a.session.heap[..|st.heap|] == st1.heap[..|st.heap|];
  }

  /** Cloning a sequence keeps the session and yields, element by element, the registered clones. */
  lemma {:induction false} CloneSeqSound(fuel: nat, xs: seq<Value>, st: Session)
    requires CloneSeq(fuel, xs, st).Done?
    ensures var c := CloneSeq(fuel, xs, st);
      && Extends(st, c.session)
      && c.value == Images(c.session.registry, xs)
    decreases fuel, 3, |xs|
  {
    if xs != [] {
      var h := Clone(fuel, xs[0], st);
      CloneSound(fuel, xs[0], st);
      CloneSeqSound(fuel, xs[1..], h.session);
      var c := CloneSeq(fuel, xs, st);
      assert c.value == [h.value] + CloneSeq(fuel, xs[1..], h.session).value;
      assert h.value == Image(c.session.registry, xs[0]);
    }
  }

  lemma {:induction false} CloneEntriesSound(fuel: nat, es: seq<(Value, Value)>, st: Session)
    requires CloneEntries(fuel, es, st).Done?
    ensures var c := CloneEntries(fuel, es, st);
      && Extends(st, c.session)
      && |c.value| == |es|
      && (forall i :: 0 <= i < |es| ==>
            c.value[i] == (Image(c.session.registry, es[i].0), Image(c.session.registry, es[i].1)))
    decreases fuel, 3, |es|
  {
    if es != [] {
      var k := Clone(fuel, es[0].0, st);
      CloneSound(fuel, es[0].0, st);
      var x := Clone(fuel, es[0].1, k.session);
      CloneSound(fuel, es[0].1, k.session);
      CloneEntriesSound(fuel, es[1..], x.session);
      var c := CloneEntries(fuel, es, st);
      assert c.value == [(k.value, x.value)] + CloneEntries(fuel, es[1..], x.session).value;
    }
  }

  /** An object already in the registry comes back as its registered clone, and nothing changes. */
  lemma RegisteredObjectReturned(fuel: nat, r: Ref, st: Session)
    requires fuel > 0 && r in st.registry
    ensures Clone(fuel, Obj(r), st) == Done(Obj(st.registry[r]), st)
  {
  }

  /** Cloning a value a second time in the same session gives the same clone and changes nothing. */
  lemma SharingPreserved(fuel: nat, v: Value, st: Session)
    requires fuel > 0 && Clone(fuel, v, st).Done?
    ensures var c := Clone(fuel, v, st);
      Clone(fuel, v, c.session) == Done(c.value, c.session)
  {
    CloneSound(fuel, v, st);
  }

  /** Two references to one object clone to one object (sharing is kept). */
  lemma {:induction false} SharedChildClonedOnce(fuel: nat, xs: seq<Value>, st: Session, i: nat, j: nat)
    requires CloneSeq(fuel, xs, st).Done?
    requires i < |xs| && j < |xs| && xs[i] == xs[j]
    ensures CloneSeq(fuel, xs, st).value[i] == CloneSeq(fuel, xs, st).value[j]
  {
    CloneSeqSound(fuel, xs, st);
  }

  /** Kernel items and snaps are their own clones, registered to themselves. */
  lemma KernelItemsAndSnapsShared(fuel: nat, r: Ref, st: Session)
    requires fuel > 0 && r !in st.registry
    requires Deref(st.heap, r).KernelItem? || Deref(st.heap, r).Snap?
    ensures Clone(fuel, Obj(r), st) == Done(Obj(r), Session(st.heap, st.registry[r := r]))
  {
  }

  /** A RefCounter clones to a new, empty counter, whatever it counted. */
  lemma RefCounterClonesEmpty(fuel: nat, r: Ref, st: Session)
    requires fuel > 0 && r !in st.registry && Deref(st.heap, r).RefCounter?
    ensures var c := Clone(fuel, Obj(r), st);
      && c.Done? && c.value == Obj(|st.heap|)
      && c.session.heap == st.heap + [RefCounter([])]
  {
  }

  /** Topology items, curve segments and helpers become a new copy holding the same properties. */
  lemma LeafCopied(fuel: nat, r: Ref, st: Session)
    requires fuel > 0 && r !in st.registry && Deref(st.heap, r).Leaf?
    ensures var c := Clone(fuel, Obj(r), st);
      && c.Done? && c.value == Obj(|st.heap|)
      && c.session.heap == st.heap + [Deref(st.heap, r)]
      && c.session.registry == st.registry[r := |st.heap|]
  {
  }

  /** Strings and unknown objects throw "Unsupported deep clone.". */
  lemma UnsupportedThrows(fuel: nat, v: Value, st: Session)
    requires fuel > 0
    requires v.Str? || (v.Obj? && v.ref !in st.registry && Deref(st.heap, v.ref).OtherObject?)
    ensures Clone(fuel, v, st) == UnsupportedDeepClone
  {
  }

  /**
   * A scene node: a new node with the same properties whose children are the
   * registered clones of the original children, made after the children.
   */
  lemma GroupCloned(fuel: nat, r: Ref, st: Session)
    requires r !in st.registry && Deref(st.heap, r).Group? && Clone(fuel, Obj(r), st).Done?
    ensures var o := Deref(st.heap, r);
      var c := Clone(fuel, Obj(r), st);
      var cs := CloneSeq(fuel - 1, o.children, st);
      && cs.Done? && Extends(st, cs.session)
      && c.value == Obj(|cs.session.heap|)
      && c.session.heap == cs.session.heap + [Group(o.groupKind, o.data, Images(cs.session.registry, o.children))]
      && c.session.registry == cs.session.registry[r := |cs.session.heap|]
  {
    var o := Deref(st.heap, r);
    assert Clone(fuel, Obj(r), st) == CopyGroup(fuel - 1, r, o.groupKind, o.data, o.children, st);
    CloneSeqSound(fuel - 1, o.children, st);
  }

  /** A scene item: a new item of the same kind whose LOD levels hold the clones of the original levels' objects. */
  lemma ItemCloned(fuel: nat, r: Ref, st: Session)
    requires r !in st.registry && Deref(st.heap, r).Item? && Clone(fuel, Obj(r), st).Done?
    ensures var o := Deref(st.heap, r);
      var c := Clone(fuel, Obj(r), st);
      var cs := CloneSeq(fuel - 1, LevelObjects(o.levels), st);
      && cs.Done? && Extends(st, cs.session)
      && c.value == Obj(|cs.session.heap|) && |c.session.heap| == |cs.session.heap| + 1
      && c.session.heap[|cs.session.heap|].Item?
      && var copy := c.session.heap[|cs.session.heap|];
      && copy.itemKind == o.itemKind && copy.data == o.data && copy.disposable == o.disposable
      && |copy.levels| == |o.levels|
      && (forall i :: 0 <= i < |copy.levels| ==>
            copy.levels[i] == LodLevel(Image(cs.session.registry, o.levels[i].node), o.levels[i].distance))
  {
    var o := Deref(st.heap, r);
    assert Clone(fuel, Obj(r), st) == CopyItem(fuel - 1, r, o.itemKind, o.data, o.disposable, o.levels, st);
    CloneSeqSound(fuel - 1, LevelObjects(o.levels), st);
  }

  /** A Set: a new set whose members are exactly the clones of the original members. */
  lemma SetCloned(fuel: nat, r: Ref, st: Session)
    requires r !in st.registry && Deref(st.heap, r).SetObject? && Clone(fuel, Obj(r), st).Done?
    ensures var o := Deref(st.heap, r);
      var c := Clone(fuel, Obj(r), st);
      var cs := CloneSeq(fuel - 1, o.elements, st);
      && cs.Done? && Extends(st, cs.session)
      && c.value == Obj(|cs.session.heap|) && |c.session.heap| == |cs.session.heap| + 1
      && c.session.heap[|cs.session.heap|].SetObject?
      && (forall x :: x in c.session.heap[|cs.session.heap|].elements <==>
            exists y :: y in o.elements && x == Image(cs.session.registry, y))
  {
    var o := Deref(st.heap, r);
    assert Clone(fuel, Obj(r), st) == CopySet(fuel - 1, r, o.elements, st);
    CloneSeqSound(fuel - 1, o.elements, st);
    var inner := CloneSeq(fuel - 1, o.elements, st).session;
    var cs := Images(inner.registry, o.elements);
    forall x
      ensures x in cs <==> exists y :: y in o.elements && x == Image(inner.registry, y)
    {
      if x in cs {
        var i :| 0 <= i < |cs| && cs[i] == x;
        assert o.elements[i] in o.elements;
      }
      if exists y :: y in o.elements && x == Image(inner.registry, y) {
        var y :| y in o.elements && x == Image(inner.registry, y);
        var i :| 0 <= i < |o.elements| && o.elements[i] == y;
        assert cs[i] == x;
      }
    }
  }

  lemma {:induction false} MapOfKeys(pairs: seq<(Value, Value)>)
    ensures Keys(MapOf(pairs)) == set p | p in pairs :: p.0
    ensures forall e :: e in MapOf(pairs) ==> e in pairs
    ensures UniqueKeys(MapOf(pairs))
  {
    if pairs != [] {
      var init := pairs[..|pairs| - 1];
      var last := pairs[|pairs| - 1];
      MapOfKeys(init);
      assert pairs == init + [last];
      assert MapOf(pairs) == MapSet(MapOf(init), last.0, last.1);
    }
    MapOfUnique(pairs);
  }

  /** Setting pairs one after the other never leaves a key in two entries. */
  lemma {:induction false} MapOfUnique(pairs: seq<(Value, Value)>)
    ensures UniqueKeys(MapOf(pairs))
  {
    if pairs != [] {
      var init := pairs[..|pairs| - 1];
      var last := pairs[|pairs| - 1];
      MapOfUnique(init);
      MapSetReplaces(MapOf(init), last.0, last.1);
    }
  }

  /** A Map: a new map whose entries are clones of original entries, keys and values both cloned, and every cloned key present. */
  lemma MapCloned(fuel: nat, r: Ref, st: Session)
    requires r !in st.registry && Deref(st.heap, r).MapObject? && Clone(fuel, Obj(r), st).Done?
    ensures var o := Deref(st.heap, r);
      var c := Clone(fuel, Obj(r), st);
      var ce := CloneEntries(fuel - 1, o.entries, st);
      && ce.Done? && Extends(st, ce.session)
      && c.value == Obj(|ce.session.heap|) && |c.session.heap| == |ce.session.heap| + 1
      && var m := c.session.heap[|ce.session.heap|];
      && m.MapObject? && UniqueKeys(m.entries)
      && (forall e :: e in o.entries ==> Image(ce.session.registry, e.0) in Keys(m.entries))
      && (forall e :: e in m.entries ==>
            (exists d :: d in o.entries && e == (Image(ce.session.registry, d.0), Image(ce.session.registry, d.1))))
  {
    var o := Deref(st.heap, r);
    assert Clone(fuel, Obj(r), st) == CopyMap(fuel - 1, r, o.entries, st);
    CloneEntriesSound(fuel - 1, o.entries, st);
    var ce := CloneEntries(fuel - 1, o.entries, st);
    var reg := ce.session.registry;
    MapOfKeys(ce.value);
    forall e | e in o.entries
      ensures Image(reg, e.0) in Keys(MapOf(ce.value))
    {
      var i :| 0 <= i < |o.entries| && o.entries[i] == e;
      assert ce.value[i] in ce.value;
    }
    forall e | e in MapOf(ce.value)
      ensures exists d :: d in o.entries && e == (Image(reg, d.0), Image(reg, d.1))
    {
      var i :| 0 <= i < |ce.value| && ce.value[i] == e;
      assert o.entries[i] in o.entries;
    }
  }

  /** A WeakValueMap: a new map with the original keys, each value replaced by its clone. */
  lemma WeakValueMapCloned(fuel: nat, r: Ref, st: Session)
    requires r !in st.registry && Deref(st.heap, r).WeakValueMap? && Clone(fuel, Obj(r), st).Done?
    ensures var o := Deref(st.heap, r);
      var c := Clone(fuel, Obj(r), st);
      var cs := CloneSeq(fuel - 1, WeakValues(o.weakEntries), st);
      && cs.Done? && Extends(st, cs.session)
      && c.value == Obj(|cs.session.heap|) && |c.session.heap| == |cs.session.heap| + 1
      && var m := c.session.heap[|cs.session.heap|];
      && m.WeakValueMap?
      && Keys(m.weakEntries) == Keys(o.weakEntries)
      && (forall e :: e in m.weakEntries ==> exists d :: d in o.weakEntries && e == (d.0, Image(cs.session.registry, d.1)))
  {
    var o := Deref(st.heap, r);
    assert Clone(fuel, Obj(r), st) == CopyWeakValueMap(fuel - 1, r, o.weakEntries, st);
    WeakValueMapCopied(fuel - 1, r, o.weakEntries, st);
  }

  lemma WeakValueMapCopied(inner: nat, r: Ref, entries: seq<(Value, Value)>, st: Session)
    requires r !in st.registry && CopyWeakValueMap(inner, r, entries, st).Done?
    ensures var c := CopyWeakValueMap(inner, r, entries, st);
      var cs := CloneSeq(inner, WeakValues(entries), st);
      && cs.Done? && Extends(st, cs.session)
      && c.value == Obj(|cs.session.heap|) && |c.session.heap| == |cs.session.heap| + 1
      && var m := c.session.heap[|cs.session.heap|];
      && m.WeakValueMap?
      && Keys(m.weakEntries) == Keys(entries)
      && (forall e :: e in m.weakEntries ==> exists d :: d in entries && e == (d.0, Image(cs.session.registry, d.1)))
  {
    var cs := CloneSeq(inner, WeakValues(entries), st);
    CloneSeqSound(inner, WeakValues(entries), st);
    RekeyedMap(entries, cs.value, cs.session.registry);
  }

  /** The map rebuilt from the original keys and the values' images has the original keys, paired with those images. */
  lemma RekeyedMap(entries: seq<(Value, Value)>, values: seq<Value>, registry: map<Ref, Ref>)
    requires values == Images(registry, WeakValues(entries))
    ensures Keys(MapOf(Rekey(entries, values))) == Keys(entries)
    ensures forall e :: e in MapOf(Rekey(entries, values)) ==> exists d :: d in entries && e == (d.0, Image(registry, d.1))
  {
    var pairs := Rekey(entries, values);
    RekeyKeys(entries, values);
    RekeyPairs(entries, values, registry);
    MapOfKeys(pairs);
  }

  /** Rekeying keeps exactly the original keys. */
  lemma RekeyKeys(entries: seq<(Value, Value)>, values: seq<Value>)
    requires |values| == |entries|
    ensures (set p | p in Rekey(entries, values) :: p.0) == Keys(entries)
  {
    var pairs := Rekey(entries, values);
    forall k | k in Keys(entries) ensures k in set p | p in pairs :: p.0 {
      var e :| e in entries && e.0 == k;
      var i :| 0 <= i < |entries| && entries[i] == e;
      assert pairs[i] in pairs;
    }
    forall k | k in set p | p in pairs :: p.0 ensures k in Keys(entries) {
      var p :| p in pairs && p.0 == k;
      var i :| 0 <= i < |pairs| && pairs[i] == p;
      assert entries[i] in entries;
    }
  }

  /** Rekeying with the images of the values pairs each original key with its value's image. */
  lemma RekeyPairs(entries: seq<(Value, Value)>, values: seq<Value>, registry: map<Ref, Ref>)
    requires values == Images(registry, WeakValues(entries))
    ensures forall e :: e in Rekey(entries, values) ==> exists d :: d in entries && e == (d.0, Image(registry, d.1))
  {
    var pairs := Rekey(entries, values);
    forall e | e in pairs
      ensures exists d :: d in entries && e == (d.0, Image(registry, d.1))
    {
      var i :| 0 <= i < |pairs| && pairs[i] == e;
      assert entries[i] in entries;
    }
  }

  /**
   * A node that is its own first child is never finished: the registry is
   * written only after the children, so the recursion does not stop until the
   * stack runs out, however deep the stack.
   */
  lemma {:induction false} SelfReferenceExhaustsStack(fuel: nat, r: Ref, st: Session)
    requires r !in st.registry
    requires Deref(st.heap, r).Group? && |Deref(st.heap, r).children| > 0
    requires Deref(st.heap, r).children[0] == Obj(r)
    ensures Clone(fuel, Obj(r), st) == StackExhausted
  {
    if fuel > 0 {
      var o := Deref(st.heap, r);
      SelfReferenceExhaustsStack(fuel - 1, r, st);
      assert CloneSeq(fuel - 1, o.children, st) == StackExhausted;
      assert Clone(fuel, Obj(r), st) == CopyGroup(fuel - 1, r, o.groupKind, o.data, o.children, st);
    }
  }
}
