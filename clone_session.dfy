/**
 * `Clone` as the source runs it: one registry shared by every recursive call
 * and updated in place, and new sets, maps and LOD levels filled by loops. Each
 * method is proved to do what the functions of module `Clone` describe.
 */
module CloneSession {
  import opened Spec = Clone

  /** What a call hands back: the clone, or the error it throws. */
  datatype Outcome<T> = Ok(value: T) | Unsupported | Overflow

  /** The outcome agrees with the specification, and so does the session it leaves when it succeeds. */
  ghost predicate Matches<T>(o: Outcome<T>, c: Cloned<T>, now: Session)
  {
    match c
    case Done(v, st) => o == Ok(v) && now == st
    case UnsupportedDeepClone => o == Unsupported
    case StackExhausted => o == Overflow
  }

  /** The finished prefix `done` followed by whatever the rest of the work gives. */
  function Then<T>(done: seq<T>, rest: Cloned<seq<T>>): Cloned<seq<T>>
  {
    match rest
    case Done(xs, st) => Done(done + xs, st)
    case UnsupportedDeepClone => UnsupportedDeepClone
    case StackExhausted => StackExhausted
  }

  lemma ThenPrepend<T>(done: seq<T>, x: T, rest: Cloned<seq<T>>)
    ensures Then(done, Prepend(x, rest)) == Then(done + [x], rest)
  {
    if rest.Done? {
      assert done + ([x] + rest.value) == (done + [x]) + rest.value;
    }
  }

  lemma ThenBounds<T>(rest: Cloned<seq<T>>, done: seq<T>, st: Session)
    ensures Then([], rest) == rest
    ensures Then(done, Done([], st)) == Done(done, st)
  {
    if rest.Done? {
      assert [] + rest.value == rest.value;
    }
    assert done + [] == done;
  }

  /** One turn of a loop over `xs`: the clone of `xs[i]` moves the remaining work one element on, or ends it. */
  lemma SeqStep(whole: Cloned<seq<Value>>, done: seq<Value>, fuel: nat, xs: seq<Value>, i: nat,
                st: Session, c: Outcome<Value>, now: Session)
    requires i < |xs|
    requires whole == Then(done, CloneSeq(fuel, xs[i..], st))
    requires Matches(c, Spec.Clone(fuel, xs[i], st), now)
    ensures c.Ok? ==> whole == Then(done + [c.value], CloneSeq(fuel, xs[i + 1..], now))
    ensures c.Unsupported? ==> whole == UnsupportedDeepClone
    ensures c.Overflow? ==> whole == StackExhausted
  {
    assert xs[i..][0] == xs[i] && xs[i..][1..] == xs[i + 1..];
    if c.Ok? {
      ThenPrepend(done, c.value, CloneSeq(fuel, xs[i + 1..], now));
    }
  }

  /** One turn of the Map loop: the key's clone and then the value's clone move the remaining work one entry on, or end it. */
  lemma EntriesStep(whole: Cloned<seq<(Value, Value)>>, done: seq<(Value, Value)>, fuel: nat, es: seq<(Value, Value)>, i: nat,
                    st: Session, k: Outcome<Value>, mid: Session, x: Outcome<Value>, now: Session)
    requires i < |es|
    requires whole == Then(done, CloneEntries(fuel, es[i..], st))
    requires Matches(k, Spec.Clone(fuel, es[i].0, st), mid)
    requires k.Ok? ==> Matches(x, Spec.Clone(fuel, es[i].1, mid), now)
    ensures k.Ok? && x.Ok? ==> whole == Then(done + [(k.value, x.value)], CloneEntries(fuel, es[i + 1..], now))
    ensures k.Unsupported? || (k.Ok? && x.Unsupported?) ==> whole == UnsupportedDeepClone
    ensures k.Overflow? || (k.Ok? && x.Overflow?) ==> whole == StackExhausted
  {
    assert es[i..][0] == es[i] && es[i..][1..] == es[i + 1..];
    if k.Ok? && x.Ok? {
      ThenPrepend(done, (k.value, x.value), CloneEntries(fuel, es[i + 1..], now));
    }
  }

  /** Rekeying one more entry sets its key to the new value after the earlier pairs. */
  lemma RekeySnoc(entries: seq<(Value, Value)>, clones: seq<Value>, item: Value, i: nat)
    requires i < |entries| && |clones| == i
    ensures MapOf(Rekey(entries[..i + 1], clones + [item]))
         == MapSet(MapOf(Rekey(entries[..i], clones)), entries[i].0, item)
  {
    var front := Rekey(entries[..i], clones);
    RekeyAppend(entries, clones, item, i);
    MapOfSnoc(front, (entries[i].0, item));
  }

  /** Rekeying one more entry appends one pair. */
  lemma RekeyAppend(entries: seq<(Value, Value)>, clones: seq<Value>, item: Value, i: nat)
    requires i < |entries| && |clones| == i
    ensures Rekey(entries[..i + 1], clones + [item]) == Rekey(entries[..i], clones) + [(entries[i].0, item)]
  {
    var pairs := Rekey(entries[..i + 1], clones + [item]);
    var front := Rekey(entries[..i], clones);
    forall k | 0 <= k < i
      ensures pairs[k] == front[k]
    {
      assert entries[..i + 1][k] == entries[..i][k];
      assert (clones + [item])[k] == clones[k];
    }
    assert entries[..i + 1][i] == entries[i] && (clones + [item])[i] == item;
  }

  /** Building a map from one more pair sets that pair last. */
  lemma MapOfSnoc(front: seq<(Value, Value)>, last: (Value, Value))
    ensures MapOf(front + [last]) == MapSet(MapOf(front), last.0, last.1)
  {
    assert (front + [last])[..|front|] == front;
  }

  /** The levels of detail of an item with their objects cloned in order: the distances stay. */
  ghost function LevelEntries(fuel: nat, levels: seq<LodLevel>, st: Session): Cloned<seq<LodLevel>>
  {
    match CloneSeq(fuel, LevelObjects(levels), st)
    case Done(cs, st1) => Done(Relevel(levels, cs), st1)
    case UnsupportedDeepClone => UnsupportedDeepClone
    case StackExhausted => StackExhausted
  }

  /** How the outcome of cloning the levels decides the copy of the whole item. */
  lemma ItemOutcome(inner: nat, source: Ref, kind: ItemKind, data: nat, disposable: bool, levels: seq<LodLevel>,
                    st: Session, cloned: Outcome<seq<LodLevel>>, now: Session)
    requires Matches(cloned, LevelEntries(inner, levels, st), now)
    ensures cloned.Ok? ==> CopyItem(inner, source, kind, data, disposable, levels, st)
                           == Alloc(now, source, Item(kind, data, disposable, cloned.value))
    ensures cloned.Unsupported? ==> CopyItem(inner, source, kind, data, disposable, levels, st) == UnsupportedDeepClone
    ensures cloned.Overflow? ==> CopyItem(inner, source, kind, data, disposable, levels, st) == StackExhausted
  {
  }

  /** The entries of a weak-value map with its values cloned in order: the keys stay, the values are replaced. */
  ghost function WeakEntries(fuel: nat, entries: seq<(Value, Value)>, st: Session): Cloned<seq<(Value, Value)>>
  {
    match CloneSeq(fuel, WeakValues(entries), st)
    case Done(cs, st1) => Done(MapOf(Rekey(entries, cs)), st1)
    case UnsupportedDeepClone => UnsupportedDeepClone
    case StackExhausted => StackExhausted
  }

  /** How the outcome of cloning the weak values decides the copy of the whole weak-value map. */
  lemma WeakValueMapOutcome(inner: nat, source: Ref, entries: seq<(Value, Value)>, st: Session,
                            cloned: Outcome<seq<(Value, Value)>>, now: Session)
    requires Matches(cloned, WeakEntries(inner, entries, st), now)
    ensures cloned.Ok? ==> CopyWeakValueMap(inner, source, entries, st) == Alloc(now, source, WeakValueMap(cloned.value))
    ensures cloned.Unsupported? ==> CopyWeakValueMap(inner, source, entries, st) == UnsupportedDeepClone
    ensures cloned.Overflow? ==> CopyWeakValueMap(inner, source, entries, st) == StackExhausted
  {
  }

  /** The objects and the registry of one clone operation. */
  class Cloner {
    var heap: seq<Object>
    var registry: map<Ref, Ref>

    function Current(): Session
      reads this
    {
      Session(heap, registry)
    }

    constructor (heap: seq<Object>)
      ensures Current() == Session(heap, map[])
    {
      this.heap := heap;
      registry := map[];
    }

    /** Stores the finished copy of `source` and registers it. */
    method Allocate(source: Ref, copy: Object) returns (v: Value)
      modifies this
      ensures Alloc(old(Current()), source, copy) == Done(v, Current())
    {
      v := Obj(|heap|);
      heap := heap + [copy];
      registry := registry[source := v.ref];
    }

    /** `Clone(object, registry)`: numbers are returned, strings refused, objects looked up before they are copied. */
    method Clone(fuel: nat, v: Value) returns (r: Outcome<Value>)
      modifies this
      ensures Matches(r, Spec.Clone(fuel, v, old(Current())), Current())
      decreases fuel, 2
    {
      if fuel == 0 {
        return Overflow;
      }
      match v {
        case Num(_) =>
          return Ok(v);
        case Str(_) =>
          return Unsupported;
        case Obj(source) =>
          if source in registry {
            return Ok(Obj(registry[source]));
          }
          r := CloneObject(fuel, source);
      }
    }

    /** The dispatch on the kind of an object met for the first time. */
    method CloneObject(fuel: nat, source: Ref) returns (r: Outcome<Value>)
      requires fuel > 0 && source !in registry
      modifies this
      ensures Matches(r, Spec.Clone(fuel, Obj(source), old(Current())), Current())
      decreases fuel, 1
    {
      match Deref(heap, source) {
        case Item(kind, data, disposable, levels) =>
          r := CloneItem(fuel, source, kind, data, disposable, levels);
        case Group(kind, data, children) =>
          r := CloneGroup(fuel, source, kind, data, children);
        case Leaf(kind, data) =>
          var copy := Allocate(source, Leaf(kind, data));
          return Ok(copy);
        case KernelItem(_) =>
          registry := registry[source := source];
          return Ok(Obj(source));
        case RefCounter(_) =>
          var copy := Allocate(source, RefCounter([]));
          return Ok(copy);
        case Snap(_) =>
          registry := registry[source := source];
          return Ok(Obj(source));
        case SetObject(elements) =>
          r := CloneSet(fuel, source, elements);
        case MapObject(entries) =>
          r := CloneMap(fuel, source, entries);
        case WeakValueMap(entries) =>
          r := CloneWeakValueMap(fuel, source, entries);
        case OtherObject =>
          return Unsupported;
      }
    }

    /** A solid or space instance: its LOD levels are cloned, then the copy is registered. */
    method CloneItem(fuel: nat, source: Ref, kind: ItemKind, data: nat, disposable: bool, levels: seq<LodLevel>)
      returns (r: Outcome<Value>)
      requires fuel > 0
      modifies this
      ensures Matches(r, CopyItem(fuel - 1, source, kind, data, disposable, levels, old(Current())), Current())
      decreases fuel, 0
    {
      ghost var start := Current();
      var cloned := CloneLevels(fuel - 1, levels);
      ItemOutcome(fuel - 1, source, kind, data, disposable, levels, start, cloned, Current());
      match cloned {
        case Ok(newLevels) =>
          var copy := Allocate(source, Item(kind, data, disposable, newLevels));
          return Ok(copy);
        case Unsupported => return Unsupported;
        case Overflow => return Overflow;
      }
    }

    /** A group: its children are cloned in order, then the copy is registered. */
    method CloneGroup(fuel: nat, source: Ref, kind: GroupKind, data: nat, children: seq<Value>)
      returns (r: Outcome<Value>)
      requires fuel > 0
      modifies this
      ensures Matches(r, CopyGroup(fuel - 1, source, kind, data, children, old(Current())), Current())
      decreases fuel, 0
    {
      var cloned := CloneChildren(fuel - 1, children);
      match cloned {
        case Ok(newChildren) =>
          var copy := Allocate(source, Group(kind, data, newChildren));
          return Ok(copy);
        case Unsupported => return Unsupported;
        case Overflow => return Overflow;
      }
    }

    method CloneSet(fuel: nat, source: Ref, elements: seq<Value>) returns (r: Outcome<Value>)
      requires fuel > 0
      modifies this
      ensures Matches(r, CopySet(fuel - 1, source, elements, old(Current())), Current())
      decreases fuel, 0
    {
      var cloned := CloneSetElements(fuel - 1, elements);
      match cloned {
        case Ok(newElements) =>
          var copy := Allocate(source, SetObject(newElements));
          return Ok(copy);
        case Unsupported => return Unsupported;
        case Overflow => return Overflow;
      }
    }

    method CloneMap(fuel: nat, source: Ref, entries: seq<(Value, Value)>) returns (r: Outcome<Value>)
      requires fuel > 0
      modifies this
      ensures Matches(r, CopyMap(fuel - 1, source, entries, old(Current())), Current())
      decreases fuel, 0
    {
      var cloned := CloneMapEntries(fuel - 1, entries);
      match cloned {
        case Ok(newEntries) =>
          var copy := Allocate(source, MapObject(newEntries));
          return Ok(copy);
        case Unsupported => return Unsupported;
        case Overflow => return Overflow;
      }
    }

    method CloneWeakValueMap(fuel: nat, source: Ref, entries: seq<(Value, Value)>) returns (r: Outcome<Value>)
      requires fuel > 0
      modifies this
      ensures Matches(r, CopyWeakValueMap(fuel - 1, source, entries, old(Current())), Current())
      decreases fuel, 0
    {
      ghost var start := Current();
      var cloned := CloneWeakValues(fuel - 1, entries);
      WeakValueMapOutcome(fuel - 1, source, entries, start, cloned, Current());
      match cloned {
        case Ok(newEntries) =>
          var copy := Allocate(source, WeakValueMap(newEntries));
          return Ok(copy);
        case Unsupported => return Unsupported;
        case Overflow => return Overflow;
      }
    }

    /** `for (const child of object.children) result.add(Clone(child, registry))`. */
    method CloneChildren(fuel: nat, children: seq<Value>) returns (r: Outcome<seq<Value>>)
      modifies this
      ensures Matches(r, CloneSeq(fuel, children, old(Current())), Current())
      decreases fuel, 3
    {
      ghost var whole := CloneSeq(fuel, children, Current());
      var added: seq<Value> := [];
      assert children[0..] == children;
      ThenBounds(whole, added, Current());
      for i := 0 to |children|
        invariant whole == Then(added, CloneSeq(fuel, children[i..], Current()))
      {
        ghost var before := Current();
        var c := Clone(fuel, children[i]);
        SeqStep(whole, added, fuel, children, i, before, c, Current());
        match c {
          case Ok(x) => added := added + [x];
          case Unsupported => return Unsupported;
          case Overflow => return Overflow;
        }
      }
      ThenBounds(whole, added, Current());
      return Ok(added);
    }

    /** `for (const level of object.lod.levels) result.lod.addLevel(Clone(level.object, registry), level.distance)`. */
    method CloneLevels(fuel: nat, levels: seq<LodLevel>) returns (r: Outcome<seq<LodLevel>>)
      modifies this
      ensures Matches(r, LevelEntries(fuel, levels, old(Current())), Current())
      decreases fuel, 3
    {
      var nodes := LevelObjects(levels);
      ghost var whole := CloneSeq(fuel, nodes, Current());
      ghost var clones: seq<Value> := [];
      assert nodes[0..] == nodes;
      ThenBounds(whole, clones, Current());
      var added: seq<LodLevel> := [];
      for i := 0 to |levels|
        invariant |clones| == i && added == Relevel(levels[..i], clones)
        invariant whole == Then(clones, CloneSeq(fuel, nodes[i..], Current()))
      {
        ghost var before := Current();
        var c := Clone(fuel, levels[i].node);
        SeqStep(whole, clones, fuel, nodes, i, before, c, Current());
        match c {
          case Ok(x) =>
            clones := clones + [x];
            added := added + [LodLevel(x, levels[i].distance)];
            assert added == Relevel(levels[..i + 1], clones);
          case Unsupported => return Unsupported;
          case Overflow => return Overflow;
        }
      }
      assert levels[..|levels|] == levels;
      ThenBounds(whole, clones, Current());
      return Ok(added);
    }

    /** `for (const item of object.values()) result.add(Clone(item, registry))`. */
    method CloneSetElements(fuel: nat, elements: seq<Value>) returns (r: Outcome<seq<Value>>)
      modifies this
      ensures var c := CloneSeq(fuel, elements, old(Current()));
        match c
        case Done(cs, st) => r == Ok(SetOf(cs)) && Current() == st
        case UnsupportedDeepClone => r == Unsupported
        case StackExhausted => r == Overflow
      decreases fuel, 3
    {
      ghost var whole := CloneSeq(fuel, elements, Current());
      ghost var clones: seq<Value> := [];
      assert elements[0..] == elements;
      ThenBounds(whole, clones, Current());
      var result: seq<Value> := [];
      for i := 0 to |elements|
        invariant result == SetOf(clones)
        invariant whole == Then(clones, CloneSeq(fuel, elements[i..], Current()))
      {
        ghost var before := Current();
        var c := Clone(fuel, elements[i]);
        SeqStep(whole, clones, fuel, elements, i, before, c, Current());
        match c {
          case Ok(x) =>
            assert (clones + [x])[..|clones|] == clones;
            clones := clones + [x];
            result := SetAdd(result, x);
          case Unsupported => return Unsupported;
          case Overflow => return Overflow;
        }
      }
      ThenBounds(whole, clones, Current());
      return Ok(result);
    }

    /** `for (const [key, item] of object) result.set(Clone(key, registry), Clone(item, registry))`. */
    method CloneMapEntries(fuel: nat, entries: seq<(Value, Value)>) returns (r: Outcome<seq<(Value, Value)>>)
      modifies this
      ensures var c := CloneEntries(fuel, entries, old(Current()));
        match c
        case Done(cs, st) => r == Ok(MapOf(cs)) && Current() == st
        case UnsupportedDeepClone => r == Unsupported
        case StackExhausted => r == Overflow
      decreases fuel, 3
    {
      ghost var whole := CloneEntries(fuel, entries, Current());
      ghost var clones: seq<(Value, Value)> := [];
      assert entries[0..] == entries;
      ThenBounds(whole, clones, Current());
      var result: seq<(Value, Value)> := [];
      for i := 0 to |entries|
        invariant result == MapOf(clones)
        invariant whole == Then(clones, CloneEntries(fuel, entries[i..], Current()))
      {
        ghost var before := Current();
        var k := Clone(fuel, entries[i].0);
        ghost var mid := Current();
        match k {
          case Ok(key) =>
            var x := Clone(fuel, entries[i].1);
            EntriesStep(whole, clones, fuel, entries, i, before, k, mid, x, Current());
            match x {
              case Ok(item) =>
                assert (clones + [(key, item)])[..|clones|] == clones;
                clones := clones + [(key, item)];
                result := MapSet(result, key, item);
              case Unsupported => return Unsupported;
              case Overflow => return Overflow;
            }
          case Unsupported =>
            EntriesStep(whole, clones, fuel, entries, i, before, k, mid, Unsupported, mid);
            return Unsupported;
          case Overflow =>
            EntriesStep(whole, clones, fuel, entries, i, before, k, mid, Overflow, mid);
            return Overflow;
        }
      }
      ThenBounds(whole, clones, Current());
      return Ok(result);
    }

    /** `for (const [key, item] of object) result.set(key, Clone(item, registry))`. */
    method CloneWeakValues(fuel: nat, entries: seq<(Value, Value)>) returns (r: Outcome<seq<(Value, Value)>>)
      modifies this
      ensures Matches(r, WeakEntries(fuel, entries, old(Current())), Current())
      decreases fuel, 3
    {
      var items := WeakValues(entries);
      ghost var whole := CloneSeq(fuel, items, Current());
      ghost var clones: seq<Value> := [];
      assert items[0..] == items;
      ThenBounds(whole, clones, Current());
      var result: seq<(Value, Value)> := [];
      for i := 0 to |entries|
        invariant |clones| == i
        invariant result == MapOf(Rekey(entries[..i], clones))
        invariant whole == Then(clones, CloneSeq(fuel, items[i..], Current()))
      {
        ghost var before := Current();
        var x := Clone(fuel, entries[i].1);
        SeqStep(whole, clones, fuel, items, i, before, x, Current());
        match x {
          case Ok(item) =>
            RekeySnoc(entries, clones, item, i);
            clones := clones + [item];
            result := MapSet(result, entries[i].0, item);
          case Unsupported => return Unsupported;
          case Overflow => return Overflow;
        }
      }
      assert entries[..|entries|] == entries;
      ThenBounds(whole, clones, Current());
      return Ok(result);
    }
  }
}
