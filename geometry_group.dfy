/**
 * Draw ranges of a merged buffer geometry and `GeometryGroupUtils.compact`,
 * which fuses ranges that follow one another into one range.
 */
module GeometryGroups {
  import opened Wrappers

  /** `{ start, count, materialIndex? }`. */
  datatype GeometryGroup = GeometryGroup(start: int, count: int, materialIndex: Option<int>)

  /** Where the range stops: the next range continues it when it starts here. */
  function End(g: GeometryGroup): int
  {
    g.start + g.count
  }

  function Sum(gs: seq<GeometryGroup>): int
  {
    if gs == [] then 0 else Sum(gs[..|gs| - 1]) + gs[|gs| - 1].count
  }

  lemma SumSnoc(gs: seq<GeometryGroup>, g: GeometryGroup)
    ensures Sum(gs + [g]) == Sum(gs) + g.count
  {
    assert (gs + [g])[..|gs|] == gs;
  }

  /** No range of the list starts where the one before it ends. */
  ghost predicate Separated(gs: seq<GeometryGroup>)
  {
    forall i :: 0 < i < |gs| ==> gs[i].start != End(gs[i - 1])
  }

  /** The last range of `out` swallows `g` when `g` continues it; otherwise `g` opens a range of its own. */
  function Absorb(out: seq<GeometryGroup>, g: GeometryGroup): seq<GeometryGroup>
  {
    if out != [] && g.start == End(out[|out| - 1]) then
      var last := out[|out| - 1];
      out[..|out| - 1] + [GeometryGroup(last.start, last.count + g.count, None)]
    else
      out + [GeometryGroup(g.start, g.count, None)]
  }

  /** Every range absorbed, left to right, into the ranges built so far. */
  function Merged(gs: seq<GeometryGroup>): seq<GeometryGroup>
  {
    if gs == [] then [] else Absorb(Merged(gs[..|gs| - 1]), gs[|gs| - 1])
  }

  /** `r` could be the merge of `gs`: no more ranges, same bounds and total, no materials, nothing left to fuse. */
  ghost predicate MergeOf(r: seq<GeometryGroup>, gs: seq<GeometryGroup>)
  {
    && |r| <= |gs|
    && (gs != [] ==> r != [] && r[0].start == gs[0].start && End(r[|r| - 1]) == End(gs[|gs| - 1]))
    && Sum(r) == Sum(gs)
    && (forall i :: 0 <= i < |r| ==> r[i].materialIndex == None)
    && Separated(r)
  }

  /**
   * Merging never adds a range, keeps the total count, starts where the input
   * starts and ends where it ends, drops every material and leaves no two
   * neighbouring ranges that could still be fused.
   */
  lemma {:induction false} MergedProperties(gs: seq<GeometryGroup>)
    ensures MergeOf(Merged(gs), gs)
    decreases |gs|
  {
    if gs != [] {
      var prefix := gs[..|gs| - 1];
      MergedProperties(prefix);
      AbsorbStep(Merged(prefix), prefix, gs[|gs| - 1]);
      assert prefix + [gs[|gs| - 1]] == gs;
    }
  }

  /** Absorbing one more range into a merge of `gs` gives a merge of `gs` with that range appended. */
  lemma AbsorbStep(out: seq<GeometryGroup>, gs: seq<GeometryGroup>, g: GeometryGroup)
    requires MergeOf(out, gs)
    ensures MergeOf(Absorb(out, g), gs + [g])
  {
    SumSnoc(gs, g);
    if out != [] && g.start == End(out[|out| - 1]) {
      AbsorbFuses(out, gs, g);
    } else {
      SumSnoc(out, GeometryGroup(g.start, g.count, None));
    }
  }

  /** The fusing case of `AbsorbStep`: the last range grows by the new one's count. */
  lemma AbsorbFuses(out: seq<GeometryGroup>, gs: seq<GeometryGroup>, g: GeometryGroup)
    requires MergeOf(out, gs) && Sum(gs + [g]) == Sum(gs) + g.count
    requires out != [] && g.start == End(out[|out| - 1])
    ensures MergeOf(Absorb(out, g), gs + [g])
  {
    var last := out[|out| - 1];
    var front := out[..|out| - 1];
    assert out == front + [last];
    SumSnoc(front, last);
    SumSnoc(front, GeometryGroup(last.start, last.count + g.count, None));
  }

  lemma MergedStep(gs: seq<GeometryGroup>, g: GeometryGroup)
    ensures Merged(gs + [g]) == Absorb(Merged(gs), g)
  {
    assert (gs + [g])[..|gs|] == gs;
  }

  /** One turn of `compact`'s loop, on the open range `start`/`count` that follows the closed ranges `closed`. */
  lemma AbsorbInto(closed: seq<GeometryGroup>, start: int, count: int, g: GeometryGroup)
    ensures g.start == start + count ==>
      Absorb(closed + [GeometryGroup(start, count, None)], g) == closed + [GeometryGroup(start, count + g.count, None)]
    ensures g.start != start + count ==>
      Absorb(closed + [GeometryGroup(start, count, None)], g) == closed + [GeometryGroup(start, count, None)] + [GeometryGroup(g.start, g.count, None)]
  {
    var out := closed + [GeometryGroup(start, count, None)];
    assert out[..|out| - 1] == closed;
  }

  /** What `compact` returns: nothing for nothing, a lone range as it is, and the merged ranges otherwise. */
  function Compacted(gs: seq<GeometryGroup>): seq<GeometryGroup>
  {
    if |gs| <= 1 then gs else Merged(gs)
  }

  /** `compact` never lengthens the list, keeps the total count, and strips the material once two ranges are involved. */
  lemma CompactedProperties(gs: seq<GeometryGroup>)
    ensures |Compacted(gs)| <= |gs|
    ensures Sum(Compacted(gs)) == Sum(gs)
    ensures |gs| >= 2 ==> forall i :: 0 <= i < |Compacted(gs)| ==> Compacted(gs)[i].materialIndex == None
  {
    MergedProperties(gs);
  }

  /** A JavaScript array that `compact` consumes from the front. */
  class GroupArray {
    var elements: seq<GeometryGroup>

    constructor (elements: seq<GeometryGroup>)
      ensures this.elements == elements
    {
      this.elements := elements;
    }

    /** `shift()`: removes and returns the first element, `undefined` when there is none. */
    method Shift() returns (first: Option<GeometryGroup>)
      modifies this
      ensures old(elements) == [] ==> first == None && elements == []
      ensures old(elements) != [] ==> first == Some(old(elements)[0]) && elements == old(elements)[1..]
    {
      if elements == [] {
        return None;
      }
      first := Some(elements[0]);
      elements := elements[1..];
    }
  }

  /** `GeometryGroupUtils.compact(groups)`; the caller's array loses its first element. */
  method Compact(groups: GroupArray) returns (result: seq<GeometryGroup>)
    modifies groups
    ensures result == Compacted(old(groups.elements))
    ensures groups.elements == if old(groups.elements) == [] then [] else old(groups.elements)[1..]
  {
    var first := groups.Shift();
    if first == None {
      return [];
    }
    var head := first.value;
    if groups.elements == [] {
      return [head];
    }
    var rest := groups.elements;
    ghost var all := [head] + rest;
    assert all == old(groups.elements);
    var start := head.start;
    var count := head.count;
    var position := start + count;
    result := [];
    assert all[..1] == [head];
    for i := 0 to |rest|
      invariant groups.elements == rest
      invariant position == start + count
      invariant result + [GeometryGroup(start, count, None)] == Merged(all[..i + 1])
    {
      var group := rest[i];
      assert all[..i + 2] == all[..i + 1] + [group];
      MergedStep(all[..i + 1], group);
      AbsorbInto(result, start, count, group);
      if group.start == position {
        count := count + group.count;
        position := position + group.count;
      } else {
        result := result + [GeometryGroup(start, count, None)];
        start := group.start;
        count := group.count;
        position := start + count;
      }
    }
    assert all[..|rest| + 1] == all;
    result := result + [GeometryGroup(start, count, None)];
  }

  // ---------------------------------------------------------------------
  // Properties

  /** Ranges already compacted come out of `Merged` as they went in. */
  lemma {:induction false} MergedSeparated(gs: seq<GeometryGroup>)
    requires Separated(gs)
    requires forall i :: 0 <= i < |gs| ==> gs[i].materialIndex == None
    ensures Merged(gs) == gs
    decreases |gs|
  {
    if gs != [] {
      var init := gs[..|gs| - 1];
      MergedSeparated(init);
      assert init + [gs[|gs| - 1]] == gs;
    }
  }

  /** Compacting twice gives what compacting once gives. */
  lemma CompactIdempotent(gs: seq<GeometryGroup>)
    ensures Compacted(Compacted(gs)) == Compacted(gs)
  {
    MergedProperties(gs);
    if |gs| >= 2 && |Merged(gs)| >= 2 {
      MergedSeparated(Merged(gs));
    }
  }

  /** Two ranges that meet become one; two that do not stay apart, both without a material. */
  lemma CompactPair(a: GeometryGroup, b: GeometryGroup)
    ensures b.start == End(a) ==> Compacted([a, b]) == [GeometryGroup(a.start, a.count + b.count, None)]
    ensures b.start != End(a) ==> Compacted([a, b]) == [GeometryGroup(a.start, a.count, None), GeometryGroup(b.start, b.count, None)]
  {
    assert [a, b][..1] == [a];
    assert [a][..0] == [];
    assert Merged([a]) == [GeometryGroup(a.start, a.count, None)];
    assert Merged([a, b]) == Absorb([GeometryGroup(a.start, a.count, None)], b);
  }
}
