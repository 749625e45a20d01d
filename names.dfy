/**
 * Identity names of topology items (`Face.simpleName`, `CurveEdge.simpleName`,
 * `ControlPoint.simpleName`): a kind prefix, the owning item's id and the local
 * index, joined by commas. The numbers are printed in plain decimal, which is
 * how a JavaScript template literal prints an integer of magnitude below 10^21;
 * ids and indices are taken as mathematical integers.
 */
module Names {
  import opened Wrappers

  datatype Kind = FaceKind | EdgeKind | ControlPointKind

  /** The three prefixes; none contains a comma. */
  function Prefix(kind: Kind): string
  {
    match kind
    case FaceKind => "face"
    case EdgeKind => "edge"
    case ControlPointKind => "control-point"
  }

  function DigitChar(d: nat): char
    requires d < 10
  {
    "0123456789"[d]
  }

  predicate IsDigit(c: char)
  {
    '0' <= c <= '9'
  }

  /** Decimal digits of a natural number, most significant first. */
  function NatText(n: nat): (s: string)
    ensures |s| > 0 && forall i :: 0 <= i < |s| ==> IsDigit(s[i])
    decreases n
  {
    if n < 10 then [DigitChar(n)] else NatText(n / 10) + [DigitChar(n % 10)]
  }

  /** An integer as `${n}` prints it below 10^21: a minus sign for negative values. */
  function IntText(n: int): (s: string)
    ensures ',' !in s
  {
    if n < 0 then "-" + NatText(-n) else NatText(n)
  }

  /** `face,<parent>,<i>`, `edge,<parent>,<i>` or `control-point,<parent>,<i>`: a name that reads back as its parts. */
  function SimpleName(kind: Kind, parentId: int, index: int): (name: string)
    ensures ParseName(name) == Some(Identity(kind, parentId, index))
  {
    ParseJoined(kind, parentId, index);
    Prefix(kind) + "," + IntText(parentId) + "," + IntText(index)
  }

  function FaceSimpleName(parentId: int, index: int): (name: string)
    ensures ParseName(name) == Some(Identity(FaceKind, parentId, index))
  {
    SimpleName(FaceKind, parentId, index)
  }

  function CurveEdgeSimpleName(parentId: int, index: int): (name: string)
    ensures ParseName(name) == Some(Identity(EdgeKind, parentId, index))
  {
    SimpleName(EdgeKind, parentId, index)
  }

  function ControlPointSimpleName(parentId: int, index: int): (name: string)
    ensures ParseName(name) == Some(Identity(ControlPointKind, parentId, index))
  {
    SimpleName(ControlPointKind, parentId, index)
  }

  // ---------------------------------------------------------------------
  // A reader for names, used only to show that the encoders are injective.

  datatype Identity = Identity(kind: Kind, parentId: int, index: int)

  /** Splits a string at every comma. */
  function Split(s: string): (parts: seq<string>)
    ensures |parts| > 0
  {
    if s == [] then [""]
    else if s[0] == ',' then [""] + Split(s[1..])
    else var rest := Split(s[1..]); [[s[0]] + rest[0]] + rest[1..]
  }

  function DigitValue(c: char): nat
  {
    if IsDigit(c) then (c as int - '0' as int) else 0
  }

  function ParseNat(s: string): nat
  {
    if s == [] then 0 else ParseNat(s[..|s| - 1]) * 10 + DigitValue(s[|s| - 1])
  }

  predicate AllDigits(s: string)
  {
    |s| > 0 && forall i :: 0 <= i < |s| ==> IsDigit(s[i])
  }

  function ParseInt(s: string): Option<int>
  {
    if AllDigits(s) then Some(ParseNat(s))
    else if |s| > 1 && s[0] == '-' && AllDigits(s[1..]) then Some(0 - ParseNat(s[1..]) as int)
    else None
  }

  function ParseKind(s: string): Option<Kind>
  {
    if s == "face" then Some(FaceKind)
    else if s == "edge" then Some(EdgeKind)
    else if s == "control-point" then Some(ControlPointKind)
    else None
  }

  function ParseName(s: string): Option<Identity>
  {
    var parts := Split(s);
    if |parts| != 3 then None
    else match (ParseKind(parts[0]), ParseInt(parts[1]), ParseInt(parts[2]))
      case (Some(k), Some(p), Some(i)) => Some(Identity(k, p, i))
      case _ => None
  }

  lemma {:induction false} SplitNoComma(a: string)
    requires ',' !in a
    ensures Split(a) == [a]
  {
    if a != [] {
      assert ',' !in a[1..];
      SplitNoComma(a[1..]);
      assert [a[0]] + a[1..] == a;
    }
  }

  lemma {:induction false} SplitAtComma(a: string, b: string)
    requires ',' !in a
    ensures Split(a + "," + b) == [a] + Split(b)
  {
    if a == [] {
      assert a + "," + b == [','] + b;
    } else {
      assert (a + "," + b)[1..] == a[1..] + "," + b;
      assert ',' !in a[1..];
      SplitAtComma(a[1..], b);
      assert [a[0]] + a[1..] == a;
    }
  }

  lemma {:induction false} ParseNatText(n: nat)
    ensures ParseNat(NatText(n)) == n
    decreases n
  {
    var s := NatText(n);
    if n >= 10 {
      assert s[..|s| - 1] == NatText(n / 10);
      ParseNatText(n / 10);
    }
  }

  lemma ParseIntText(n: int)
    ensures ParseInt(IntText(n)) == Some(n)
  {
    if n < 0 {
      ParseNegativeText(-n);
      assert IntText(n) == "-" + NatText(-n);
    } else {
      ParseNatText(n);
    }
  }

  /** A minus sign before the digits reads back as the negated number. */
  lemma ParseNegativeText(m: nat)
    ensures ParseInt("-" + NatText(m)) == Some(-(m as int))
  {
    var s := "-" + NatText(m);
    ParseNatText(m);
    assert s[1..] == NatText(m);
    assert !AllDigits(s) by {
      assert !IsDigit(s[0]);
    }
  }

  /** Reading a name back gives the kind, the parent id and the index it was made from. */
  lemma ParseJoined(kind: Kind, parentId: int, index: int)
    ensures ParseName(Prefix(kind) + "," + IntText(parentId) + "," + IntText(index)) == Some(Identity(kind, parentId, index))
  {
    var k, p, i := Prefix(kind), IntText(parentId), IntText(index);
    assert ',' !in k;
    SplitNoComma(i);
    SplitAtComma(p, i);
    SplitAtComma(k, p + "," + i);
    assert k + "," + p + "," + i == k + "," + (p + "," + i);
    ParseIntText(parentId);
    ParseIntText(index);
  }

  /** Different (kind, parent, index) triples never share a name. */
  lemma SimpleNameInjective(k1: Kind, p1: int, i1: int, k2: Kind, p2: int, i2: int)
    ensures SimpleName(k1, p1, i1) == SimpleName(k2, p2, i2) <==> (k1, p1, i1) == (k2, p2, i2)
  {
  }

  /** Names of different kinds never collide, whatever the parents and indices. */
  lemma KindsNeverCollide(p: int, i: int, q: int, j: int)
    ensures FaceSimpleName(p, i) != CurveEdgeSimpleName(q, j)
    ensures FaceSimpleName(p, i) != ControlPointSimpleName(q, j)
    ensures CurveEdgeSimpleName(p, i) != ControlPointSimpleName(q, j)
  {
    SimpleNameInjective(FaceKind, p, i, EdgeKind, q, j);
    SimpleNameInjective(FaceKind, p, i, ControlPointKind, q, j);
    SimpleNameInjective(EdgeKind, p, i, ControlPointKind, q, j);
  }
}
