/**
 Cartesian expansion. The specification is positional: combination `i` takes, on each axis,
 the value at a digit of `i` in the mixed radix of the axis lengths. The nested visit of the
 source is proved to produce the combinations in exactly that order.
 */
module CartesianExpansion {
  import opened CanonicalJson
  import opened JsonPointer
  import opened SchemaProfile
  import opened Normalization
  import opened Sampling

  type CheckedSchema = sc: Schema | Sound(sc) && InScope(sc, sc.root) witness Schema(Null, [])

  /** The planner writes under a schema and normalizes each combination; the revalidator only writes. */
  datatype Mode = Declared | Planned(schema: CheckedSchema)

  function Write(mode: Mode, v: Json, tokens: seq<Text>, x: Json): Option<Json> {
    match mode
    case Declared => Set(v, tokens, x)
    case Planned(sc) => SchemaSet(sc, sc.root, v, tokens, x)
  }

  /** What becomes of a finished combination. */
  function Finish(mode: Mode, v: Json): Option<Json> {
    match mode
    case Declared => if Canonical(v) then Some(v) else None
    case Planned(sc) => Normalize(sc, sc.root, v)
  }

  predicate Proper(axes: seq<Axis>) {
    forall i | 0 <= i < |axes| :: axes[i].values != []
  }

  /** The number of combinations. */
  function Product(axes: seq<Axis>): (n: nat)
    requires Proper(axes)
    ensures n > 0
  {
    if axes == [] then 1
    else
      Positive(|axes[0].values|, Product(axes[1..]));
      |axes[0].values| * Product(axes[1..])
  }

  lemma Positive(a: nat, b: nat)
    requires a > 0 && b > 0
    ensures a * b > 0
  {
  }

  lemma ScalingKeepsOrder(a: int, b: int, p: nat)
    ensures a <= b ==> a * p <= b * p
  {
  }

  /** Splitting an index into the digit of the first axis and the index of the rest. */
  lemma DigitBounds(i: nat, n: nat, p: nat)
    requires p > 0 && i < n * p
    ensures 0 <= i / p < n && 0 <= i % p < p && i == i / p * p + i % p
  {
    ScalingKeepsOrder(n, i / p, p);
  }

  lemma DigitOf(k: nat, j: nat, n: nat, p: nat)
    requires j < p && k < n
    ensures k * p + j < n * p && (k * p + j) / p == k && (k * p + j) % p == j
  {
    var i := k * p + j;
    assert i == i / p * p + i % p;
    assert (k + 1) * p == k * p + p;
    assert (k - 1) * p == k * p - p;
    ScalingKeepsOrder(k + 1, n, p);
    ScalingKeepsOrder(i / p, k - 1, p);
    ScalingKeepsOrder(k + 1, i / p, p);
  }

  /** The digit of axis `j` in combination `i`; the last axis varies fastest. */
  function Digit(axes: seq<Axis>, i: nat, j: nat): (d: nat)
    requires Proper(axes) && i < Product(axes) && j < |axes|
    ensures d < |axes[j].values|
    decreases j
  {
    var p := Product(axes[1..]);
    DigitBounds(i, |axes[0].values|, p);
    if j == 0 then i / p else Digit(axes[1..], i % p, j - 1)
  }

  /** Combination `i` before it is finished: one write per axis, in axis order. */
  function Combine(mode: Mode, axes: seq<Axis>, current: Option<Json>, i: nat): Option<Json>
    requires Proper(axes) && i < Product(axes)
    decreases |axes|
  {
    if axes == [] then current
    else
      var p := Product(axes[1..]);
      DigitBounds(i, |axes[0].values|, p);
      var next := if current.None? then None else Write(mode, current.value, Tokens(axes[0]), axes[0].values[i / p]);
      Combine(mode, axes[1..], next, i % p)
  }

  function At(mode: Mode, axes: seq<Axis>, current: Option<Json>, i: nat): Option<Json>
    requires Proper(axes) && i < Product(axes)
  {
    match Combine(mode, axes, current, i)
    case None => None
    case Some(v) => Finish(mode, v)
  }

  predicate AllDefined(mode: Mode, axes: seq<Axis>, current: Json)
    requires Proper(axes)
  {
    forall i | 0 <= i < Product(axes) :: At(mode, axes, Some(current), i).Some?
  }

  /** All combinations in order, if none of them fails. */
  function Combinations(mode: Mode, axes: seq<Axis>, current: Json): Option<seq<Json>>
    requires Proper(axes)
  {
    if AllDefined(mode, axes, current)
    then Some(seq(Product(axes), i requires 0 <= i < Product(axes) && At(mode, axes, Some(current), i).Some? =>
      At(mode, axes, Some(current), i).value))
    else None
  }

  lemma {:induction false} FailureStays(mode: Mode, axes: seq<Axis>, i: nat)
    requires Proper(axes) && i < Product(axes)
    ensures Combine(mode, axes, None, i).None?
    decreases |axes|
  {
    if axes != [] {
      DigitBounds(i, |axes[0].values|, Product(axes[1..]));
      FailureStays(mode, axes[1..], i % Product(axes[1..]));
    }
  }

  lemma CombineInBlock(mode: Mode, axes: seq<Axis>, current: Json, k: nat, j: nat)
    requires axes != [] && Proper(axes) && k < |axes[0].values| && j < Product(axes[1..])
    ensures k * Product(axes[1..]) + j < Product(axes)
    ensures Combine(mode, axes, Some(current), k * Product(axes[1..]) + j)
         == Combine(mode, axes[1..], Write(mode, current, Tokens(axes[0]), axes[0].values[k]), j)
  {
    DigitOf(k, j, |axes[0].values|, Product(axes[1..]));
  }

  /** The recursion that pushes finished combinations onto one growing list. */
  class Expansion {
    const mode: Mode
    const axes: seq<Axis>
    var combinations: seq<Json>

    constructor (mode: Mode, axes: seq<Axis>)
      ensures this.mode == mode && this.axes == axes && combinations == []
    {
      this.mode, this.axes, combinations := mode, axes, [];
    }

    /** False where the source throws. */
    method Visit(axisIndex: nat, parameters: Json) returns (ok: bool)
      requires Proper(axes) && axisIndex <= |axes|
      modifies this
      ensures ok <==> Combinations(mode, axes[axisIndex..], parameters).Some?
      ensures ok ==> combinations == old(combinations) + Combinations(mode, axes[axisIndex..], parameters).value
      decreases |axes| - axisIndex
    {
      var rest := axes[axisIndex..];
      if axisIndex == |axes| {
        assert At(mode, rest, Some(parameters), 0) == Finish(mode, parameters);
        match Finish(mode, parameters) {
          case None =>
            return false;
          case Some(finished) =>
            combinations := combinations + [finished];
            return true;
        }
      }
      var axis := axes[axisIndex];
      ghost var below, before := axes[axisIndex + 1..], combinations;
      assert rest[1..] == below && rest[0] == axis;
      var k := 0;
      while k < |axis.values|
        invariant k <= |axis.values|
        invariant Listed(mode, rest, parameters, before, combinations, k * Product(below))
      {
        hide Write, Finish, At, Product, Listed;
        var next := Write(mode, parameters, Tokens(axis), axis.values[k]);
        if next.None? {
          BlockFails(mode, rest, parameters, k, 0);
          return false;
        }
        ghost var listed := combinations;
        var child := Visit(axisIndex + 1, next.value);
        if !child {
          ghost var j :| 0 <= j < Product(below) && At(mode, below, next, j).None?;
          BlockFails(mode, rest, parameters, k, j);
          return false;
        }
        BlockListed(mode, rest, parameters, k, next.value, before, listed);
        k := k + 1;
      }
      return true;
    }
  }

  /** The first `n` combinations have been appended to `before`. */
  ghost predicate Listed(mode: Mode, axes: seq<Axis>, current: Json, before: seq<Json>, combinations: seq<Json>, n: nat)
    requires Proper(axes)
  {
    && n <= Product(axes)
    && before <= combinations && |combinations| == |before| + n
    && forall i | 0 <= i < n :: At(mode, axes, Some(current), i) == Some(combinations[|before| + i])
  }

  lemma BlockListed(mode: Mode, axes: seq<Axis>, current: Json, k: nat, next: Json, before: seq<Json>,
      listed: seq<Json>)
    requires axes != [] && Proper(axes) && k < |axes[0].values|
    requires Write(mode, current, Tokens(axes[0]), axes[0].values[k]) == Some(next)
    requires Listed(mode, axes, current, before, listed, k * Product(axes[1..]))
    requires Combinations(mode, axes[1..], next).Some?
    ensures Listed(mode, axes, current, before, listed + Combinations(mode, axes[1..], next).value,
            (k + 1) * Product(axes[1..]))
  {
    hide Write, At, Product;
    var p := Product(axes[1..]);
    var block := Combinations(mode, axes[1..], next).value;
    BlockFits(axes, k);
    forall i | 0 <= i < (k + 1) * p
      ensures At(mode, axes, Some(current), i) == Some((listed + block)[|before| + i])
    {
      if i >= k * p {
        BlockDone(mode, axes, current, k, next, i - k * p);
      }
    }
  }

  lemma BlockFails(mode: Mode, axes: seq<Axis>, current: Json, k: nat, j: nat)
    requires axes != [] && Proper(axes) && k < |axes[0].values| && j < Product(axes[1..])
    requires var next := Write(mode, current, Tokens(axes[0]), axes[0].values[k]);
             next.None? || At(mode, axes[1..], next, j).None?
    ensures !AllDefined(mode, axes, current)
  {
    hide Write, Finish;
    CombineInBlock(mode, axes, current, k, j);
    if Write(mode, current, Tokens(axes[0]), axes[0].values[k]).None? {
      FailureStays(mode, axes[1..], j);
    }
    assert At(mode, axes, Some(current), k * Product(axes[1..]) + j).None?;
  }

  lemma BlockFits(axes: seq<Axis>, k: nat)
    requires axes != [] && Proper(axes) && k < |axes[0].values|
    ensures (k + 1) * Product(axes[1..]) == k * Product(axes[1..]) + Product(axes[1..])
    ensures (k + 1) * Product(axes[1..]) <= Product(axes)
  {
    var p := Product(axes[1..]);
    ScalingKeepsOrder(k + 1, |axes[0].values|, p);
    assert (k + 1) * p == k * p + p;
  }

  lemma BlockDone(mode: Mode, axes: seq<Axis>, current: Json, k: nat, next: Json, j: nat)
    requires axes != [] && Proper(axes) && k < |axes[0].values| && j < Product(axes[1..])
    requires Write(mode, current, Tokens(axes[0]), axes[0].values[k]) == Some(next)
    ensures k * Product(axes[1..]) + j < Product(axes)
    ensures At(mode, axes, Some(current), k * Product(axes[1..]) + j) == At(mode, axes[1..], Some(next), j)
  {
    hide Write, Finish, Combine, Product;
    CombineInBlock(mode, axes, current, k, j);
  }

  method Expand(mode: Mode, axes: seq<Axis>, base: Json) returns (r: Option<seq<Json>>)
    requires Proper(axes)
    ensures r == Combinations(mode, axes, base)
  {
    var expansion := new Expansion(mode, axes);
    assert axes[0..] == axes;
    var ok := expansion.Visit(0, base);
    assert expansion.axes[0..] == axes;
    assert forall c: seq<Json> :: [] + c == c;
    return if ok then Some(expansion.combinations) else None;
  }

  // Counting.

  /**
   The running count with its floor-division guard: it refuses exactly when the product passes
   the limit, and every number it held on the way is within the limit.
   */
  method ExactCount(axes: seq<Axis>, seedBranches: nat, limit: nat) returns (count: Option<nat>, ghost held: seq<nat>)
    requires Proper(axes) && seedBranches > 0 && limit > 0
    ensures count == if Product(axes) * seedBranches <= limit then Some(Product(axes) * seedBranches) else None
    ensures |held| <= |axes| && (count.Some? ==> |held| == |axes|)
    ensures forall k | 0 <= k < |held| :: held[k] == Product(axes[..k + 1]) <= limit
    ensures |held| < |axes| ==> Product(axes[..|held| + 1]) > limit
  {
    var n := 1;
    held := [];
    assert axes[..0] == [];
    var i := 0;
    assert axes[0..] == axes;
    while i < |axes|
      invariant i <= |axes|
      invariant 0 < n <= limit
      invariant n == Product(axes[..i]) && |held| == i
      invariant forall k | 0 <= k < |held| :: held[k] == Product(axes[..k + 1]) <= limit
      invariant Product(axes) == n * Product(axes[i..])
    {
      var length := |axes[i].values|;
      ghost var next, below := n * length, Product(axes[i + 1..]);
      SplitAt(axes, i, n, next);
      hide Product;
      GuardIsExact(n, length, limit);
      if n > limit / length {
        assert next > limit;
        ProductPasses(Product(axes), next, below, seedBranches, limit);
        return None, held;
      }
      n := n * length;
      assert n == next;
      held := held + [n];
      i := i + 1;
    }
    assert n == Product(axes) by {
      assert axes[..|axes|] == axes;
    }
    hide Product;
    GuardIsExact(n, seedBranches, limit);
    if n > limit / seedBranches {
      return None, held;
    }
    return Some(n * seedBranches), held;
  }

  /** One more axis counted. */
  lemma SplitAt(axes: seq<Axis>, i: nat, n: nat, next: nat)
    requires Proper(axes) && i < |axes| && n == Product(axes[..i]) && next == n * |axes[i].values|
    ensures Product(axes[..i + 1]) == next
    ensures n * Product(axes[i..]) == next * Product(axes[i + 1..])
  {
    assert axes[..i + 1] == axes[..i] + [axes[i]];
    ProductOfMore(axes[..i], axes[i]);
    assert axes[i..][1..] == axes[i + 1..];
    Associate(n, |axes[i].values|, Product(axes[i + 1..]));
  }

  lemma {:induction false} ProductOfMore(axes: seq<Axis>, a: Axis)
    requires Proper(axes) && a.values != []
    ensures Product(axes + [a]) == Product(axes) * |a.values|
  {
    if axes == [] {
      assert axes + [a] == [a] && [a][1..] == [];
      assert Product([a][1..]) == 1;
    } else {
      assert (axes + [a])[1..] == axes[1..] + [a] && (axes + [a])[0] == axes[0];
      ProductOfMore(axes[1..], a);
      Associate(|axes[0].values|, Product(axes[1..]), |a.values|);
    }
  }

  lemma Associate(a: nat, b: nat, c: nat)
    ensures a * b * c == a * (b * c)
  {
  }

  lemma GuardIsExact(n: nat, length: nat, limit: nat)
    requires n > 0 && length > 0
    ensures n > limit / length <==> n * length > limit
    ensures n * length > 0
  {
    var q := limit / length;
    var scaled := q * length;
    assert limit == scaled + limit % length;
    ScalingKeepsOrder(1, n, length);
    if n > q {
      ScalingKeepsOrder(q + 1, n, length);
      assert (q + 1) * length == scaled + length;
    } else {
      ScalingKeepsOrder(n, q, length);
    }
  }

  lemma ProductPasses(product: nat, partial: nat, below: nat, branches: nat, limit: nat)
    requires product == partial * below && partial > limit && below > 0 && branches > 0
    ensures product * branches > limit
  {
    ScalingKeepsOrder(1, below, partial);
    ScalingKeepsOrder(1, branches, product);
    assert below * partial == product && branches * product == product * branches;
  }
}
