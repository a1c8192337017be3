/** The batching of `_save_to_sqlite`: the slices `rows[i:i + b]` for `i` in
    `range(0, len(rows), b)`, each loaded by one `executemany` and followed by
    one commit. */
module Batching {

  /** The slices, front to back. Python clamps the last slice at the end. */
  function Chunks<T>(xs: seq<T>, b: nat): (cs: seq<seq<T>>)
    requires b > 0
    decreases |xs|
  {
    if |xs| == 0 then []
    else if |xs| <= b then [xs]
    else [xs[..b]] + Chunks(xs[b..], b)
  }

  /** The slices joined back together. */
  function Flatten<T>(cs: seq<seq<T>>): seq<T> {
    if cs == [] then [] else cs[0] + Flatten(cs[1..])
  }

  function Min(a: int, b: int): int {
    if a <= b then a else b
  }

  /** Batching loses, duplicates and reorders nothing. */
  lemma {:induction false} ChunksFlatten<T>(xs: seq<T>, b: nat)
    requires b > 0
    ensures Flatten(Chunks(xs, b)) == xs
    decreases |xs|
  {
    if |xs| == 0 {
    } else if |xs| <= b {
      assert Chunks(xs, b) == [xs];
      assert Flatten([xs]) == xs + Flatten([xs][1..]);
    } else {
      var cs := Chunks(xs, b);
      ChunksFlatten(xs[b..], b);
      assert cs[1..] == Chunks(xs[b..], b);
      assert xs == xs[..b] + xs[b..];
    }
  }

  /** Every slice is non-empty and at most `b` long, and only the last may be
      shorter than `b`. */
  lemma {:induction false} ChunksShape<T>(xs: seq<T>, b: nat)
    requires b > 0
    ensures forall i :: 0 <= i < |Chunks(xs, b)| ==> 0 < |Chunks(xs, b)[i]| <= b
    ensures forall i :: 0 <= i < |Chunks(xs, b)| - 1 ==> |Chunks(xs, b)[i]| == b
    decreases |xs|
  {
    if |xs| > b {
      ChunksShape(xs[b..], b);
      var cs := Chunks(xs, b);
      assert forall i :: 1 <= i < |cs| ==> cs[i] == Chunks(xs[b..], b)[i - 1];
    }
  }

  /** There are ceil(|xs| / b) slices, so none for no rows. */
  lemma {:induction false} ChunksCount<T>(xs: seq<T>, b: nat)
    requires b > 0
    ensures |Chunks(xs, b)| == (|xs| + b - 1) / b
    ensures |xs| == 0 <==> |Chunks(xs, b)| == 0
    decreases |xs|
  {
    if |xs| == 0 {
    } else if |xs| <= b {
      DivOne(|xs| + b - 1, b);
    } else {
      ChunksCount(xs[b..], b);
      assert |Chunks(xs, b)| == 1 + |Chunks(xs[b..], b)|;
      DivShift(|xs| + b - 1, b);
    }
  }

  /** Euclidean division is determined by quotient and remainder. */
  lemma DivUnique(n: int, b: int, q: int, r: int)
    requires 0 < b && 0 <= r < b && n == q * b + r
    ensures n / b == q
  {
    var q', r' := n / b, n % b;
    assert n == q' * b + r';
    var d := q - q';
    assert d * b == r' - r;
    if d >= 1 {
      MulAtLeast(d, b);
    } else if d <= -1 {
      MulAtLeast(-d, b);
    }
  }

  /** Quotient and remainder of a natural number, both natural. */
  lemma DivMod(f: nat, b: nat) returns (k: nat, r: nat)
    requires b > 0
    ensures k == f / b && r == f % b && f == k * b + r && r < b
  {
    k, r := f / b, f % b;
  }

  /** The slice before slice `k` starts `b` elements earlier. */
  lemma MulStep(k: nat, b: nat) returns (p: nat)
    requires k >= 1
    ensures p == (k - 1) * b && p + b == k * b
  {
    p := (k - 1) * b;
  }

  lemma MulAtLeast(d: int, b: int)
    requires d >= 1 && b > 0
    ensures d * b >= b
  {
    assert d * b == (d - 1) * b + b;
    assert (d - 1) * b >= 0;
  }

  lemma DivMonotone(a: int, c: int, b: int)
    requires 0 < b && a <= c
    ensures a / b <= c / b
  {
    var qa, ra := a / b, a % b;
    var qc, rc := c / b, c % b;
    if qa > qc {
      MulAtLeast(qa - qc, b);
    }
  }

  lemma MulMonotone(j: int, k: int, b: int)
    requires 0 <= j <= k && 0 < b
    ensures j * b <= k * b
  {
    if j < k {
      MulAtLeast(k - j, b);
      assert k * b - j * b == (k - j) * b;
    }
  }

  /** Element `f` lies in slice `f / b`, at offset `f % b`. */
  lemma ChunkOf<T>(xs: seq<T>, b: nat, f: nat)
    requires b > 0 && f < |xs|
    ensures f / b < |Chunks(xs, b)|
    ensures (f / b) * b + f % b == f
    ensures f % b < |Chunks(xs, b)[f / b]|
    ensures Chunks(xs, b)[f / b][f % b] == xs[f]
  {
    var k, r := DivMod(f, b);
    ChunksCount(xs, b);
    DivMonotone(f + b, |xs| + b - 1, b);
    DivShift(f + b, b);
    assert k < |Chunks(xs, b)|;
    var p := ChunkAt(xs, b, k);
    var c := Chunks(xs, b)[k];
    assert p + r < Min(p + b, |xs|);
    assert c[r] == xs[p + r];
  }

  lemma DivOne(n: int, b: int)
    requires 0 < b <= n < 2 * b
    ensures n / b == 1
  {
    DivUnique(n, b, 1, n - b);
  }

  lemma DivShift(n: int, b: int)
    requires 0 < b <= n
    ensures (n - b) / b + 1 == n / b
  {
    var q, r := (n - b) / b, (n - b) % b;
    assert n == (q + 1) * b + r;
    DivUnique(n, b, q + 1, r);
  }

  /** Slice `k` is `xs[k * b .. min(k * b + b, |xs|)]`, the slice the loop
      takes at `i = k * b`. */
  lemma {:induction false} ChunkAt<T>(xs: seq<T>, b: nat, k: nat) returns (p: nat)
    requires b > 0 && k < |Chunks(xs, b)|
    ensures p == k * b && p < |xs|
    ensures Chunks(xs, b)[k] == xs[p .. Min(p + b, |xs|)]
    decreases |xs|
  {
    var cs := Chunks(xs, b);
    if k == 0 {
      p := 0;
      assert cs[0] == xs[..Min(b, |xs|)];
    } else {
      var rest := xs[b..];
      assert |xs| > b;
      assert cs[k] == Chunks(rest, b)[k - 1];
      var p' := ChunkAt(rest, b, k - 1);
      var q := MulStep(k, b);
      p := p' + b;
      assert rest[p' .. Min(p' + b, |rest|)] == xs[p .. Min(p + b, |xs|)];
    }
  }

  /** The slices before slice `k` cover exactly `xs[..k * b]`. */
  lemma {:induction false} ChunksBefore<T>(xs: seq<T>, b: nat, k: nat)
    requires b > 0 && k < |Chunks(xs, b)|
    ensures k * b < |xs| && Flatten(Chunks(xs, b)[..k]) == xs[..k * b]
    decreases |xs|
  {
    var cs := Chunks(xs, b);
    var p0 := ChunkAt(xs, b, k);
    if k == 0 {
      assert cs[..0] == [];
    } else {
      var rest := xs[b..];
      assert |xs| > b;
      var p := MulStep(k, b);
      assert cs[1..] == Chunks(rest, b);
      ChunksBefore(rest, b, k - 1);
      assert cs[..k] == [cs[0]] + Chunks(rest, b)[..k - 1];
      assert Flatten(cs[..k]) == cs[0] + Flatten(Chunks(rest, b)[..k - 1]);
      assert xs[..p + b] == xs[..b] + rest[..p];
    }
  }

  /** The slice holding element `f` of `xs`: it is slice `f / b`; the part of
      it before `f` is `xs[f - f % b .. f]`, and the slices before it make up
      `xs[..f - f % b]`. */
  lemma SliceAround<T>(xs: seq<T>, b: nat, f: nat)
    requires b > 0 && f < |xs|
    ensures f % b <= f && f / b < |Chunks(xs, b)|
    ensures f % b < |Chunks(xs, b)[f / b]| && Chunks(xs, b)[f / b][f % b] == xs[f]
    ensures Chunks(xs, b)[f / b][..f % b] == xs[f - f % b .. f]
    ensures Flatten(Chunks(xs, b)[..f / b]) == xs[..f - f % b]
    ensures Flatten(Chunks(xs, b)[..f / b]) + Chunks(xs, b)[f / b][..f % b] == xs[..f]
  {
    var k, r := DivMod(f, b);
    ChunkOf(xs, b, f);
    var p := ChunkAt(xs, b, k);
    ChunksBefore(xs, b, k);
    var c := Chunks(xs, b)[k];
    assert p == f - r;
    assert c[..r] == xs[f - r .. f];
    assert xs[..f - r] + xs[f - r .. f] == xs[..f];
  }

  /** An element of one of the slices is an element of their concatenation. */
  lemma {:induction false} InFlatten<T>(cs: seq<seq<T>>, j: nat, i: nat)
    requires j < |cs| && i < |cs[j]|
    ensures cs[j][i] in Flatten(cs)
    decreases |cs|
  {
    if j == 0 {
      assert Flatten(cs) == cs[0] + Flatten(cs[1..]);
      assert Flatten(cs)[i] == cs[0][i];
    } else {
      InFlatten(cs[1..], j - 1, i);
      assert Flatten(cs) == cs[0] + Flatten(cs[1..]);
    }
  }

  /** Position of the first element that fails `ok`, or `|xs|` when all pass. */
  function FirstFail<T>(xs: seq<T>, ok: T -> bool): (i: nat)
    ensures i <= |xs|
    ensures i < |xs| ==> !ok(xs[i])
    ensures forall j :: 0 <= j < i ==> ok(xs[j])
    decreases |xs|
  {
    if xs == [] then 0
    else if !ok(xs[0]) then 0
    else
      var i := FirstFail(xs[1..], ok);
      assert forall j :: 1 <= j < |xs| ==> xs[j] == xs[1..][j - 1];
      1 + i
  }

  /** The first failure is determined by everything before it passing. */
  lemma FirstFailIs<T>(xs: seq<T>, ok: T -> bool, k: nat)
    requires k <= |xs| && (k < |xs| ==> !ok(xs[k]))
    requires forall j :: 0 <= j < k ==> ok(xs[j])
    ensures FirstFail(xs, ok) == k
  {
  }

  /** Whether a whole slice passes `ok`. */
  function SlicePasses<T>(ok: T -> bool): seq<T> -> bool {
    c => FirstFail(c, ok) == |c|
  }

  /** Slicing moves the first failing element into the first failing slice:
      with `f` the first element that fails, the first failing slice is
      number `f / b`, and it fails at offset `f % b`. */
  lemma FailingSlice<T>(xs: seq<T>, b: nat, ok: T -> bool)
    requires b > 0
    ensures var f := FirstFail(xs, ok);
      FirstFail(Chunks(xs, b), SlicePasses(ok)) == (if f == |xs| then |Chunks(xs, b)| else f / b)
    ensures var f := FirstFail(xs, ok); var cs := Chunks(xs, b);
      f < |xs| ==> f / b < |cs| && FirstFail(cs[f / b], ok) == f % b
  {
    var f := FirstFail(xs, ok);
    var cs := Chunks(xs, b);
    if f == |xs| {
      ChunksFlatten(xs, b);
      forall j | 0 <= j < |cs| ensures SlicePasses(ok)(cs[j]) {
        forall i | 0 <= i < |cs[j]| ensures ok(cs[j][i]) {
          InFlatten(cs, j, i);
        }
      }
      FirstFailIs(cs, SlicePasses(ok), |cs|);
    } else {
      SliceAround(xs, b, f);
      var k, r := DivMod(f, b);
      var c := cs[k];
      forall j | 0 <= j < k ensures SlicePasses(ok)(cs[j]) {
        forall i | 0 <= i < |cs[j]| ensures ok(cs[j][i]) {
          assert cs[..k][j] == cs[j];
          InFlatten(cs[..k], j, i);
          var x := cs[j][i];
          assert x in xs[..f - r];
        }
      }
      forall i | 0 <= i < r ensures ok(c[i]) {
        assert c[i] == c[..r][i] == xs[f - r + i];
      }
      FirstFailIs(c, ok, r);
      FirstFailIs(cs, SlicePasses(ok), k);
    }
  }

  /** Where the slice holding element `f` begins: `f` rounded down to a
      multiple of `b`. */
  function BatchStart(f: nat, b: nat): (w: nat)
    requires b > 0
    ensures w == (f / b) * b && w <= f < w + b
  {
    f - f % b
  }

  /** Where slicing puts the first failing element `f`: the first failing
      slice is `k = f / b`, it fails at offset `r = f % b`, the slices before
      it make up `xs[..f - r]`, and with its passing part `xs[..f]`. */
  lemma FailurePoint<T>(xs: seq<T>, b: nat, ok: T -> bool) returns (k: nat, r: nat)
    requires b > 0 && FirstFail(xs, ok) < |xs|
    ensures k == FirstFail(xs, ok) / b && r == FirstFail(xs, ok) % b
    ensures k < |Chunks(xs, b)| && r <= FirstFail(xs, ok)
    ensures FirstFail(Chunks(xs, b), SlicePasses(ok)) == k
    ensures FirstFail(Chunks(xs, b)[k], ok) == r && r <= |Chunks(xs, b)[k]|
    ensures Flatten(Chunks(xs, b)[..k]) == xs[..BatchStart(FirstFail(xs, ok), b)]
    ensures Flatten(Chunks(xs, b)[..k]) + Chunks(xs, b)[k][..r] == xs[..FirstFail(xs, ok)]
  {
    FailingSlice(xs, b, ok);
    SliceAround(xs, b, FirstFail(xs, ok));
    k, r := FirstFail(xs, ok) / b, FirstFail(xs, ok) % b;
  }
}
