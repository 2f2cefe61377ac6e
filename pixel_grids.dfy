/**
 * The nested pixel loop that both revisions of the playground use to build
 * datasets and grids:
 *
 *   for (x = 0; x < w; x += s) for (y = 0; y < h; y += s) emit(x, y)
 *
 * `PixelGrid(w, h, s)` is the sequence of pixels `(x, y)` in the order the
 * loop visits them. ColumnFrom and GridFrom follow the two loops from a
 * given loop-variable value on, so that a method running the loop can
 * keep "what is emitted so far, followed by what the rest of the loop
 * emits, is the whole grid" as its invariant.
 */
module PixelGrids {

  type Pixel = (int, int)

  /** How many times `for (v = 0; v < n; v += s)` runs its body (from 0 up). */
  function Steps(n: int, s: nat): nat
    requires s > 0
    decreases n
  {
    if n <= 0 then 0 else 1 + Steps(n - s, s)
  }

  /** The pixels the inner loop emits for column `x`, from `y` on. */
  function ColumnFrom(x: int, y: int, h: int, s: nat): seq<Pixel>
    requires s > 0
    decreases h - y
  {
    if y < h then [(x, y)] + ColumnFrom(x, y + s, h, s) else []
  }

  /** The pixels both loops emit, from outer-loop value `x` on. */
  function GridFrom(x: int, w: int, h: int, s: nat): seq<Pixel>
    requires s > 0
    decreases w - x
  {
    if x < w then ColumnFrom(x, 0, h, s) + GridFrom(x + s, w, h, s) else []
  }

  /** The whole visit order of the nested loop. */
  function PixelGrid(w: int, h: int, s: nat): seq<Pixel>
    requires s > 0
  {
    GridFrom(0, w, h, s)
  }

  /*
   * One step of each loop, stated on "emitted so far + still to emit", so
   * that a method running the loops keeps its invariant without unfolding
   * the grid functions itself.
   */

  /** The inner loop emits (x, y) and moves on to y + s. */
  lemma NextPixel(done: seq<Pixel>, x: int, y: int, h: int, s: nat, rest: seq<Pixel>)
    requires s > 0 && y < h
    ensures done + ColumnFrom(x, y, h, s) + rest == (done + [(x, y)]) + ColumnFrom(x, y + s, h, s) + rest
  {
    assert ColumnFrom(x, y, h, s) == [(x, y)] + ColumnFrom(x, y + s, h, s);
  }

  /** The inner loop has finished: the rest is the following columns. */
  lemma LeaveColumn(done: seq<Pixel>, x: int, y: int, h: int, s: nat, rest: seq<Pixel>)
    requires s > 0 && y >= h
    ensures done + ColumnFrom(x, y, h, s) + rest == done + rest
  {
  }

  /** The outer loop has finished: everything is emitted. */
  lemma LeaveGrid(done: seq<Pixel>, x: int, w: int, h: int, s: nat)
    requires s > 0 && x >= w
    ensures done + GridFrom(x, w, h, s) == done
  {
  }

  /** Pixels that all lie in [0, w) x [0, h). */
  predicate InArea(ps: seq<Pixel>, w: int, h: int)
  {
    forall k :: 0 <= k < |ps| ==> 0 <= ps[k].0 < w && 0 <= ps[k].1 < h
  }

  /** Column-major order: `p` is visited before `q`. */
  predicate Before(p: Pixel, q: Pixel)
  {
    p.0 < q.0 || (p.0 == q.0 && p.1 < q.1)
  }

  /** Steps(n, s) is the ceiling of n / s: the least k with k * s >= n. */
  lemma {:induction false} StepsIsCeiling(n: int, s: nat)
    requires s > 0 && n > 0
    ensures Steps(n, s) >= 1
    ensures (Steps(n, s) - 1) * s < n <= Steps(n, s) * s
  {
    if n - s > 0 {
      StepsIsCeiling(n - s, s);
    }
  }

  /** The inner loop emits one pixel per step: (x, y), (x, y + s), ... */
  lemma {:induction false} ColumnShape(x: int, y: int, h: int, s: nat)
    requires s > 0
    ensures |ColumnFrom(x, y, h, s)| == Steps(h - y, s)
    ensures forall i :: 0 <= i < |ColumnFrom(x, y, h, s)| ==>
      ColumnFrom(x, y, h, s)[i] == (x, y + i * s)
    ensures forall i :: 0 <= i < |ColumnFrom(x, y, h, s)| ==>
      y <= ColumnFrom(x, y, h, s)[i].1 < h
    decreases h - y
  {
    if y < h {
      ColumnShape(x, y + s, h, s);
      var c := ColumnFrom(x, y, h, s);
      var t := ColumnFrom(x, y + s, h, s);
      assert c == [(x, y)] + t;
      forall i | 0 <= i < |c|
        ensures c[i] == (x, y + i * s) && y <= c[i].1 < h
      {
        if i > 0 {
          assert c[i] == t[i - 1];
          assert y + s + (i - 1) * s == y + i * s;
        }
      }
    }
  }

  /** The length part of ColumnShape on its own. */
  lemma ColumnLength(x: int, y: int, h: int, s: nat)
    requires s > 0
    ensures |ColumnFrom(x, y, h, s)| == Steps(h - y, s)
  {
    ColumnShape(x, y, h, s);
  }

  /** Every pixel emitted from outer value `x` on lies in [x, w) x [0, h). */
  lemma {:induction false} GridBounds(x: int, w: int, h: int, s: nat)
    requires s > 0
    ensures forall k :: 0 <= k < |GridFrom(x, w, h, s)| ==>
      x <= GridFrom(x, w, h, s)[k].0 < w && 0 <= GridFrom(x, w, h, s)[k].1 < h
    decreases w - x
  {
    if x < w {
      GridBounds(x + s, w, h, s);
      ColumnShape(x, 0, h, s);
      var c := ColumnFrom(x, 0, h, s);
      var t := GridFrom(x + s, w, h, s);
      var g := GridFrom(x, w, h, s);
      assert g == c + t;
      forall k | 0 <= k < |g|
        ensures x <= g[k].0 < w && 0 <= g[k].1 < h
      {
        if k >= |c| {
          assert g[k] == t[k - |c|];
        } else {
          assert g[k] == c[k];
        }
      }
    }
  }

  /** The grid has Steps(w - x, s) columns of Steps(h, s) pixels each. */
  lemma {:induction false} GridLength(x: int, w: int, h: int, s: nat)
    requires s > 0
    ensures |GridFrom(x, w, h, s)| == Steps(w - x, s) * Steps(h, s)
    decreases w - x
  {
    if x < w {
      GridLength(x + s, w, h, s);
      ColumnShape(x, 0, h, s);
      assert Steps(w - x, s) == 1 + Steps(w - (x + s), s);
    }
  }

  /** Pixel (i, j) of the lattice, that is (x + i*s, j*s), sits at index i * rows + j. */
  lemma GridAt(x: int, w: int, h: int, s: nat, i: nat, j: nat)
    requires s > 0
    requires i < Steps(w - x, s) && j < Steps(h, s)
    ensures i * Steps(h, s) + j < |GridFrom(x, w, h, s)|
    ensures GridFrom(x, w, h, s)[i * Steps(h, s) + j] == (x + i * s, j * s)
  {
    var rows := Steps(h, s);
    GridAtOffset(x, w, h, s, i, j);
    OffsetIsProduct(i, rows);
    OffsetIsProduct(i, s);
  }

  /** `i` steps of `d` from 0, added up one by one. */
  function Offset(i: nat, d: nat): (r: nat)
  {
    if i == 0 then 0 else d + Offset(i - 1, d)
  }

  lemma {:induction false} OffsetIsProduct(i: nat, d: nat)
    ensures Offset(i, d) == i * d
  {
    if i > 0 {
      OffsetIsProduct(i - 1, d);
      MulStep(i, d);
    }
  }

  /** GridAt with the products written as repeated sums. */
  lemma {:induction false} GridAtOffset(x: int, w: int, h: int, s: nat, i: nat, j: nat)
    requires s > 0
    requires i < Steps(w - x, s) && j < Steps(h, s)
    ensures Offset(i, Steps(h, s)) + j < |GridFrom(x, w, h, s)|
    ensures GridFrom(x, w, h, s)[Offset(i, Steps(h, s)) + j] == (x + Offset(i, s), j * s)
    decreases i
  {
    var rows := Steps(h, s);
    var c := ColumnFrom(x, 0, h, s);
    var t := GridFrom(x + s, w, h, s);
    assert GridFrom(x, w, h, s) == c + t;
    if i == 0 {
      ColumnShape(x, 0, h, s);
      assert (c + t)[j] == c[j];
    } else {
      ColumnLength(x, 0, h, s);
      assert i - 1 < Steps(w - (x + s), s);
      GridAtOffset(x + s, w, h, s, i - 1, j);
      var k := Offset(i - 1, rows) + j;
      assert (c + t)[rows + k] == t[k];
    }
  }

  /** Conversely, the k-th pixel visited is column k / rows, row k % rows of the lattice. */
  lemma PixelAt(w: int, h: int, s: nat, k: int)
    requires s > 0
    requires 0 <= k < |PixelGrid(w, h, s)|
    ensures Steps(h, s) > 0
    ensures PixelGrid(w, h, s)[k] == ((k / Steps(h, s)) * s, (k % Steps(h, s)) * s)
  {
    GridLength(0, w, h, s);
    LatticeIndex(k, Steps(w, s), Steps(h, s));
    GridAt(0, w, h, s, k / Steps(h, s), k % Steps(h, s));
  }

  /** An index below cols * rows splits into a column below cols and a row below rows. */
  lemma LatticeIndex(k: int, cols: nat, rows: nat)
    requires 0 <= k < cols * rows
    ensures rows > 0
    ensures 0 <= k / rows < cols && 0 <= k % rows < rows
    ensures (k / rows) * rows + k % rows == k
  {
    var i := k / rows;
    if i >= cols {
      MulMonotone(i, cols, rows);
      assert false;
    }
  }

  lemma MulMonotone(a: int, b: int, c: nat)
    requires a >= b
    ensures a * c >= b * c
  {
    assert a * c - b * c == (a - b) * c;
  }

  lemma MulStep(i: int, n: int)
    ensures i * n == n + (i - 1) * n
  {
  }

  /** Pixels in strictly increasing column-major order (so none twice). */
  predicate Ordered(ps: seq<Pixel>)
  {
    forall k1, k2 :: 0 <= k1 < k2 < |ps| ==> Before(ps[k1], ps[k2])
  }

  /** Two ordered runs, the first wholly before the second, make an ordered run. */
  lemma OrderedConcat(a: seq<Pixel>, b: seq<Pixel>)
    requires Ordered(a) && Ordered(b)
    requires forall i, j :: 0 <= i < |a| && 0 <= j < |b| ==> Before(a[i], b[j])
    ensures Ordered(a + b)
  {
    var c := a + b;
    forall k1, k2 | 0 <= k1 < k2 < |c|
      ensures Before(c[k1], c[k2])
    {
      if k2 < |a| {
        assert c[k1] == a[k1] && c[k2] == a[k2];
      } else if k1 < |a| {
        assert c[k1] == a[k1] && c[k2] == b[k2 - |a|];
      } else {
        assert c[k1] == b[k1 - |a|] && c[k2] == b[k2 - |a|];
      }
    }
  }

  /** The inner loop visits its column top to bottom. */
  lemma {:induction false} ColumnOrdered(x: int, y: int, h: int, s: nat)
    requires s > 0
    ensures Ordered(ColumnFrom(x, y, h, s))
    decreases h - y
  {
    if y < h {
      ColumnOrdered(x, y + s, h, s);
      ColumnShape(x, y + s, h, s);
      var t := ColumnFrom(x, y + s, h, s);
      forall j | 0 <= j < |t|
        ensures Before((x, y), t[j])
      {
        assert t[j].0 == x && t[j].1 >= y + s;
      }
      OrderedConcat([(x, y)], t);
    }
  }

  /** The loop visits pixels in strictly increasing column-major order (so never twice). */
  lemma {:induction false} GridOrdered(x: int, w: int, h: int, s: nat)
    requires s > 0
    ensures Ordered(GridFrom(x, w, h, s))
    decreases w - x
  {
    if x < w {
      GridOrdered(x + s, w, h, s);
      GridBounds(x + s, w, h, s);
      ColumnOrdered(x, 0, h, s);
      ColumnShape(x, 0, h, s);
      var c := ColumnFrom(x, 0, h, s);
      var t := GridFrom(x + s, w, h, s);
      forall i, j | 0 <= i < |c| && 0 <= j < |t|
        ensures Before(c[i], t[j])
      {
        assert c[i].0 == x && t[j].0 >= x + s;
      }
      OrderedConcat(c, t);
    }
  }
}
