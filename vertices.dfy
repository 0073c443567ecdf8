/**
 * The vertex slab allocator and the quad vertex generator of the rendering
 * backend (internal/graphicsutil/vertices.go).
 *
 * float32 values are modelled as reals: no rounding is modelled.  The caller's
 * geometric transform is an arbitrary function on points.
 */
module Vertices {

  /** Floats per vertex: position (x, y), own texel (u, v), opposite texel (u, v). */
  const VertexFloats: nat := 6

  /** Floats per quad: four vertices. */
  const QuadSize: nat := 4 * VertexFloats

  /** Quads one backing store holds. */
  const QuadsPerBacking: nat := 256

  /** Floats in one backing store. */
  const BackingSize: nat := QuadSize * QuadsPerBacking

  /** A Go `[]float32`: nil, or the window [lo, hi) of a backing array. */
  datatype Slice = Nil | Window(data: array<real>, lo: nat, hi: nat)

  /** The caller-supplied transform from local quad space to vertex space. */
  type GeoM = ((real, real)) -> (real, real)

  // ---------------------------------------------------------------------------
  // The slab allocator
  // ---------------------------------------------------------------------------

  /**
   * The cursor after one more window is handed out, counted in quads taken
   * from the current backing store (0 when there is none): the 256th window
   * exhausts the store, which is then dropped.
   */
  function NextTaken(taken: nat): nat
  {
    (taken + 1) % QuadsPerBacking
  }

  class VerticesBackend {
    var backend: array?<real>
    var head: int

    /** Either no backing store and cursor 0, or a full-size store whose cursor
        is a positive multiple of the quad size with room for one more quad. */
    ghost predicate Valid()
      reads this
    {
      if backend == null then head == 0
      else
        && backend.Length == BackingSize
        && 0 < head
        && head % QuadSize == 0
        && head + QuadSize <= backend.Length
    }

    /** Quads already handed out from the current backing store. */
    ghost function Taken(): (k: nat)
      reads this
      requires Valid()
      ensures k < QuadsPerBacking
      ensures backend == null <==> k == 0
      ensures head == k * QuadSize
    {
      head / QuadSize
    }

    /** The zero value `verticesBackend{}`. */
    constructor ()
      ensures Valid() && backend == null && head == 0
    {
      backend := null;
      head := 0;
    }

    /**
     * Hands out the next quad-sized window of the backing store, creating the
     * store first when there is none, and drops the store once it has no room
     * left for another window.
     */
    method SliceForOneQuad() returns (s: Slice)
      requires Valid()
      modifies this
      ensures Valid()
      ensures s.Window? && s.lo == old(Taken()) * QuadSize && s.hi == s.lo + QuadSize
      ensures s.hi <= s.data.Length == BackingSize
      ensures old(backend) == null ==> fresh(s.data)
      ensures old(backend) != null ==> s.data == old(backend)
      ensures backend != null ==> backend == s.data
      ensures Taken() == NextTaken(old(Taken()))
    {
      if backend == null {
        backend := new real[BackingSize];
      }
      s := Window(backend, head, head + QuadSize);
      head := head + QuadSize;
      if head + QuadSize > backend.Length {
        backend := null;
        head := 0;
      }
    }
  }

  /**
   * What the first n calls of SliceForOneQuad on an empty allocator do: the
   * offset each call returns, whether each call created a new backing store,
   * and the cursor afterwards.
   */
  datatype Trace = Trace(offsets: seq<nat>, created: seq<bool>, taken: nat)

  function Run(n: nat): (t: Trace)
    ensures |t.offsets| == n && |t.created| == n
  {
    if n == 0 then Trace([], [], 0)
    else
      var t := Run(n - 1);
      Trace(t.offsets + [t.taken * QuadSize], t.created + [t.taken == 0], NextTaken(t.taken))
  }

  /** Call i returns the window at offset (i mod 256) * 24 and creates a new
      backing store exactly when i is a multiple of 256. */
  lemma {:induction false} RunShape(n: nat)
    ensures Run(n).taken == n % QuadsPerBacking
    ensures forall i :: 0 <= i < n ==> Run(n).offsets[i] == (i % QuadsPerBacking) * QuadSize
    ensures forall i :: 0 <= i < n ==> (Run(n).created[i] <==> i % QuadsPerBacking == 0)
  {
    if n > 0 {
      RunShape(n - 1);
      var t := Run(n - 1);
      assert Run(n) == Trace(t.offsets + [t.taken * QuadSize], t.created + [t.taken == 0], NextTaken(t.taken));
      NextTakenMod(n - 1);
    }
  }

  /** Stepping the cursor of m calls gives the cursor of m + 1 calls. */
  lemma NextTakenMod(m: nat)
    ensures NextTaken(m % QuadsPerBacking) == (m + 1) % QuadsPerBacking
  {
    var q, r := m / QuadsPerBacking, m % QuadsPerBacking;
    assert m + 1 == q * QuadsPerBacking + (r + 1);
    if r + 1 == QuadsPerBacking {
      assert m + 1 == (q + 1) * QuadsPerBacking;
    }
  }

  /**
   * Makes n calls of SliceForOneQuad on a new allocator, recording the offset
   * of each window and whether the call found no backing store (and so
   * created one): exactly the trace Run(n).
   */
  method AllocateQuads(n: nat) returns (offsets: seq<nat>, created: seq<bool>)
    ensures offsets == Run(n).offsets && created == Run(n).created
  {
    var vb := new VerticesBackend();
    offsets, created := [], [];
    for i := 0 to n
      invariant vb.Valid() && vb.Taken() == Run(i).taken
      invariant offsets == Run(i).offsets && created == Run(i).created
    {
      var empty := vb.backend == null;
      var s := vb.SliceForOneQuad();
      offsets, created := offsets + [s.lo], created + [empty];
    }
  }

  /** Two windows handed out from the same backing store do not overlap, and
      every window lies inside the store. */
  lemma WindowsDisjoint(n: nat, i: nat, j: nat)
    requires i < j < n
    requires i / QuadsPerBacking == j / QuadsPerBacking
    ensures Run(n).offsets[i] + QuadSize <= Run(n).offsets[j]
    ensures Run(n).offsets[j] + QuadSize <= BackingSize
  {
    RunShape(n);
    var q, ri, rj := i / 256, i % 256, j % 256;
    assert Run(n).offsets[i] == ri * 24 && Run(n).offsets[j] == rj * 24;
    assert i == q * 256 + ri && j == q * 256 + rj;
    assert ri < rj < 256;
  }

  // ---------------------------------------------------------------------------
  // Power-of-two padding
  // ---------------------------------------------------------------------------

  predicate IsPowerOfTwo(x: int)
    decreases if x < 1 then 0 else x
  {
    x == 1 || (x > 1 && x % 2 == 0 && IsPowerOfTwo(x / 2))
  }

  /** The least power of two that is at least n, by halving. */
  function Pow2Ceil(n: int): (r: int)
    ensures IsPowerOfTwo(r) && r >= 1 && r >= n
    ensures r == 1 || r / 2 < n
    decreases if n < 1 then 0 else n
  {
    if n <= 1 then 1 else 2 * Pow2Ceil((n + 1) / 2)
  }

  /** Between two powers of two there is a factor of at least two. */
  lemma {:induction false} PowerOfTwoGap(p: int, q: int)
    requires IsPowerOfTwo(p) && IsPowerOfTwo(q) && p < q
    ensures 2 * p <= q
    decreases q
  {
    if p > 1 {
      PowerOfTwoGap(p / 2, q / 2);
    }
  }

  /** Pow2Ceil(n) is below every power of two that is at least n. */
  lemma Pow2CeilIsLeast(n: int, p: int)
    requires IsPowerOfTwo(p) && p >= n
    ensures Pow2Ceil(n) <= p
  {
    var c := Pow2Ceil(n);
    if c > p {
      PowerOfTwoGap(p, c);
    }
  }

  /** A power of two at least n whose half is below n is Pow2Ceil(n). */
  lemma Pow2CeilUnique(n: int, w: int)
    requires IsPowerOfTwo(w) && w >= n && (w == 1 || w / 2 < n)
    ensures w == Pow2Ceil(n)
  {
    var c := Pow2Ceil(n);
    Pow2CeilIsLeast(n, w);
    if c < w {
      PowerOfTwoGap(c, w);
    }
  }

  /** The padded texture size: double from 1 while below n. */
  method PaddedSize(n: int) returns (w: int)
    ensures w == Pow2Ceil(n)
  {
    w := 1;
    while w < n
      invariant IsPowerOfTwo(w) && w >= 1
      invariant w == 1 || w / 2 < n
      decreases n - w
    {
      w := w * 2;
    }
    Pow2CeilUnique(n, w);
  }

  // ---------------------------------------------------------------------------
  // Quad layout
  // ---------------------------------------------------------------------------

  /** A pair of opposite corners (x0, y0) and (x1, y1). */
  datatype Rect = Rect(x0: real, y0: real, x1: real, y1: real)

  /** Corner k, in the order top-left, top-right, bottom-left, bottom-right,
      lies in column k % 2 and row k / 2. */
  function CornerOf(r: Rect, column: nat, row: nat): (real, real)
  {
    (if column == 0 then r.x0 else r.x1, if row == 0 then r.y0 else r.y1)
  }

  /** The six floats of vertex k: transformed position, own texel, and the
      texel of the diagonally opposite corner. */
  function VertexData(k: nat, uv: Rect, pos: Rect, geom: GeoM): (vs: seq<real>)
    requires k < 4
    ensures |vs| == VertexFloats
  {
    var p := geom(CornerOf(pos, k % 2, k / 2));
    var own := CornerOf(uv, k % 2, k / 2);
    var opposite := CornerOf(uv, 1 - k % 2, 1 - k / 2);
    [p.0, p.1, own.0, own.1, opposite.0, opposite.1]
  }

  /** The 24 floats of one quad: its four vertices in order. */
  function QuadLayout(uv: Rect, pos: Rect, geom: GeoM): (vs: seq<real>)
    ensures |vs| == QuadSize
  {
    VertexData(0, uv, pos, geom) + VertexData(1, uv, pos, geom)
      + VertexData(2, uv, pos, geom) + VertexData(3, uv, pos, geom)
  }

  /** Each vertex's opposite texel is the own texel of vertex 3 - k, the
      geometrically diagonal corner. */
  lemma OppositeIsDiagonal(uv: Rect, pos: Rect, geom: GeoM, k: nat)
    requires k < 4
    ensures var vs := QuadLayout(uv, pos, geom);
      vs[6 * k + 4] == vs[6 * (3 - k) + 2] && vs[6 * k + 5] == vs[6 * (3 - k) + 3]
  {
    var v0, v1, v2, v3 := VertexData(0, uv, pos, geom), VertexData(1, uv, pos, geom),
      VertexData(2, uv, pos, geom), VertexData(3, uv, pos, geom);
    var vs := QuadLayout(uv, pos, geom);
    assert vs == v0 + v1 + v2 + v3;
    if k == 0 {
      assert vs[4] == v0[4] && vs[5] == v0[5] && vs[20] == v3[2] && vs[21] == v3[3];
    } else if k == 1 {
      assert vs[10] == v1[4] && vs[11] == v1[5] && vs[14] == v2[2] && vs[15] == v2[3];
    } else if k == 2 {
      assert vs[16] == v2[4] && vs[17] == v2[5] && vs[8] == v1[2] && vs[9] == v1[3];
    } else {
      assert vs[22] == v3[4] && vs[23] == v3[5] && vs[2] == v0[2] && vs[3] == v0[3];
    }
  }

  /** The own texels of the four vertices are (u0, v0), (u1, v0), (u0, v1),
      (u1, v1) and their positions are the transformed corners in the same
      order. */
  lemma CornersInOrder(uv: Rect, pos: Rect, geom: GeoM)
    ensures var vs := QuadLayout(uv, pos, geom);
      && (vs[0], vs[1]) == geom((pos.x0, pos.y0)) && (vs[2], vs[3]) == (uv.x0, uv.y0)
      && (vs[6], vs[7]) == geom((pos.x1, pos.y0)) && (vs[8], vs[9]) == (uv.x1, uv.y0)
      && (vs[12], vs[13]) == geom((pos.x0, pos.y1)) && (vs[14], vs[15]) == (uv.x0, uv.y1)
      && (vs[18], vs[19]) == geom((pos.x1, pos.y1)) && (vs[20], vs[21]) == (uv.x1, uv.y1)
  {
    var v0, v1, v2, v3 := VertexData(0, uv, pos, geom), VertexData(1, uv, pos, geom),
      VertexData(2, uv, pos, geom), VertexData(3, uv, pos, geom);
    assert QuadLayout(uv, pos, geom) == v0 + v1 + v2 + v3;
  }

  // ---------------------------------------------------------------------------
  // The generator
  // ---------------------------------------------------------------------------

  /** Source rectangles for which no geometry is produced. */
  predicate Rejected(sx0: int, sy0: int, sx1: int, sy1: int)
  {
    sx0 >= sx1 || sy0 >= sy1 || sx1 <= 0 || sy1 <= 0
  }

  /** The source rectangle in texture space: texels divided by the padded
      texture size. */
  function NormalizedUV(width: int, height: int, sx0: int, sy0: int, sx1: int, sy1: int): Rect
  {
    var w, h := Pow2Ceil(width) as real, Pow2Ceil(height) as real;
    Rect(sx0 as real / w, sy0 as real / h, sx1 as real / w, sy1 as real / h)
  }

  lemma SliceSplit(a: seq<real>, i: nat, j: nat, k: nat)
    requires i <= j <= k <= |a|
    ensures a[i..k] == a[i..j] + a[j..k]
  {
  }

  /** Writes the six floats of one vertex at offset o. */
  method PutVertex(vs: array<real>, o: nat, x: real, y: real, u: real, v: real, ou: real, ov: real)
    requires o + VertexFloats <= vs.Length
    modifies vs
    ensures vs[o] == x && vs[o + 1] == y && vs[o + 2] == u && vs[o + 3] == v
    ensures vs[o + 4] == ou && vs[o + 5] == ov
    ensures forall i :: 0 <= i < vs.Length && !(o <= i < o + VertexFloats) ==> vs[i] == old(vs[i])
  {
    vs[o], vs[o + 1] := x, y;
    vs[o + 2], vs[o + 3], vs[o + 4], vs[o + 5] := u, v, ou, ov;
  }

  /** Writes one quad at offset o, vertex by vertex, leaving the rest of vs as it was. */
  method FillQuad(vs: array<real>, o: nat, u0: real, v0: real, u1: real, v1: real,
                  x0: real, y0: real, x1: real, y1: real, geom: GeoM)
    requires o + QuadSize <= vs.Length
    modifies vs
    ensures vs[..o] == old(vs[..o]) && vs[o + QuadSize..] == old(vs[o + QuadSize..])
    ensures vs[o..o + QuadSize] == QuadLayout(Rect(u0, v0, u1, v1), Rect(x0, y0, x1, y1), geom)
  {
    var p := geom((x0, y0));
    PutVertex(vs, o, p.0, p.1, u0, v0, u1, v1);
    p := geom((x1, y0));
    PutVertex(vs, o + 6, p.0, p.1, u1, v0, u0, v1);
    p := geom((x0, y1));
    PutVertex(vs, o + 12, p.0, p.1, u0, v1, u1, v0);
    p := geom((x1, y1));
    PutVertex(vs, o + 18, p.0, p.1, u1, v1, u0, v0);

    var uv, pos := Rect(u0, v0, u1, v1), Rect(x0, y0, x1, y1);
    ghost var a := vs[..];
    assert a[o..o + 6] == VertexData(0, uv, pos, geom) by {
      assert a[o + 0] == vs[o + 0] && a[o + 1] == vs[o + 1] && a[o + 2] == vs[o + 2];
      assert a[o + 3] == vs[o + 3] && a[o + 4] == vs[o + 4] && a[o + 5] == vs[o + 5];
    }
    assert a[o + 6..o + 12] == VertexData(1, uv, pos, geom) by {
      assert a[o + 6] == vs[o + 6] && a[o + 7] == vs[o + 7] && a[o + 8] == vs[o + 8];
      assert a[o + 9] == vs[o + 9] && a[o + 10] == vs[o + 10] && a[o + 11] == vs[o + 11];
    }
    assert a[o + 12..o + 18] == VertexData(2, uv, pos, geom) by {
      assert a[o + 12] == vs[o + 12] && a[o + 13] == vs[o + 13] && a[o + 14] == vs[o + 14];
      assert a[o + 15] == vs[o + 15] && a[o + 16] == vs[o + 16] && a[o + 17] == vs[o + 17];
    }
    assert a[o + 18..o + 24] == VertexData(3, uv, pos, geom) by {
      assert a[o + 18] == vs[o + 18] && a[o + 19] == vs[o + 19] && a[o + 20] == vs[o + 20];
      assert a[o + 21] == vs[o + 21] && a[o + 22] == vs[o + 22] && a[o + 23] == vs[o + 23];
    }
    SliceSplit(a, o, o + 18, o + 24);
    SliceSplit(a, o, o + 12, o + 18);
    SliceSplit(a, o, o + 6, o + 12);
  }

  /**
   * Takes the next window of the allocator and writes the quad into it: the
   * four transformed corners, each with its own texel and the texel of the
   * diagonally opposite corner.  The rest of the backing store is untouched.
   */
  method QuadVerticesImpl(vb: VerticesBackend, u0: real, v0: real, u1: real, v1: real,
                          x0: real, y0: real, x1: real, y1: real, geom: GeoM) returns (s: Slice)
    requires vb.Valid()
    modifies vb, vb.backend
    ensures vb.Valid() && vb.Taken() == NextTaken(old(vb.Taken()))
    ensures s.Window? && s.lo == old(vb.Taken()) * QuadSize && s.hi == s.lo + QuadSize
    ensures s.hi <= s.data.Length == BackingSize
    ensures old(vb.backend) == null ==> fresh(s.data)
    ensures old(vb.backend) != null ==>
      s.data == old(vb.backend) && s.data[..s.lo] == old(s.data[..s.lo]) && s.data[s.hi..] == old(s.data[s.hi..])
    ensures vb.backend != null ==> vb.backend == s.data
    ensures s.data[s.lo..s.hi] == QuadLayout(Rect(u0, v0, u1, v1), Rect(x0, y0, x1, y1), geom)
  {
    s := vb.SliceForOneQuad();
    FillQuad(s.data, s.lo, u0, v0, u1, v1, x0, y0, x1, y1, geom);
  }

  /**
   * The quad for the source rectangle (sx0, sy0)-(sx1, sy1) of a texture of
   * logical size width x height: nil for a rejected rectangle (the allocator
   * is not touched), otherwise a fresh window holding the quad whose local
   * corners are (0, 0) and (sx1 - sx0, sy1 - sy0) and whose texels are the
   * source rectangle divided by the power-of-two padded size.
   */
  method QuadVertices(vb: VerticesBackend, width: int, height: int,
                      sx0: int, sy0: int, sx1: int, sy1: int, geom: GeoM) returns (s: Slice)
    requires vb.Valid()
    modifies vb, vb.backend
    ensures vb.Valid()
    ensures Rejected(sx0, sy0, sx1, sy1) ==>
      && s == Nil && vb.backend == old(vb.backend) && vb.head == old(vb.head)
      && (vb.backend != null ==> vb.backend[..] == old(vb.backend[..]))
    ensures !Rejected(sx0, sy0, sx1, sy1) ==>
      && vb.Taken() == NextTaken(old(vb.Taken()))
      && s.Window? && s.lo == old(vb.Taken()) * QuadSize && s.hi == s.lo + QuadSize
      && s.hi <= s.data.Length
      && (old(vb.backend) == null ==> fresh(s.data))
      && (old(vb.backend) != null ==>
            && s.data == old(vb.backend)
            && s.data[..s.lo] == old(s.data[..s.lo]) && s.data[s.hi..] == old(s.data[s.hi..]))
      && (vb.backend != null ==> vb.backend == s.data)
      && s.data[s.lo..s.hi] == QuadLayout(NormalizedUV(width, height, sx0, sy0, sx1, sy1),
                                          Rect(0.0, 0.0, (sx1 - sx0) as real, (sy1 - sy0) as real), geom)
  {
    if sx0 >= sx1 || sy0 >= sy1 {
      return Nil;
    }
    if sx1 <= 0 || sy1 <= 0 {
      return Nil;
    }
    var x0, y0 := 0.0, 0.0;
    var x1, y1 := (sx1 - sx0) as real, (sy1 - sy0) as real;
    var w := PaddedSize(width);
    var h := PaddedSize(height);
    var wf, hf := w as real, h as real;
    var u0, v0, u1, v1 := sx0 as real / wf, sy0 as real / hf, sx1 as real / wf, sy1 as real / hf;
    s := QuadVerticesImpl(vb, u0, v0, u1, v1, x0, y0, x1, y1, geom);
  }

  /** The identity transform. */
  const Identity: GeoM := p => p

  /** 128 and 256 are their own padded sizes. */
  lemma Pow2Ceil256()
    ensures Pow2Ceil(128) == 128 && Pow2Ceil(256) == 256
  {
    assert Pow2Ceil(2) == 2 && Pow2Ceil(4) == 4 && Pow2Ceil(8) == 8 && Pow2Ceil(16) == 16;
    assert Pow2Ceil(32) == 32 && Pow2Ceil(64) == 64;
  }

  /** The texels of a 100 x 50 sprite at the origin of a 256 x 128 texture. */
  lemma ExampleUV()
    ensures NormalizedUV(256, 128, 0, 0, 100, 50) == Rect(0.0, 0.0, 100.0 / 256.0, 50.0 / 128.0)
  {
    Pow2Ceil256();
  }

  /** The layout of a 100 x 50 sprite cut from the top-left of a 256 x 128
      texture, drawn with the identity transform. */
  lemma ExampleLayout()
    ensures var vs := QuadLayout(NormalizedUV(256, 128, 0, 0, 100, 50), Rect(0.0, 0.0, 100.0, 50.0), Identity);
      && vs[0] == 0.0 && vs[1] == 0.0 && vs[6] == 100.0 && vs[7] == 0.0
      && vs[12] == 0.0 && vs[13] == 50.0 && vs[18] == 100.0 && vs[19] == 50.0
      && vs[2] == 0.0 && vs[3] == 0.0 && vs[20] == 100.0 / 256.0 && vs[21] == 50.0 / 128.0
  {
    var uv := NormalizedUV(256, 128, 0, 0, 100, 50);
    ExampleUV();
    assert Identity((0.0, 0.0)) == (0.0, 0.0) && Identity((100.0, 0.0)) == (100.0, 0.0);
    assert Identity((0.0, 50.0)) == (0.0, 50.0) && Identity((100.0, 50.0)) == (100.0, 50.0);
    CornersInOrder(uv, Rect(0.0, 0.0, 100.0, 50.0), Identity);
  }

  /** The same sprite produced through QuadVertices on a new allocator: the
      positions are the sprite's corners and the texels run from (0, 0) to
      (100/256, 50/128). */
  method ExampleQuad() returns (vs: seq<real>)
    ensures |vs| == QuadSize
    ensures vs[0] == 0.0 && vs[1] == 0.0 && vs[6] == 100.0 && vs[7] == 0.0
    ensures vs[12] == 0.0 && vs[13] == 50.0 && vs[18] == 100.0 && vs[19] == 50.0
    ensures vs[2] == 0.0 && vs[3] == 0.0 && vs[20] == 100.0 / 256.0 && vs[21] == 50.0 / 128.0
  {
    var vb := new VerticesBackend();
    var s := QuadVertices(vb, 256, 128, 0, 0, 100, 50, Identity);
    vs := s.data[s.lo..s.hi];
    assert vs == QuadLayout(NormalizedUV(256, 128, 0, 0, 100, 50), Rect(0.0, 0.0, 100.0, 50.0), Identity);
    ExampleLayout();
  }
}
