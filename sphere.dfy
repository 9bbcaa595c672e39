/** The procedural sphere field of Sphere.cpp: the index and vertex buffers
    CreateSphere fills, and the rejection-sampling placement of up to 100
    non-overlapping spheres by SetPosition. The direction of each ring/sector
    vertex (the cos/sin of the accumulated angles) and the raw std::rand values
    are parameters. */
module SphereField {
  import opened Glm
  import opened Wrappers
  import opened MeshBuffer

  // ---- Integer layout ----

  lemma {:induction false} AtLeastOnce(k: int, d: int)
    requires d > 0 && k >= 1
    ensures k * d >= d
    decreases k
  {
    if k > 1 {
      AtLeastOnce(k - 1, d);
      assert k * d == (k - 1) * d + d;
    }
  }

  /** Quotient and remainder are determined by any decomposition with a remainder in range. */
  lemma DivModOf(a: int, d: int, q: int, r: int)
    requires d > 0 && 0 <= r < d && a == q * d + r
    ensures a / d == q && a % d == r
  {
    var q', r' := a / d, a % d;
    assert (q' - q) * d == r - r';
    if q' - q >= 1 {
      AtLeastOnce(q' - q, d);
    } else if q - q' >= 1 {
      AtLeastOnce(q - q', d);
    }
  }

  /** Entry n of a buffer of q*q blocks of w entries belongs to block n / w, which is ring n / w / q, sector n / w % q. */
  lemma BlockNumber(q: nat, w: nat, n: int)
    requires q > 0 && w > 0 && 0 <= n < q * q * w
    ensures 0 <= n / w < q * q
    ensures 0 <= n / w / q < q && 0 <= n / w % q < q
  {
    var block := n / w;
    assert n == block * w + n % w;
    if block >= q * q {
      AtLeastOnce(block - q * q + 1, w);
    }
    var i := block / q;
    assert block == i * q + block % q;
    if i >= q {
      AtLeastOnce(i - q + 1, q);
    }
  }

  /** The six indices CreateSphere writes for quad (i, j): two triangles sharing
      the corners i*q+j and ((i+1)%q)*q+(j+1)%q. */
  function QuadIndices(q: nat, i: int, j: int): seq<int>
    requires q > 0
  {
    var a := ((i + 1) % q) * q + (j + 1) % q;
    [a, i * q + j, ((i + 1) % q) * q + j,
     i * q + (j + 1) % q, i * q + j, a]
  }

  /** The index buffer: quad (i, j) at offsets 6*(i*q+j) .. 6*(i*q+j)+5. */
  function SphereIndices(q: nat): (ix: seq<int>)
    requires q > 0
    ensures |ix| == q * q * 6
  {
    seq(q * q * 6, n requires 0 <= n < q * q * 6 => QuadIndices(q, n / 6 / q, n / 6 % q)[n % 6])
  }

  lemma QuadOffset(q: nat, i: int, j: int, c: int)
    requires q > 0 && 0 <= i < q && 0 <= j < q && 0 <= c < 6
    ensures 0 <= 6 * (i * q + j) + c < q * q * 6
    ensures (6 * (i * q + j) + c) / 6 / q == i && (6 * (i * q + j) + c) / 6 % q == j && (6 * (i * q + j) + c) % 6 == c
  {
    DivModOf(6 * (i * q + j) + c, 6, i * q + j, c);
    DivModOf(i * q + j, q, i, j);
    GridVertex(q, i, j);
  }

  /** Quad (i, j) occupies offsets 6*(i*q+j) to 6*(i*q+j)+5 of the index buffer. */
  lemma QuadLayout(q: nat, i: int, j: int)
    requires q > 0 && 0 <= i < q && 0 <= j < q
    ensures 6 * (i * q + j) + 6 <= q * q * 6
    ensures forall n :: 6 * (i * q + j) <= n < 6 * (i * q + j) + 6 ==>
      SphereIndices(q)[n] == QuadIndices(q, i, j)[n - 6 * (i * q + j)]
  {
    QuadOffset(q, i, j, 5);
    var ix := SphereIndices(q);
    var base := 6 * (i * q + j);
    forall n | base <= n < base + 6 ensures ix[n] == QuadIndices(q, i, j)[n - base] {
      QuadOffset(q, i, j, n - base);
      assert ix[n] == QuadIndices(q, n / 6 / q, n / 6 % q)[n % 6];
    }
  }

  /** Both triangles of quad (i, j) contain i*q+j and ((i+1)%q)*q+(j+1)%q: they share that diagonal. */
  lemma QuadTrianglesShareDiagonal(q: nat, i: int, j: int)
    requires q > 0
    ensures var t := QuadIndices(q, i, j);
            i * q + j in t[..3] && i * q + j in t[3..]
            && ((i + 1) % q) * q + (j + 1) % q in t[..3] && ((i + 1) % q) * q + (j + 1) % q in t[3..]
  {
    var t := QuadIndices(q, i, j);
    assert t[..3][1] == i * q + j && t[3..][1] == i * q + j;
    assert t[..3][0] == ((i + 1) % q) * q + (j + 1) % q && t[3..][2] == ((i + 1) % q) * q + (j + 1) % q;
  }

  /** r*q + s is a vertex of the grid when r and s are ring and sector numbers. */
  lemma GridVertex(q: nat, r: int, s: int)
    requires q > 0 && 0 <= r < q && 0 <= s < q
    ensures 0 <= r * q + s < q * q
  {
    assert r * q <= (q - 1) * q;
  }

  /** Every index written is below q*q, thanks to the % q on ring and sector. */
  lemma SphereIndicesInRange(q: nat)
    requires q > 0
    ensures forall n :: 0 <= n < |SphereIndices(q)| ==> 0 <= SphereIndices(q)[n] < q * q
  {
    forall n | 0 <= n < |SphereIndices(q)| ensures 0 <= SphereIndices(q)[n] < q * q {
      BlockNumber(q, 6, n);
      var i, j := n / 6 / q, n / 6 % q;
      GridVertex(q, i, j);
      GridVertex(q, (i + 1) % q, (j + 1) % q);
      GridVertex(q, (i + 1) % q, j);
      GridVertex(q, i, (j + 1) % q);
    }
  }

  // ---- The vertex buffer ----

  /** The 8 floats of vertex (i, j): position = direction * radius, texcoord
      (i/(q-1), 1 - j/(q-1)), normal = direction. */
  function VertexRow(q: nat, radius: real, dir: (int, int) -> Vec3, i: int, j: int): seq<real>
    requires q > 1
  {
    var d := dir(i, j);
    [d.x * radius, d.y * radius, d.z * radius,
     i as real / (q - 1) as real, 1.0 - j as real / (q - 1) as real,
     d.x, d.y, d.z]
  }

  /** The vertex buffer, ring after ring, sector after sector. */
  function SphereVertices(q: nat, radius: real, dir: (int, int) -> Vec3): (vs: seq<real>)
    requires q > 1
    ensures |vs| == q * q * 8
  {
    seq(q * q * 8, n requires 0 <= n < q * q * 8 => VertexRow(q, radius, dir, n / 8 / q, n / 8 % q)[n % 8])
  }

  lemma VertexOffset(q: nat, i: int, j: int, c: int)
    requires q > 0 && 0 <= i < q && 0 <= j < q && 0 <= c < 8
    ensures 0 <= 8 * (i * q + j) + c < q * q * 8
    ensures (8 * (i * q + j) + c) / 8 / q == i && (8 * (i * q + j) + c) / 8 % q == j && (8 * (i * q + j) + c) % 8 == c
  {
    DivModOf(8 * (i * q + j) + c, 8, i * q + j, c);
    DivModOf(i * q + j, q, i, j);
    GridVertex(q, i, j);
  }

  /** Vertex (i, j) occupies offsets 8*(i*q+j) to 8*(i*q+j)+7 of the vertex buffer. */
  lemma VertexLayout(q: nat, radius: real, dir: (int, int) -> Vec3, i: int, j: int)
    requires q > 1 && 0 <= i < q && 0 <= j < q
    ensures 8 * (i * q + j) + 8 <= q * q * 8
    ensures forall n :: 8 * (i * q + j) <= n < 8 * (i * q + j) + 8 ==>
      SphereVertices(q, radius, dir)[n] == VertexRow(q, radius, dir, i, j)[n - 8 * (i * q + j)]
  {
    VertexOffset(q, i, j, 7);
    var vs := SphereVertices(q, radius, dir);
    var base := 8 * (i * q + j);
    forall n | base <= n < base + 8 ensures vs[n] == VertexRow(q, radius, dir, i, j)[n - base] {
      VertexOffset(q, i, j, n - base);
      assert vs[n] == VertexRow(q, radius, dir, n / 8 / q, n / 8 % q)[n % 8];
    }
  }

  /** Both texture coordinates of every vertex lie in [0, 1]. */
  lemma TexcoordsInUnitSquare(q: nat, radius: real, dir: (int, int) -> Vec3, i: int, j: int)
    requires q > 1 && 0 <= i < q && 0 <= j < q
    ensures 0.0 <= VertexRow(q, radius, dir, i, j)[3] <= 1.0
    ensures 0.0 <= VertexRow(q, radius, dir, i, j)[4] <= 1.0
  {
    var m := (q - 1) as real;
    assert i as real / m * m == i as real && j as real / m * m == j as real;
  }

  /** The first ring has u = 0 and the last u = 1; the first sector has v = 1 and the last v = 0. */
  lemma TexcoordsSpanUnitSquare(q: nat, radius: real, dir: (int, int) -> Vec3)
    requires q > 1
    ensures VertexRow(q, radius, dir, 0, 0)[3] == 0.0 && VertexRow(q, radius, dir, q - 1, 0)[3] == 1.0
    ensures VertexRow(q, radius, dir, 0, 0)[4] == 1.0 && VertexRow(q, radius, dir, 0, q - 1)[4] == 0.0
  {
  }

  // ---- Rejection-sampling placement ----

  const NumSpheres := 100
  const MaxTries := 100
  /** The placement volume is the cube [BoxMin, BoxMax] on each axis. */
  const BoxMin := -10.0
  const BoxMax := 10.0

  /** glm::distance(a, b) < 2 * r, without the square root: the distance is
      never negative, so it is below 2r exactly when r is positive and the squared
      distance is below 4r^2 (see DistanceTest). */
  predicate TooClose(a: Vec3, b: Vec3, r: real) {
    0.0 < r && SqDist(a, b) < 4.0 * r * r
  }

  lemma PositiveProduct(a: real, b: real)
    requires 0.0 < a && 0.0 < b
    ensures 0.0 < a * b
  {
  }

  lemma NonNegativeProduct(a: real, b: real)
    requires 0.0 <= a && 0.0 <= b
    ensures 0.0 <= a * b
  {
  }

  /** For any non-negative dist whose square is the squared distance, the test agrees with dist < 2r. */
  lemma DistanceTest(a: Vec3, b: Vec3, r: real, dist: real)
    requires 0.0 <= dist && dist * dist == SqDist(a, b)
    ensures TooClose(a, b, r) <==> dist < 2.0 * r
  {
    var t := 2.0 * r;
    assert t * t == 4.0 * r * r;
    assert t * t - dist * dist == (t - dist) * (t + dist);
    if dist < t {
      PositiveProduct(t - dist, t + dist);
    } else if 0.0 < r {
      NonNegativeProduct(dist - t, t + dist);
    }
  }

  /** Some stored position is too close to p. */
  predicate Overlapping(ps: seq<Vec3>, p: Vec3, r: real) {
    exists k :: 0 <= k < |ps| && TooClose(p, ps[k], r)
  }

  /** Every position is at least 2r from every earlier one. */
  predicate Separated(ps: seq<Vec3>, r: real) {
    forall i, j :: 0 <= i < j < |ps| ==> !TooClose(ps[j], ps[i], r)
  }

  /** Appending a position that overlaps nothing keeps the positions separated. */
  lemma AppendKeepsSeparated(ps: seq<Vec3>, c: Vec3, r: real)
    requires Separated(ps, r) && !Overlapping(ps, c, r)
    ensures Separated(ps + [c], r)
  {
    var ps' := ps + [c];
    forall i, j | 0 <= i < j < |ps'| ensures !TooClose(ps'[j], ps'[i], r) {
      if j == |ps| {
        assert ps'[i] == ps[i];
      } else {
        assert ps'[j] == ps[j] && ps'[i] == ps[i];
      }
    }
  }

  /** One coordinate of a candidate: min + rand() / (RAND_MAX / (max - min)). */
  function Coordinate(lo: real, hi: real, v: int, randMax: int): real
    requires randMax > 0 && lo < hi
  {
    lo + v as real / (randMax as real / (hi - lo))
  }

  lemma CoordinateInRange(lo: real, hi: real, v: int, randMax: int)
    requires randMax > 0 && lo < hi && 0 <= v <= randMax
    ensures lo <= Coordinate(lo, hi, v, randMax) <= hi
  {
    var m, w := randMax as real, hi - lo;
    assert v as real / (m / w) == v as real * w / m;
    assert v as real * w / m * m == v as real * w;
    assert v as real * w <= m * w;
  }

  /** The k-th candidate position, from the three rand() values 3k, 3k+1 and 3k+2. */
  function Candidate(rand: nat -> int, randMax: int, k: nat): Vec3
    requires randMax > 0
  {
    Vec3(Coordinate(BoxMin, BoxMax, rand(3 * k), randMax),
         Coordinate(BoxMin, BoxMax, rand(3 * k + 1), randMax),
         Coordinate(BoxMin, BoxMax, rand(3 * k + 2), randMax))
  }

  predicate InBox(p: Vec3) {
    BoxMin <= p.x <= BoxMax && BoxMin <= p.y <= BoxMax && BoxMin <= p.z <= BoxMax
  }

  /** The number of candidates, among the n from the k-th on, that overlap
      before the first that does not. cand(k) is the k-th candidate drawn
      (Candidate, for the rand() stream the program sees). ps is part of the
      decreases clause only so that the verifier does not unfold FirstFree
      without bound whenever n is a literal. */
  function FirstFree(ps: seq<Vec3>, r: real, cand: nat -> Vec3, k: nat, n: nat): (t: nat)
    ensures t <= n
    decreases n, ps
  {
    if n == 0 || !Overlapping(ps, cand(k), r) then 0
    else 1 + FirstFree(ps, r, cand, k + 1, n - 1)
  }

  /** FirstFree skips exactly the overlapping candidates: all those it passes
      over overlap, and, unless it ran out of candidates, the one it stops at does not. */
  lemma {:induction false} FirstFreeSkipsOverlapping(ps: seq<Vec3>, r: real, cand: nat -> Vec3, k: nat, n: nat)
    ensures var t := FirstFree(ps, r, cand, k, n);
            && (forall m :: k <= m < k + t ==> Overlapping(ps, cand(m), r))
            && (t < n ==> !Overlapping(ps, cand(k + t), r))
    decreases n
  {
    if n > 0 && Overlapping(ps, cand(k), r) {
      FirstFreeSkipsOverlapping(ps, r, cand, k + 1, n - 1);
    }
  }

  /** FirstFree is the only count with the property FirstFreeSkipsOverlapping states. */
  lemma {:induction false} FirstFreeIs(ps: seq<Vec3>, r: real, cand: nat -> Vec3, k: nat, n: nat, t: nat)
    requires t <= n
    requires forall m :: k <= m < k + t ==> Overlapping(ps, cand(m), r)
    requires t < n ==> !Overlapping(ps, cand(k + t), r)
    ensures FirstFree(ps, r, cand, k, n) == t
    decreases t
  {
    if t > 0 {
      assert Overlapping(ps, cand(k), r);
      FirstFreeIs(ps, r, cand, k + 1, n - 1, t - 1);
    }
  }

  /** The positions after placing and the number of candidates drawn. */
  datatype Placement = Placement(positions: seq<Vec3>, drawn: nat)

  /** One pass of SetPosition's inner loop, candidate k being the next to draw:
      up to tries candidates are drawn and the first that overlaps nothing is appended. */
  function PlaceOne(ps: seq<Vec3>, r: real, cand: nat -> Vec3, k: nat, tries: nat): (res: Placement)
  {
    var t := FirstFree(ps, r, cand, k, tries);
    if t < tries then Placement(ps + [cand(k + t)], k + t + 1)
    else Placement(ps, k + t)
  }

  /** A pass draws at most tries candidates, and at least one, and appends at most one
      position, one that overlaps none of the positions before it. */
  lemma PlaceOneSpec(ps: seq<Vec3>, r: real, cand: nat -> Vec3, k: nat, tries: nat)
    ensures var res := PlaceOne(ps, r, cand, k, tries);
            && k <= res.drawn <= k + tries && (0 < tries ==> k < res.drawn)
            && (res.positions == ps
                || (res.positions == ps + [cand(res.drawn - 1)] && !Overlapping(ps, cand(res.drawn - 1), r)))
  {
    FirstFreeSkipsOverlapping(ps, r, cand, k, tries);
  }

  /** How PlaceOne ends, given that the first t candidates from the k-th on
      overlap: with no free candidate among the tries, or at the t-th when it is free. */
  lemma PlaceOneEnds(ps: seq<Vec3>, r: real, cand: nat -> Vec3, k: nat, tries: nat, t: nat)
    requires t <= tries
    requires forall m :: k <= m < k + t ==> Overlapping(ps, cand(m), r)
    ensures t == tries ==> PlaceOne(ps, r, cand, k, tries) == Placement(ps, k + tries)
    ensures t < tries && !Overlapping(ps, cand(k + t), r) ==>
              PlaceOne(ps, r, cand, k, tries) == Placement(ps + [cand(k + t)], k + t + 1)
  {
    if t == tries {
      FirstFreeIs(ps, r, cand, k, tries, t);
    } else if !Overlapping(ps, cand(k + t), r) {
      FirstFreeIs(ps, r, cand, k, tries, t);
    }
  }

  /** The outer loop of SetPosition from slot to slot, candidate k being the
      next to draw; SetPosition itself uses NumSpheres slots and MaxTries tries.
      ps is in the decreases clause for the same reason as in FirstFree. */
  function Place(ps: seq<Vec3>, r: real, cand: nat -> Vec3, k: nat, slots: nat, tries: nat): (res: Placement)
    decreases slots, ps
  {
    if slots == 0 then Placement(ps, k)
    else
      var one := PlaceOne(ps, r, cand, k, tries);
      Place(one.positions, r, cand, one.drawn, slots - 1, tries)
  }

  /** One slot, then the rest. */
  lemma PlaceStep(ps: seq<Vec3>, r: real, cand: nat -> Vec3, k: nat, slots: nat, tries: nat)
    requires slots > 0
    ensures var one := PlaceOne(ps, r, cand, k, tries);
            Place(ps, r, cand, k, slots, tries) == Place(one.positions, r, cand, one.drawn, slots - 1, tries)
  {
  }

  /** Placing appends at most one position per slot and draws at most tries
      candidates per slot. */
  lemma {:induction false} PlaceCounts(ps: seq<Vec3>, r: real, cand: nat -> Vec3, k: nat, slots: nat, tries: nat)
    ensures var res := Place(ps, r, cand, k, slots, tries);
            && |ps| <= |res.positions| <= |ps| + slots
            && k <= res.drawn <= k + slots * tries
    decreases slots
  {
    if slots > 0 {
      var one := PlaceOne(ps, r, cand, k, tries);
      PlaceOneSpec(ps, r, cand, k, tries);
      PlaceCounts(one.positions, r, cand, one.drawn, slots - 1, tries);
      assert (slots - 1) * tries + tries == slots * tries;
    }
  }

  /** Placing keeps the positions already placed where they are. */
  lemma {:induction false} PlaceExtends(ps: seq<Vec3>, r: real, cand: nat -> Vec3, k: nat, slots: nat, tries: nat)
    ensures var res := Place(ps, r, cand, k, slots, tries);
            |ps| <= |res.positions| && res.positions[..|ps|] == ps
    decreases slots
  {
    if slots > 0 {
      var one := PlaceOne(ps, r, cand, k, tries);
      PlaceOneSpec(ps, r, cand, k, tries);
      PlaceExtends(one.positions, r, cand, one.drawn, slots - 1, tries);
      var res := Place(one.positions, r, cand, one.drawn, slots - 1, tries);
      assert one.positions[..|ps|] == ps;
      assert res.positions[..|ps|] == res.positions[..|one.positions|][..|ps|];
    }
  }

  /** Placing keeps the positions separated: a candidate is kept only when it
      overlaps none of the positions already placed. */
  lemma {:induction false} PlaceSeparated(ps: seq<Vec3>, r: real, cand: nat -> Vec3, k: nat, slots: nat, tries: nat)
    requires Separated(ps, r)
    ensures Separated(Place(ps, r, cand, k, slots, tries).positions, r)
    decreases slots
  {
    if slots > 0 {
      var one := PlaceOne(ps, r, cand, k, tries);
      PlaceOneSpec(ps, r, cand, k, tries);
      if one.positions != ps {
        AppendKeepsSeparated(ps, cand(one.drawn - 1), r);
      }
      PlaceSeparated(one.positions, r, cand, one.drawn, slots - 1, tries);
    }
  }

  /** With every rand() value in [0, RAND_MAX], every candidate lies inside the box. */
  lemma CandidateInBox(rand: nat -> int, randMax: int, k: nat)
    requires randMax > 0
    requires forall m: nat :: 0 <= rand(m) <= randMax
    ensures InBox(Candidate(rand, randMax, k))
  {
    CoordinateInRange(BoxMin, BoxMax, rand(3 * k), randMax);
    CoordinateInRange(BoxMin, BoxMax, rand(3 * k + 1), randMax);
    CoordinateInRange(BoxMin, BoxMax, rand(3 * k + 2), randMax);
  }

  /** Every position has the property good. */
  ghost predicate AllGood(ps: seq<Vec3>, good: Vec3 -> bool) {
    forall m :: 0 <= m < |ps| ==> good(ps[m])
  }

  lemma AppendAllGood(ps: seq<Vec3>, c: Vec3, good: Vec3 -> bool)
    requires AllGood(ps, good) && good(c)
    ensures AllGood(ps + [c], good)
  {
    assert forall m :: 0 <= m < |ps| ==> (ps + [c])[m] == ps[m];
  }

  /** Placements keep only drawn candidates: any property every candidate and
      every position already placed has, every resulting position has. */
  lemma {:induction false} PlaceKeeps(ps: seq<Vec3>, r: real, cand: nat -> Vec3, k: nat, slots: nat, tries: nat,
                                      good: Vec3 -> bool)
    requires forall m: nat :: good(cand(m))
    requires AllGood(ps, good)
    ensures AllGood(Place(ps, r, cand, k, slots, tries).positions, good)
    decreases slots
  {
    if slots > 0 {
      var one := PlaceOne(ps, r, cand, k, tries);
      PlaceOneSpec(ps, r, cand, k, tries);
      if one.positions != ps {
        AppendAllGood(ps, cand(one.drawn - 1), good);
      }
      PlaceKeeps(one.positions, r, cand, one.drawn, slots - 1, tries, good);
    }
  }

  /** The candidate stream drawn from the rand() values. */
  function Candidates(rand: nat -> int, randMax: int): nat -> Vec3
    requires randMax > 0
  {
    (k: nat) => Candidate(rand, randMax, k)
  }

  /** Where SetPosition puts the spheres, starting from positions ps. */
  function Placed(ps: seq<Vec3>, r: real, rand: nat -> int, randMax: int): seq<Vec3>
    requires randMax > 0
  {
    Place(ps, r, Candidates(rand, randMax), 0, NumSpheres, MaxTries).positions
  }

  /** With a radius that is not positive nothing is too close, so every slot
      keeps the first candidate it draws. */
  lemma {:induction false} PlaceWithoutRadius(ps: seq<Vec3>, r: real, cand: nat -> Vec3, k: nat, slots: nat, tries: nat)
    requires r <= 0.0 && tries > 0
    ensures var res := Place(ps, r, cand, k, slots, tries);
            && |res.positions| == |ps| + slots && res.drawn == k + slots
            && res.positions[..|ps|] == ps
            && forall j :: |ps| <= j < |ps| + slots ==> res.positions[j] == cand(k + (j - |ps|))
    decreases slots
  {
    if slots > 0 {
      assert !Overlapping(ps, cand(k), r);
      assert FirstFree(ps, r, cand, k, tries) == 0;
      var ps' := ps + [cand(k)];
      PlaceWithoutRadius(ps', r, cand, k + 1, slots - 1, tries);
      var res := Place(ps', r, cand, k + 1, slots - 1, tries);
      assert res.positions[..|ps|] == res.positions[..|ps'|][..|ps|];
      assert res.positions[|ps|] == res.positions[..|ps'|][|ps|];
    }
  }

  /** SetPosition keeps the positions it started with and adds at most
      NumSpheres more, none of them within 2r of any position before it. */
  lemma PlacedSeparated(ps: seq<Vec3>, r: real, rand: nat -> int, randMax: int)
    requires randMax > 0 && Separated(ps, r)
    ensures var res := Placed(ps, r, rand, randMax);
            && |ps| <= |res| <= |ps| + NumSpheres && res[..|ps|] == ps
            && Separated(res, r)
  {
    var cand := Candidates(rand, randMax);
    PlaceCounts(ps, r, cand, 0, NumSpheres, MaxTries);
    PlaceExtends(ps, r, cand, 0, NumSpheres, MaxTries);
    PlaceSeparated(ps, r, cand, 0, NumSpheres, MaxTries);
  }

  /** When every rand() value lies in [0, RAND_MAX], every sphere SetPosition
      adds lies inside the placement box. */
  lemma PlacedInBox(ps: seq<Vec3>, r: real, rand: nat -> int, randMax: int)
    requires randMax > 0 && forall m: nat :: 0 <= rand(m) <= randMax
    requires AllGood(ps, InBox)
    ensures AllGood(Placed(ps, r, rand, randMax), InBox)
  {
    var cand := Candidates(rand, randMax);
    forall m: nat ensures InBox(cand(m)) {
      CandidateInBox(rand, randMax, m);
    }
    PlaceKeeps(ps, r, cand, 0, NumSpheres, MaxTries, InBox);
  }

  /** With a radius that is not positive SetPosition places all NumSpheres
      spheres, at the first NumSpheres candidates. */
  lemma PlacedWithoutRadius(ps: seq<Vec3>, r: real, rand: nat -> int, randMax: int)
    requires randMax > 0 && r <= 0.0
    ensures var res := Placed(ps, r, rand, randMax);
            && |res| == |ps| + NumSpheres && res[..|ps|] == ps
            && forall j :: |ps| <= j < |res| ==> res[j] == Candidate(rand, randMax, j - |ps|)
  {
    var numSpheres, maxTries := NumSpheres, MaxTries;
    PlaceWithoutRadius(ps, r, Candidates(rand, randMax), 0, numSpheres, maxTries);
  }

  // ---- Rotation ----

  /** Degrees per second Update turns every sphere about the Y axis. */
  const SpinRate := 80.0

  /** Rotation after frames lasting dts seconds, one Update per frame. */
  function Spin(rotation: Vec3, dts: seq<real>): Vec3
    decreases |dts|
  {
    if dts == [] then rotation
    else Spin(rotation.(y := rotation.y + SpinRate * dts[0]), dts[1..])
  }

  function Sum(xs: seq<real>): real
    decreases |xs|
  {
    if xs == [] then 0.0 else xs[0] + Sum(xs[1..])
  }

  /** Only the Y angle turns, by SpinRate times the total elapsed time. */
  lemma {:induction false} SpinTotal(rotation: Vec3, dts: seq<real>)
    ensures Spin(rotation, dts) == rotation.(y := rotation.y + SpinRate * Sum(dts))
    decreases |dts|
  {
    if dts != [] {
      SpinTotal(rotation.(y := rotation.y + SpinRate * dts[0]), dts[1..]);
    }
  }

  // ---- The Sphere object ----

  /** CreateSphere's quality (rings and sectors) and radius. */
  const Quality := 20
  const MeshRadius := 0.4

  /** The mesh CreateSphere builds. */
  function SphereMesh(dir: (int, int) -> Vec3): Mesh {
    Mesh(SphereVertices(Quality, MeshRadius, dir), SphereIndices(Quality), Quality * Quality * 8, Quality * Quality * 6)
  }

  /** A quality-q sphere mesh is well formed: its counts are the lengths of
      its arrays and every index names one of its q*q vertices. */
  lemma SphereGridWellFormed(q: nat, radius: real, dir: (int, int) -> Vec3)
    requires q > 1
    ensures WellFormed(Mesh(SphereVertices(q, radius, dir), SphereIndices(q), q * q * 8, q * q * 6))
  {
    SphereIndicesInRange(q);
    assert q * q * 8 / FloatsPerVertex == q * q;
  }

  lemma SphereMeshWellFormed(dir: (int, int) -> Vec3)
    ensures WellFormed(SphereMesh(dir))
  {
    var q, radius := Quality, MeshRadius;
    SphereGridWellFormed(q, radius, dir);
  }

  class Sphere {
    var positions: seq<Vec3>
    var position: Vec3
    var rotation: Vec3
    var mesh: Mesh
    var indexCount: int

    /** position and rotation start at zero; the mesh is built, then the spheres
        are placed. sphereRadius is the member SetPosition is given. */
    constructor (sphereRadius: real, dir: (int, int) -> Vec3, rand: nat -> int, randMax: int)
      requires randMax > 0
      ensures position == Zero && rotation == Zero
      ensures mesh == SphereMesh(dir)
      ensures indexCount == Quality * Quality * 6
      ensures positions == Placed([], sphereRadius, rand, randMax)
    {
      positions := [];
      position := Zero;
      rotation := Zero;
      mesh := Mesh([], [], 0, 0);
      indexCount := 0;
      new;
      CreateSphere(dir);
      SetPosition(sphereRadius, rand, randMax);
    }

    /** Writes the three floats a, b, c at offsets at, at+1 and at+2. */
    static method PutTriple(vertices: array<real>, at: int, a: real, b: real, c: real)
      requires 0 <= at && at + 3 <= vertices.Length
      modifies vertices
      ensures forall n :: 0 <= n < vertices.Length && !(at <= n < at + 3) ==> vertices[n] == old(vertices[n])
      ensures vertices[at] == a && vertices[at + 1] == b && vertices[at + 2] == c
    {
      vertices[at] := a;
      vertices[at + 1] := b;
      vertices[at + 2] := c;
    }

    /** Writes the 8 floats of vertex (i, j) from offset element on: position,
        texture coordinate, normal. */
    static method PutVertex(vertices: array<real>, element: int, quality: nat, radius: real,
                            dir: (int, int) -> Vec3, i: int, j: int) returns (next: int)
      requires quality > 1 && 0 <= i < quality && 0 <= j < quality
      requires vertices.Length == quality * quality * 8 && element == 8 * (i * quality + j)
      modifies vertices
      ensures next == element + 8 && next <= vertices.Length
      ensures forall n :: 0 <= n < vertices.Length && !(element <= n < next) ==> vertices[n] == old(vertices[n])
      ensures forall n :: element <= n < next ==> vertices[n] == VertexRow(quality, radius, dir, i, j)[n - element]
    {
      GridVertex(quality, i, j);
      assert element + 8 <= vertices.Length;
      var d := dir(i, j);
      var x, y, z := d.x, d.y, d.z;
      PutTriple(vertices, element, x * radius, y * radius, z * radius);
      vertices[element + 3] := i as real / (quality - 1) as real;
      vertices[element + 4] := 1.0 - j as real / (quality - 1) as real;
      PutTriple(vertices, element + 5, x, y, z);
      next := element + 8;
    }

    /** Writes the 6 indices of quad (i, j) from offset element on. */
    static method PutQuad(indices: array<int>, element: int, quality: nat, i: int, j: int) returns (next: int)
      requires quality > 0 && 0 <= i < quality && 0 <= j < quality
      requires indices.Length == quality * quality * 6 && element == 6 * (i * quality + j)
      modifies indices
      ensures next == element + 6 && next <= indices.Length
      ensures forall n :: 0 <= n < indices.Length && !(element <= n < next) ==> indices[n] == old(indices[n])
      ensures forall n :: element <= n < next ==> indices[n] == QuadIndices(quality, i, j)[n - element]
    {
      GridVertex(quality, i, j);
      assert element + 6 <= indices.Length;
      var corner := ((i + 1) % quality) * quality + (j + 1) % quality;
      var here := i * quality + j;
      var below := ((i + 1) % quality) * quality + j;
      var right := i * quality + (j + 1) % quality;
      indices[element] := corner;
      indices[element + 1] := here;
      indices[element + 2] := below;
      indices[element + 3] := right;
      indices[element + 4] := here;
      indices[element + 5] := corner;
      assert [corner, here, below, right, here, corner] == QuadIndices(quality, i, j);
      next := element + 6;
    }

    /** Fills the vertex array ring by ring, then the index array quad by quad,
        and hands both to the mesh. */
    method CreateSphere(dir: (int, int) -> Vec3)
      modifies this`mesh, this`indexCount
      ensures mesh == SphereMesh(dir)
      ensures indexCount == Quality * Quality * 6
    {
      var radius := MeshRadius;
      var quality: nat := Quality;
      var vertexCount := quality * quality * FloatsPerVertex;
      var vertices := new real[vertexCount];
      var element := 0;
      for i := 0 to quality
        invariant element == 8 * (i * quality)
        modifies vertices
        invariant forall n :: 0 <= n < element ==> vertices[n] == SphereVertices(quality, radius, dir)[n]
      {
        for j := 0 to quality
          invariant element == 8 * (i * quality + j)
          modifies vertices
          invariant forall n :: 0 <= n < element ==> vertices[n] == SphereVertices(quality, radius, dir)[n]
        {
          VertexLayout(quality, radius, dir, i, j);
          element := PutVertex(vertices, element, quality, radius, dir, i, j);
        }
      }
      assert vertices[..] == SphereVertices(quality, radius, dir);

      indexCount := quality * quality * 6;
      var indices := new int[indexCount];
      element := 0;
      for i := 0 to quality
        invariant element == 6 * (i * quality)
        modifies indices
        invariant forall n :: 0 <= n < element ==> indices[n] == SphereIndices(quality)[n]
      {
        for j := 0 to quality
          invariant element == 6 * (i * quality + j)
          modifies indices
          invariant forall n :: 0 <= n < element ==> indices[n] == SphereIndices(quality)[n]
        {
          QuadLayout(quality, i, j);
          element := PutQuad(indices, element, quality, i, j);
        }
      }
      assert indices[..] == SphereIndices(quality);
      mesh := Mesh(vertices[..], indices[..], vertexCount, indexCount);
    }

    /** isOverlapping: some stored position is closer than 2r to newPos. */
    method IsOverlapping(newPos: Vec3, r: real) returns (b: bool)
      ensures b == Overlapping(positions, newPos, r)
    {
      for k := 0 to |positions|
        invariant forall m :: 0 <= m < k ==> !TooClose(newPos, positions[m], r)
      {
        if TooClose(newPos, positions[k], r) {
          return true;
        }
      }
      return false;
    }

    /** The retry loop of SetPosition: draws candidates from next on, up to
        maxTries of them, until one overlaps no stored position. */
    method DrawFree(r: real, rand: nat -> int, randMax: int, next: nat, maxTries: nat)
      returns (newPos: Vec3, overlapping: bool, tries: nat)
      requires randMax > 0
      ensures tries <= maxTries
      ensures forall m :: next <= m < next + tries ==> Overlapping(positions, Candidate(rand, randMax, m), r)
      ensures overlapping ==> tries == maxTries
      ensures !overlapping ==> tries < maxTries && newPos == Candidate(rand, randMax, next + tries)
                                && !Overlapping(positions, newPos, r)
    {
      var drawn := next;
      overlapping := true;
      newPos := Zero;
      tries := 0;
      while tries < maxTries
        invariant 0 <= tries <= maxTries && drawn == next + tries && overlapping
        invariant forall m :: next <= m < drawn ==> Overlapping(positions, Candidate(rand, randMax, m), r)
      {
        newPos := Candidate(rand, randMax, drawn);
        drawn := drawn + 1;
        overlapping := IsOverlapping(newPos, r);
        if !overlapping {
          return;
        }
        tries := tries + 1;
      }
    }

    /** One slot of SetPosition: the first free candidate, if any, is stored. */
    method PlaceSlot(r: real, rand: nat -> int, randMax: int, next: nat, maxTries: nat) returns (drawn: nat)
      requires randMax > 0
      modifies this`positions
      ensures Placement(positions, drawn) == PlaceOne(old(positions), r, Candidates(rand, randMax), next, maxTries)
    {
      ghost var cand := Candidates(rand, randMax);
      var newPos, overlapping, tries := DrawFree(r, rand, randMax, next, maxTries);
      assert forall m :: next <= m < next + tries ==> Overlapping(positions, cand(m), r);
      if overlapping {
        PlaceOneEnds(positions, r, cand, next, maxTries, tries);
        drawn := next + tries;
      } else {
        assert newPos == cand(next + tries);
        PlaceOneEnds(positions, r, cand, next, maxTries, tries);
        positions := positions + [newPos];
        drawn := next + tries + 1;
      }
    }

    /** SetPosition: up to NumSpheres slots, each drawing up to MaxTries candidates. */
    method SetPosition(r: real, rand: nat -> int, randMax: int)
      requires randMax > 0
      modifies this`positions
      ensures positions == Placed(old(positions), r, rand, randMax)
    {
      ghost var cand := Candidates(rand, randMax);
      var numSpheres, maxTries := NumSpheres, MaxTries;
      var next: nat := 0;
      ghost var placed := Place(positions, r, cand, next, numSpheres, maxTries);
      for i := 0 to numSpheres
        invariant Place(positions, r, cand, next, numSpheres - i, maxTries) == placed
      {
        ghost var before, drawn := positions, next;
        next := PlaceSlot(r, rand, randMax, next, maxTries);
        PlaceStep(before, r, cand, drawn, numSpheres - i, maxTries);
      }
    }

    /** Turns by SpinRate degrees per second about the Y axis. */
    method Update(deltaTime: real)
      modifies this`rotation
      ensures rotation == Spin(old(rotation), [deltaTime])
    {
      rotation := rotation.(y := rotation.y + SpinRate * deltaTime);
    }
  }
}
