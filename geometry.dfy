/**
  * Idealised geometry for the render group: Unity's float vectors, colours and
  * axis-aligned bounds become exact reals.
  */
module Geometry {

  /** A point or a direction in world space (Vector3). */
  datatype Vec3 = Vec3(x: real, y: real, z: real) {
    function Plus(o: Vec3): Vec3 { Vec3(x + o.x, y + o.y, z + o.z) }
    function Minus(o: Vec3): Vec3 { Vec3(x - o.x, y - o.y, z - o.z) }
    function Times(k: real): Vec3 { Vec3(x * k, y * k, z * k) }
  }

  const Zero := Vec3(0.0, 0.0, 0.0)
  const One := Vec3(1.0, 1.0, 1.0)
  /** The axes of an unrotated transform: transform.right, .up and .forward. */
  const Right := Vec3(1.0, 0.0, 0.0)
  const Up := Vec3(0.0, 1.0, 0.0)
  const Forward := Vec3(0.0, 0.0, 1.0)

  /** A screen-plane offset (Vector2). */
  datatype Vec2 = Vec2(x: real, y: real)

  /** An RGBA colour with components in [0, 1]. */
  datatype Color = Color(r: real, g: real, b: real, a: real)

  const White := Color(1.0, 1.0, 1.0, 1.0)
  const Transparent := Color(0.0, 0.0, 0.0, 0.0)

  function Min(a: real, b: real): real { if a < b then a else b }
  function Max(a: real, b: real): real { if a > b then a else b }

  /** Vector3.Min and Vector3.Max: the componentwise minimum and maximum. */
  function MinCorner(a: Vec3, b: Vec3): Vec3 { Vec3(Min(a.x, b.x), Min(a.y, b.y), Min(a.z, b.z)) }
  function MaxCorner(a: Vec3, b: Vec3): Vec3 { Vec3(Max(a.x, b.x), Max(a.y, b.y), Max(a.z, b.z)) }

  /**
    * An axis-aligned box kept by its two corners. Unity keeps a centre and an
    * extent; over exact reals the two representations say the same.
    */
  datatype Bounds = Bounds(min: Vec3, max: Vec3) {
    function Center(): Vec3 { min.Plus(max).Times(0.5) }
    function Size(): Vec3 { max.Minus(min) }
  }

  /** `new Bounds(center, size)`: the second argument is the full size, so each side is half of it away. */
  function BoundsAt(center: Vec3, size: Vec3): (b: Bounds)
    ensures b.Center() == center && b.Size() == size
  {
    Bounds(center.Minus(size.Times(0.5)), center.Plus(size.Times(0.5)))
  }

  /** `outer` covers `inner` on every axis. */
  ghost predicate Contains(outer: Bounds, inner: Bounds) {
    && outer.min.x <= inner.min.x && outer.min.y <= inner.min.y && outer.min.z <= inner.min.z
    && inner.max.x <= outer.max.x && inner.max.y <= outer.max.y && inner.max.z <= outer.max.z
  }

  lemma ContainsTransitive(a: Bounds, b: Bounds, c: Bounds)
    requires Contains(a, b) && Contains(b, c)
    ensures Contains(a, c)
  {
  }

  /** Bounds.Encapsulate(Bounds): a box that covers both boxes (the smallest, by EncapsulateIsLeast). */
  function Encapsulate(a: Bounds, b: Bounds): (r: Bounds)
    ensures Contains(r, a) && Contains(r, b)
  {
    Bounds(MinCorner(a.min, b.min), MaxCorner(a.max, b.max))
  }

  /** Any box covering both boxes covers their Encapsulate. */
  lemma EncapsulateIsLeast(a: Bounds, b: Bounds, c: Bounds)
    requires Contains(c, a) && Contains(c, b)
    ensures Contains(c, Encapsulate(a, b))
  {
  }

  /** `first` encapsulated with every box of `bs`, from the first to the last. */
  function Union(first: Bounds, bs: seq<Bounds>): Bounds
    decreases |bs|
  {
    if bs == [] then first else Encapsulate(Union(first, bs[..|bs| - 1]), bs[|bs| - 1])
  }

  /** One more box folded in. */
  lemma UnionStep(first: Bounds, bs: seq<Bounds>, i: nat)
    requires i < |bs|
    ensures Union(first, bs[..i + 1]) == Encapsulate(Union(first, bs[..i]), bs[i])
  {
    assert bs[..i + 1][..i] == bs[..i];
  }

  lemma UnionWhole(first: Bounds, bs: seq<Bounds>)
    ensures Union(first, bs[..|bs|]) == Union(first, bs)
  {
    assert bs[..|bs|] == bs;
  }

  /** Every box of `bs` lies inside `b`. */
  ghost predicate Encloses(b: Bounds, bs: seq<Bounds>) {
    forall i :: 0 <= i < |bs| ==> Contains(b, bs[i])
  }

  /** `b` is the smallest box enclosing `bs`: it encloses them and lies inside every box that does. */
  ghost predicate IsHull(b: Bounds, bs: seq<Bounds>) {
    Encloses(b, bs) && forall c :: Encloses(c, bs) ==> Contains(c, b)
  }

  /** The fold covers its start and every box folded in, and nothing more than it has to. */
  lemma {:induction false} UnionIsLeast(first: Bounds, bs: seq<Bounds>)
    ensures Contains(Union(first, bs), first) && Encloses(Union(first, bs), bs)
    ensures forall c :: Contains(c, first) && Encloses(c, bs) ==> Contains(c, Union(first, bs))
    decreases |bs|
  {
    if bs != [] {
      var init, last := bs[..|bs| - 1], bs[|bs| - 1];
      UnionIsLeast(first, init);
      var u := Union(first, init);
      assert Union(first, bs) == Encapsulate(u, last);
      forall i | 0 <= i < |bs| ensures Contains(Union(first, bs), bs[i]) {
        if i < |bs| - 1 {
          assert bs[i] == init[i];
          ContainsTransitive(Union(first, bs), u, bs[i]);
        }
      }
      ContainsTransitive(Union(first, bs), u, first);
      forall c | Contains(c, first) && Encloses(c, bs) ensures Contains(c, Union(first, bs)) {
        assert Encloses(c, init) by {
          forall i | 0 <= i < |init| ensures Contains(c, init[i]) { assert init[i] == bs[i]; }
        }
        assert Contains(c, last) by { assert last == bs[|bs| - 1]; }
        EncapsulateIsLeast(u, last, c);
      }
    }
  }

  /** Folding a non-empty list from its own first element gives the smallest enclosing box. */
  lemma UnionOfFirstIsHull(bs: seq<Bounds>)
    requires |bs| > 0
    ensures IsHull(Union(bs[0], bs), bs)
  {
    UnionIsLeast(bs[0], bs);
    forall c | Encloses(c, bs) ensures Contains(c, Union(bs[0], bs)) {
      assert Contains(c, bs[0]);
    }
  }

  /** Encapsulating a box that is already covered changes nothing (why folding bs[0] in twice is harmless). */
  lemma EncapsulateCovered(a: Bounds, b: Bounds)
    requires Contains(a, b)
    ensures Encapsulate(a, b) == a
  {
  }

  /** The box moved by `d`. */
  function Translate(b: Bounds, d: Vec3): (r: Bounds)
    ensures r.Center() == b.Center().Plus(d) && r.Size() == b.Size()
  {
    Bounds(b.min.Plus(d), b.max.Plus(d))
  }

  function TranslateAll(bs: seq<Bounds>, d: Vec3): (rs: seq<Bounds>)
    ensures |rs| == |bs| && forall i :: 0 <= i < |bs| ==> rs[i] == Translate(bs[i], d)
  {
    seq(|bs|, i requires 0 <= i < |bs| => Translate(bs[i], d))
  }

  lemma EncapsulateTranslate(a: Bounds, b: Bounds, d: Vec3)
    ensures Encapsulate(Translate(a, d), Translate(b, d)) == Translate(Encapsulate(a, b), d)
  {
  }

  /** Moving every box moves their union by the same amount. */
  lemma {:induction false} UnionTranslate(first: Bounds, bs: seq<Bounds>, d: Vec3)
    ensures Union(Translate(first, d), TranslateAll(bs, d)) == Translate(Union(first, bs), d)
    decreases |bs|
  {
    if bs != [] {
      var moved := TranslateAll(bs, d);
      assert moved[..|moved| - 1] == TranslateAll(bs[..|bs| - 1], d);
      UnionTranslate(first, bs[..|bs| - 1], d);
      EncapsulateTranslate(Union(first, bs[..|bs| - 1]), bs[|bs| - 1], d);
    }
  }

  lemma BoundsAtTranslate(center: Vec3, size: Vec3, d: Vec3)
    ensures BoundsAt(center.Plus(d), size) == Translate(BoundsAt(center, size), d)
  {
  }
}
