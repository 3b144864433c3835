/**
 * Points and the axis-aligned bounding box the loader keeps in its
 * `ModelDimensions` collaborator: `set` starts the box at one point and
 * `update` widens it, axis by axis, to take in another.
 */
module Geometry {

  /** A triple of coordinates: a position, a normal or a texture coordinate `(u, v, w)`. */
  datatype Vec3 = Vec3(x: real, y: real, z: real)

  /** The running minimum corner `lo` and maximum corner `hi`. */
  datatype Box = Box(lo: Vec3, hi: Vec3)

  function Min(a: real, b: real): real { if a <= b then a else b }
  function Max(a: real, b: real): real { if a <= b then b else a }

  /** `ModelDimensions.set(x, y, z)`: the box holding exactly one point. */
  function SetBox(p: Vec3): (b: Box)
    ensures Inside(p, b)
    ensures forall q :: Inside(q, b) ==> q == p
  {
    Box(p, p)
  }

  /** `ModelDimensions.update(x, y, z)`: the box widened axis by axis to take in `p`. */
  function Extend(b: Box, p: Vec3): (r: Box)
    ensures Inside(p, r)
    ensures forall q :: Inside(q, b) ==> Inside(q, r)
    ensures (r.lo.x == b.lo.x || r.lo.x == p.x) && (r.hi.x == b.hi.x || r.hi.x == p.x)
    ensures (r.lo.y == b.lo.y || r.lo.y == p.y) && (r.hi.y == b.hi.y || r.hi.y == p.y)
    ensures (r.lo.z == b.lo.z || r.lo.z == p.z) && (r.hi.z == b.hi.z || r.hi.z == p.z)
  {
    Box(Vec3(Min(b.lo.x, p.x), Min(b.lo.y, p.y), Min(b.lo.z, p.z)),
        Vec3(Max(b.hi.x, p.x), Max(b.hi.y, p.y), Max(b.hi.z, p.z)))
  }

  predicate Inside(p: Vec3, b: Box) {
    b.lo.x <= p.x <= b.hi.x && b.lo.y <= p.y <= b.hi.y && b.lo.z <= p.z <= b.hi.z
  }

  /** The box after `update` has been called with each of `ps`, in order, starting from `b`. */
  function ExtendAll(b: Box, ps: seq<Vec3>): Box {
    if ps == [] then b else Extend(ExtendAll(b, ps[..|ps| - 1]), ps[|ps| - 1])
  }

  /** The box after `set` with the first point and `update` with every later one. */
  function Hull(ps: seq<Vec3>): Box
    requires ps != []
  {
    ExtendAll(SetBox(ps[0]), ps[1..])
  }

  /** Widening by one more point is the last step of the fold. */
  lemma {:induction false} HullSnoc(ps: seq<Vec3>, p: Vec3)
    requires ps != []
    ensures Hull(ps + [p]) == Extend(Hull(ps), p)
  {
    assert (ps + [p])[1..] == ps[1..] + [p];
    assert (ps[1..] + [p])[..|ps[1..]|] == ps[1..];
  }

  /** Every point fed to `update` lies in the final box, and so does everything the first box held. */
  lemma {:induction false} ExtendAllContains(b: Box, ps: seq<Vec3>)
    ensures forall q :: Inside(q, b) ==> Inside(q, ExtendAll(b, ps))
    ensures forall i :: 0 <= i < |ps| ==> Inside(ps[i], ExtendAll(b, ps))
  {
    if ps != [] {
      var init := ps[..|ps| - 1];
      ExtendAllContains(b, init);
      forall i | 0 <= i < |ps| ensures Inside(ps[i], ExtendAll(b, ps)) {
        if i < |ps| - 1 {
          assert ps[i] == init[i];
        }
      }
    }
  }

  /**
   * Each face of the box after the `update` calls lies where the first box had
   * it or on one of the points: `update` never widens the box further than it
   * must.
   */
  lemma {:induction false} ExtendAllIsTight(b: Box, ps: seq<Vec3>)
    ensures var r := ExtendAll(b, ps);
      && (r.lo.x == b.lo.x || exists i :: 0 <= i < |ps| && r.lo.x == ps[i].x)
      && (r.lo.y == b.lo.y || exists i :: 0 <= i < |ps| && r.lo.y == ps[i].y)
      && (r.lo.z == b.lo.z || exists i :: 0 <= i < |ps| && r.lo.z == ps[i].z)
      && (r.hi.x == b.hi.x || exists i :: 0 <= i < |ps| && r.hi.x == ps[i].x)
      && (r.hi.y == b.hi.y || exists i :: 0 <= i < |ps| && r.hi.y == ps[i].y)
      && (r.hi.z == b.hi.z || exists i :: 0 <= i < |ps| && r.hi.z == ps[i].z)
  {
    if ps != [] {
      var init := ps[..|ps| - 1];
      ExtendAllIsTight(b, init);
      forall i | 0 <= i < |init| ensures init[i] == ps[i] { }
    }
  }

  /** The bounding box contains every point. */
  lemma {:induction false} HullContains(ps: seq<Vec3>)
    requires ps != []
    ensures forall i :: 0 <= i < |ps| ==> Inside(ps[i], Hull(ps))
  {
    ExtendAllContains(SetBox(ps[0]), ps[1..]);
    forall i | 0 <= i < |ps| ensures Inside(ps[i], Hull(ps)) {
      if i > 0 {
        assert ps[i] == ps[1..][i - 1];
      }
    }
  }

  /** Each of the six faces of the bounding box touches one of the points: the box is the smallest one. */
  lemma {:induction false} HullIsTight(ps: seq<Vec3>)
    requires ps != []
    ensures exists i :: 0 <= i < |ps| && Hull(ps).lo.x == ps[i].x
    ensures exists i :: 0 <= i < |ps| && Hull(ps).lo.y == ps[i].y
    ensures exists i :: 0 <= i < |ps| && Hull(ps).lo.z == ps[i].z
    ensures exists i :: 0 <= i < |ps| && Hull(ps).hi.x == ps[i].x
    ensures exists i :: 0 <= i < |ps| && Hull(ps).hi.y == ps[i].y
    ensures exists i :: 0 <= i < |ps| && Hull(ps).hi.z == ps[i].z
    decreases |ps|
  {
    if |ps| == 1 {
      assert ps[1..] == [];
      assert Hull(ps) == Box(ps[0], ps[0]);
      assert Hull(ps).lo.x == ps[0].x && Hull(ps).lo.y == ps[0].y && Hull(ps).lo.z == ps[0].z;
      assert Hull(ps).hi.x == ps[0].x && Hull(ps).hi.y == ps[0].y && Hull(ps).hi.z == ps[0].z;
    } else {
      var init := ps[..|ps| - 1];
      var last := |ps| - 1;
      assert ps == init + [ps[last]];
      HullSnoc(init, ps[last]);
      HullIsTight(init);
      var h := Hull(init);
      forall i | 0 <= i < |init| ensures init[i] == ps[i] { }
      assert Hull(ps).lo.x == h.lo.x || Hull(ps).lo.x == ps[last].x;
      assert Hull(ps).lo.y == h.lo.y || Hull(ps).lo.y == ps[last].y;
      assert Hull(ps).lo.z == h.lo.z || Hull(ps).lo.z == ps[last].z;
      assert Hull(ps).hi.x == h.hi.x || Hull(ps).hi.x == ps[last].x;
      assert Hull(ps).hi.y == h.hi.y || Hull(ps).hi.y == ps[last].y;
      assert Hull(ps).hi.z == h.hi.z || Hull(ps).hi.z == ps[last].z;
    }
  }

  /** The worked example: (0,0,0), (2,-1,3), (-4,5,0) give min (-4,-1,0) and max (2,5,3). */
  lemma {:induction false} HullExample()
    ensures Hull([Vec3(0.0, 0.0, 0.0), Vec3(2.0, -1.0, 3.0), Vec3(-4.0, 5.0, 0.0)])
         == Box(Vec3(-4.0, -1.0, 0.0), Vec3(2.0, 5.0, 3.0))
  {
    var a, b, c := Vec3(0.0, 0.0, 0.0), Vec3(2.0, -1.0, 3.0), Vec3(-4.0, 5.0, 0.0);
    assert [a][1..] == [];
    assert Hull([a]) == SetBox(a);
    HullSnoc([a], b);
    assert [a] + [b] == [a, b];
    HullSnoc([a, b], c);
    assert [a, b] + [c] == [a, b, c];
  }
}
