/**
 * Scene generation by rejection sampling (`SetupScene` of the controller).
 *
 * Every iteration of the generation loop draws one candidate sphere: a radius,
 * a position on the ground plane inside the placement disk, a colour and a
 * metal coin. The candidate is kept only when it overlaps none of the spheres
 * kept so far; a rejected candidate uses up its iteration (there is no retry).
 * The random source becomes a sequence of `Draw` values, one per iteration.
 */
module Scene {
  import opened Vectors
  import opened Ints

  /**
   * The serialized scene settings: `_sphereRadius` (its x is the lower end of
   * the radius range, its y the upper end), `_maxSpheres` and
   * `_spherePlacementRadius`. The controller does not validate them.
   * `_maxSpheres` is a `uint`.
   */
  datatype Config = Config(radiusMin: real, radiusMax: real, maxSpheres: uint32, placementRadius: real)

  /** The settings' initial values: radii in [3, 8], 100 attempts, a disk of radius 100. */
  const DefaultConfig: Config := Config(3.0, 8.0, 100, 100.0)

  /**
   * The random values one iteration consumes: `Random.value` for the radius,
   * `Random.insideUnitCircle` for the position, `Random.ColorHSV` already
   * converted to RGB, and `Random.value` for the metal coin.
   */
  datatype Draw = Draw(radiusValue: real, circleX: real, circleY: real, colour: Vec3, metalValue: real)

  /** The sphere record uploaded to the tracing kernel. */
  datatype Sphere = Sphere(position: Vec3, radius: real, albedo: Vec3, specular: Vec3)

  /** The ranges the engine's random source guarantees: values in [0, 1], a point of the closed unit disk. */
  predicate ValidDraw(d: Draw)
  {
    && 0.0 <= d.radiusValue <= 1.0
    && d.circleX * d.circleX + d.circleY * d.circleY <= 1.0
    && 0.0 <= d.metalValue <= 1.0
  }

  /**
   * The candidate of one iteration: radius interpolated in the configured
   * range, centre scaled into the placement disk and lifted by its radius so
   * that it rests on the plane y = 0. Albedo and specular keep the record's
   * zero default until the candidate is accepted.
   */
  function Place(cfg: Config, d: Draw): (s: Sphere)
    ensures s.position.y == s.radius
  {
    var radius := cfg.radiusMin + d.radiusValue * (cfg.radiusMax - cfg.radiusMin);
    var randomX := d.circleX * cfg.placementRadius;
    var randomY := d.circleY * cfg.placementRadius;
    Sphere(Vec3(randomX, radius, randomY), radius, Zero, Zero)
  }

  /** The rejection test: squared centre distance below the squared sum of the radii. */
  predicate Overlaps(a: Sphere, b: Sphere)
  {
    var minDist := a.radius + b.radius;
    SqrMagnitude(Sub(a.position, b.position)) < minDist * minDist
  }

  /** `candidate` overlaps none of `accepted`. */
  predicate Fits(candidate: Sphere, accepted: seq<Sphere>)
  {
    forall k :: 0 <= k < |accepted| ==> !Overlaps(candidate, accepted[k])
  }

  /** The non-overlap property: `|pa - pb|^2 >= (ra + rb)^2`. */
  predicate Separated(a: Sphere, b: Sphere)
  {
    SqrMagnitude(Sub(a.position, b.position)) >= (a.radius + b.radius) * (a.radius + b.radius)
  }

  /** Every two distinct spheres of the list are separated. */
  predicate PairwiseSeparated(spheres: seq<Sphere>)
  {
    forall i, j :: 0 <= i < |spheres| && 0 <= j < |spheres| && i != j ==> Separated(spheres[i], spheres[j])
  }

  /** The metal coin: `Random.value < 0.5`. */
  predicate IsMetal(d: Draw)
  {
    d.metalValue < 0.5
  }

  /** The specular colour of every dielectric, `Vector3.one * 0.04`. */
  const DielectricSpecular: Vec3 := Scale(One, 0.04)

  /** The material an accepted sphere gets from its draw. */
  predicate MaterialRule(s: Sphere, d: Draw)
  {
    if IsMetal(d) then s.albedo == Zero && s.specular == d.colour
    else s.albedo == d.colour && s.specular == Vec3(0.04, 0.04, 0.04)
  }

  /** Colours an accepted candidate, leaving its geometry as it is. */
  function WithMaterial(s: Sphere, d: Draw): (r: Sphere)
    ensures r.position == s.position && r.radius == s.radius
    ensures MaterialRule(r, d)
  {
    var metal := IsMetal(d);
    s.(albedo := if metal then Zero else d.colour,
       specular := if metal then d.colour else DielectricSpecular)
  }

  /** The sphere a draw contributes when it is accepted. */
  function Accept(cfg: Config, d: Draw): Sphere
  {
    WithMaterial(Place(cfg, d), d)
  }

  /**
   * The spheres the generation loop keeps after running over `draws`, one
   * iteration per draw, in order.
   */
  function Generate(cfg: Config, draws: seq<Draw>): (spheres: seq<Sphere>)
    ensures |spheres| <= |draws|
    decreases |draws|
  {
    if draws == [] then []
    else
      var accepted := Generate(cfg, draws[..|draws| - 1]);
      var d := draws[|draws| - 1];
      if Fits(Place(cfg, d), accepted) then accepted + [Accept(cfg, d)] else accepted
  }

  /** The positions in `draws` of the draws whose candidate was kept. */
  function AcceptedIndices(cfg: Config, draws: seq<Draw>): seq<nat>
    decreases |draws|
  {
    if draws == [] then []
    else
      var accepted := Generate(cfg, draws[..|draws| - 1]);
      var chosen := AcceptedIndices(cfg, draws[..|draws| - 1]);
      if Fits(Place(cfg, draws[|draws| - 1]), accepted) then chosen + [|draws| - 1] else chosen
  }

  /** Two spheres that do not overlap are separated, in either order. */
  lemma FitsSeparated(a: Sphere, b: Sphere)
    requires !Overlaps(a, b)
    ensures Separated(a, b) && Separated(b, a)
  {
    SqrDistanceSymmetric(a.position, b.position);
    assert a.radius + b.radius == b.radius + a.radius;
  }

  /** Appending a sphere that fits keeps a separated list separated. */
  lemma AppendSeparated(accepted: seq<Sphere>, candidate: Sphere, s: Sphere)
    requires PairwiseSeparated(accepted) && Fits(candidate, accepted)
    requires s.position == candidate.position && s.radius == candidate.radius
    ensures PairwiseSeparated(accepted + [s])
  {
    var r := accepted + [s];
    forall k | 0 <= k < |accepted|
      ensures Separated(s, accepted[k]) && Separated(accepted[k], s)
    {
      assert !Overlaps(candidate, accepted[k]);
      FitsSeparated(s, accepted[k]);
    }
    forall i, j | 0 <= i < |r| && 0 <= j < |r| && i != j
      ensures Separated(r[i], r[j])
    {
      if i == |accepted| {
        assert r[i] == s && r[j] == accepted[j];
      } else if j == |accepted| {
        assert r[i] == accepted[i] && r[j] == s;
      } else {
        assert r[i] == accepted[i] && r[j] == accepted[j];
      }
    }
  }

  /** Accepted spheres never overlap one another. */
  lemma {:induction false} GenerateSeparated(cfg: Config, draws: seq<Draw>)
    ensures PairwiseSeparated(Generate(cfg, draws))
    decreases |draws|
  {
    if draws != [] {
      var prefix := draws[..|draws| - 1];
      GenerateSeparated(cfg, prefix);
      var d := draws[|draws| - 1];
      if Fits(Place(cfg, d), Generate(cfg, prefix)) {
        AppendSeparated(Generate(cfg, prefix), Place(cfg, d), Accept(cfg, d));
      }
    }
  }

  /**
   * The kept spheres are exactly the accepted draws' spheres, taken in the
   * order of the draws, each draw at most once.
   */
  lemma {:induction false} AcceptedInOrder(cfg: Config, draws: seq<Draw>)
    ensures var idx, spheres := AcceptedIndices(cfg, draws), Generate(cfg, draws);
      && |idx| == |spheres|
      && (forall k :: 0 <= k < |idx| ==> idx[k] < |draws| && spheres[k] == Accept(cfg, draws[idx[k]]))
      && (forall k, l :: 0 <= k < l < |idx| ==> idx[k] < idx[l])
    decreases |draws|
  {
    if draws != [] {
      var prefix := draws[..|draws| - 1];
      AcceptedInOrder(cfg, prefix);
      assert forall k :: 0 <= k < |prefix| ==> prefix[k] == draws[k];
    }
  }

  /**
   * A draw is kept exactly when its candidate fits the spheres kept from the
   * draws before it.
   */
  lemma {:induction false} AcceptanceRule(cfg: Config, draws: seq<Draw>, i: nat)
    requires i < |draws|
    ensures i in AcceptedIndices(cfg, draws) <==> Fits(Place(cfg, draws[i]), Generate(cfg, draws[..i]))
    decreases |draws|
  {
    var prefix := draws[..|draws| - 1];
    AcceptedInOrder(cfg, prefix);
    if i < |draws| - 1 {
      AcceptanceRule(cfg, prefix, i);
      assert prefix[i] == draws[i];
      assert prefix[..i] == draws[..i];
    } else {
      assert prefix == draws[..i];
      assert i !in AcceptedIndices(cfg, prefix);
    }
  }

  /** Running over more draws only appends spheres: earlier ones are never removed or reordered. */
  lemma {:induction false} GenerateExtends(cfg: Config, draws: seq<Draw>, n: nat)
    requires n <= |draws|
    ensures Generate(cfg, draws[..n]) <= Generate(cfg, draws)
    decreases |draws|
  {
    if n < |draws| {
      var prefix := draws[..|draws| - 1];
      GenerateExtends(cfg, prefix, n);
      assert prefix[..n] == draws[..n];
    } else {
      assert draws[..n] == draws;
    }
  }

  /** The product of two non-negative reals is non-negative. */
  lemma ProductNonNegative(a: real, b: real)
    requires a >= 0.0 && b >= 0.0
    ensures a * b >= 0.0
  {
  }

  /** The radius of a candidate lies between the two ends of the configured range. */
  lemma RadiusInRange(cfg: Config, d: Draw)
    requires 0.0 <= d.radiusValue <= 1.0
    ensures cfg.radiusMin <= cfg.radiusMax ==> cfg.radiusMin <= Place(cfg, d).radius <= cfg.radiusMax
    ensures cfg.radiusMax < cfg.radiusMin ==> cfg.radiusMax <= Place(cfg, d).radius <= cfg.radiusMin
  {
    var span := cfg.radiusMax - cfg.radiusMin;
    var v := d.radiusValue;
    if span >= 0.0 {
      ProductNonNegative(v, span);
      ProductNonNegative(1.0 - v, span);
    } else {
      ProductNonNegative(v, -span);
      ProductNonNegative(1.0 - v, -span);
    }
  }

  /** The centre of a candidate lies inside the placement disk. */
  lemma PlacementInDisk(cfg: Config, d: Draw)
    requires d.circleX * d.circleX + d.circleY * d.circleY <= 1.0
    ensures var p := Place(cfg, d).position;
      p.x * p.x + p.z * p.z <= cfg.placementRadius * cfg.placementRadius
  {
    var p := Place(cfg, d).position;
    var r2 := cfg.placementRadius * cfg.placementRadius;
    var c2 := d.circleX * d.circleX + d.circleY * d.circleY;
    assert p.x * p.x + p.z * p.z == c2 * r2;
    assert r2 >= 0.0;
    assert (1.0 - c2) * r2 >= 0.0;
  }

  /**
   * A sphere rests on the ground plane, has a radius in the configured range
   * (when the range is ordered) and a centre inside the placement disk.
   */
  predicate WellPlaced(cfg: Config, s: Sphere)
  {
    && s.position.y == s.radius
    && (cfg.radiusMin <= cfg.radiusMax ==> cfg.radiusMin <= s.radius <= cfg.radiusMax)
    && s.position.x * s.position.x + s.position.z * s.position.z <= cfg.placementRadius * cfg.placementRadius
  }

  /** The sphere of a draw the random source can produce is well placed. */
  lemma AcceptWellPlaced(cfg: Config, d: Draw)
    requires ValidDraw(d)
    ensures WellPlaced(cfg, Accept(cfg, d))
  {
    RadiusInRange(cfg, d);
    PlacementInDisk(cfg, d);
  }

  /** Every kept sphere is well placed. */
  lemma GeneratedPlacement(cfg: Config, draws: seq<Draw>)
    requires forall d :: d in draws ==> ValidDraw(d)
    ensures forall s :: s in Generate(cfg, draws) ==> WellPlaced(cfg, s)
  {
    AcceptedInOrder(cfg, draws);
    var idx, spheres := AcceptedIndices(cfg, draws), Generate(cfg, draws);
    forall s | s in spheres
      ensures WellPlaced(cfg, s)
    {
      var k :| 0 <= k < |spheres| && spheres[k] == s;
      var d := draws[idx[k]];
      assert d in draws;
      AcceptWellPlaced(cfg, d);
    }
  }

  /** Every kept sphere carries the material its draw's metal coin selects. */
  lemma {:induction false} GeneratedMaterial(cfg: Config, draws: seq<Draw>)
    ensures var idx, spheres := AcceptedIndices(cfg, draws), Generate(cfg, draws);
      && |idx| == |spheres|
      && forall k :: 0 <= k < |spheres| ==> idx[k] < |draws| && MaterialRule(spheres[k], draws[idx[k]])
  {
    AcceptedInOrder(cfg, draws);
  }

  /**
   * The material is recoverable from the sphere alone: for a colour other
   * than black the albedo is zero exactly for a metal, and the specular is
   * never zero, so at most one of the two is the zero vector.
   */
  lemma MaterialDistinguishesMetal(s: Sphere, d: Draw)
    requires MaterialRule(s, d)
    ensures !IsMetal(d) ==> s.specular != Zero
    ensures d.colour != Zero ==> (s.albedo == Zero <==> IsMetal(d)) && s.specular != Zero
  {
  }

  /** A black metal has both albedo and specular zero: "exactly one is zero" needs a non-black colour. */
  lemma BlackMetalHasNoColour(cfg: Config, d: Draw)
    requires d.colour == Zero && IsMetal(d)
    ensures Accept(cfg, d).albedo == Zero && Accept(cfg, d).specular == Zero
  {
  }

  /** With no attempts the scene is empty. */
  lemma NoAttemptsNoSpheres(cfg: Config)
    ensures Generate(cfg, []) == []
  {
  }

  /** One attempt with the range [3, 3] and a placement radius of 0 yields one sphere at (0, 3, 0). */
  lemma SingleSphereAtOrigin(d: Draw)
    ensures var spheres := Generate(Config(3.0, 3.0, 1, 0.0), [d]);
      |spheres| == 1 && spheres[0].position == Vec3(0.0, 3.0, 0.0) && spheres[0].radius == 3.0
  {
    var cfg := Config(3.0, 3.0, 1, 0.0);
    assert [d][..0] == [];
  }

  /** `(a - b)^2 <= 2 a^2 + 2 b^2`, because `(a + b)^2 >= 0`. */
  lemma DifferenceSquareBound(a: real, b: real)
    ensures (a - b) * (a - b) <= 2.0 * (a * a) + 2.0 * (b * b)
  {
    var t := a + b;
    if t >= 0.0 {
      assert t * t >= 0.0;
    } else {
      assert (-t) * (-t) >= 0.0;
    }
    assert (a - b) * (a - b) + t * t == 2.0 * (a * a) + 2.0 * (b * b);
  }

  /**
   * Two attempts with radius 5 in a disk of radius 1: the second candidate is
   * always within 10 units of the first, so it is rejected and not retried.
   */
  lemma {:induction false} CloseSecondCandidateRejected(d1: Draw, d2: Draw)
    requires ValidDraw(d1) && ValidDraw(d2)
    ensures var cfg := Config(5.0, 5.0, 2, 1.0);
      Generate(cfg, [d1, d2]) == [Accept(cfg, d1)]
  {
    var cfg := Config(5.0, 5.0, 2, 1.0);
    var draws := [d1, d2];
    assert draws[..1] == [d1];
    assert draws[..1][..0] == [];
    var first := Generate(cfg, [d1]);
    assert first == [Accept(cfg, d1)];
    var a, b := Place(cfg, d2), first[0];
    assert a.radius == 5.0 && b.radius == 5.0 && a.position.y == b.position.y;
    var dx, dz := a.position.x - b.position.x, a.position.z - b.position.z;
    DifferenceSquareBound(d2.circleX, d1.circleX);
    DifferenceSquareBound(d2.circleY, d1.circleY);
    assert SqrMagnitude(Sub(a.position, b.position)) <= 4.0;
    assert Overlaps(a, b);
  }

  /**
   * `SetupScene`'s generation loop: `cfg.maxSpheres` iterations over the
   * draws, each testing its candidate against every sphere kept so far and
   * skipping it at the first overlap.
   */
  method GenerateScene(cfg: Config, draws: seq<Draw>) returns (spheres: seq<Sphere>)
    requires |draws| >= cfg.maxSpheres
    ensures spheres == Generate(cfg, draws[..cfg.maxSpheres])
    ensures |spheres| <= cfg.maxSpheres
    ensures PairwiseSeparated(spheres)
  {
    spheres := [];
    for i := 0 to cfg.maxSpheres
      invariant spheres == Generate(cfg, draws[..i])
    {
      assert draws[..i + 1][..i] == draws[..i];
      var sphere := Place(cfg, draws[i]);

      var skip := false;
      for j := 0 to |spheres|
        invariant !skip
        invariant forall k :: 0 <= k < j ==> !Overlaps(sphere, spheres[k])
      {
        if Overlaps(sphere, spheres[j]) {
          skip := true;
          break;
        }
      }
      assert skip <==> !Fits(sphere, spheres);
      if skip {
        continue;
      }

      sphere := WithMaterial(sphere, draws[i]);
      spheres := spheres + [sphere];
    }
    GenerateSeparated(cfg, draws[..cfg.maxSpheres]);
  }
}
