// The particle filter of pf.c, without its trigonometry.
//
// The particles are an array of robot records updated in place. `rand()`
// values are passed in as sequences of draws, one entry per particle (or
// per step) in the order the source draws them; the motion model, the
// Gaussian densities, the point-to-segment distances and the heading
// average of the estimate (all of which need trigonometry or square
// roots) are parameters.

module ParticleFilter {
  import opened General
  import opened Records
  import opened Environment
  import opened Robots

  function Sum(xs: seq<real>): real
  {
    if |xs| == 0 then 0.0 else Sum(xs[..|xs| - 1]) + xs[|xs| - 1]
  }

  lemma SumSnoc(xs: seq<real>, x: real)
    ensures Sum(xs + [x]) == Sum(xs) + x
  {
    assert (xs + [x])[..|xs|] == xs;
  }

  /** Dividing every term by s divides the sum by s. */
  lemma {:induction false} SumScaled(xs: seq<real>, ys: seq<real>, s: real)
    requires s != 0.0 && |xs| == |ys|
    requires forall k :: 0 <= k < |xs| ==> ys[k] == xs[k] / s
    ensures Sum(ys) == Sum(xs) / s
    decreases |xs|
  {
    if |xs| > 0 {
      var n := |xs| - 1;
      SumScaled(xs[..n], ys[..n], s);
      assert Sum(ys) == Sum(xs[..n]) / s + xs[n] / s;
    }
  }

  function Weights(ps: seq<Robot>): (ws: seq<real>)
    ensures |ws| == |ps| && forall k :: 0 <= k < |ps| ==> ws[k] == ps[k].weight
  {
    seq(|ps|, k requires 0 <= k < |ps| => ps[k].weight)
  }

  /** The resampling step size: a draw scaled from [0, RAND_MAX] to [0, 2 * max weight]. */
  function BetaStep(draw: nat, randMax: nat, mw: real): (step: real)
    requires randMax > 0 && mw > 0.0
    ensures step >= 0.0
    ensures draw <= randMax ==> step <= 2.0 * mw
  {
    var scale := randMax as real / (mw * 2.0);
    assert scale > 0.0;
    var step := draw as real / scale;
    assert step * scale == draw as real;
    step
  }

  lemma DivSub(b: real, w: real, mw: real)
    requires mw > 0.0
    ensures (b - w) / mw == b / mw - w / mw
  {
    var q := b / mw;
    var r := w / mw;
    assert q * mw == b && r * mw == w;
    assert (q - r) * mw == b - w;
  }

  lemma FloorStep(b: real, mw: real)
    requires mw > 0.0 && b >= mw
    ensures ((b - mw) / mw).Floor == (b / mw).Floor - 1
  {
    DivSub(b, mw, mw);
    assert mw / mw == 1.0;
  }

  lemma FloorMono(b: real, w: real, mw: real)
    requires mw > 0.0 && 0.0 <= w
    ensures ((b - w) / mw).Floor <= (b / mw).Floor
  {
    DivSub(b, w, mw);
    assert w / mw >= 0.0;
  }

  lemma MulNonNeg(a: int, b: int)
    requires a >= 0 && b >= 0
    ensures a * b >= 0
  {
  }

  // ---------------------------------------------------------------------
  // Accuracy
  // ---------------------------------------------------------------------

  /** A particle that counts for the accuracy estimate. */
  predicate Good(p: Robot)
  {
    p.weight > Unlikely
  }

  datatype Box = Box(xmin: int, xmax: int, ymin: int, ymax: int)

  const NoBox: Box := Box(99999, 0, 99999, 0)

  /**
   * The running bounds of pf_accuracy over the good particles, starting
   * from minima 99999 and maxima 0: they bound every good particle.
   */
  function GoodBox(ps: seq<Robot>): (b: Box)
    ensures forall k :: 0 <= k < |ps| && Good(ps[k]) ==>
              b.xmin <= ps[k].x <= b.xmax && b.ymin <= ps[k].y <= b.ymax
    ensures b.xmin <= 99999 && b.ymin <= 99999 && b.xmax >= 0 && b.ymax >= 0
    ensures (forall k :: 0 <= k < |ps| ==> !Good(ps[k])) ==> b == NoBox
  {
    if |ps| == 0 then NoBox
    else
      var b := GoodBox(ps[..|ps| - 1]);
      var p := ps[|ps| - 1];
      assert forall k :: 0 <= k < |ps| - 1 ==> ps[..|ps| - 1][k] == ps[k];
      if Good(p) then
        Box(if b.xmin > p.x then p.x else b.xmin, if b.xmax < p.x then p.x else b.xmax,
            if b.ymin > p.y then p.y else b.ymin, if b.ymax < p.y then p.y else b.ymax)
      else b
  }

  /** The box area as the source computes it: in `int`, so the product wraps. */
  function Area(b: Box): int
  {
    ToInt32((b.xmax - b.xmin) * (b.ymax - b.ymin))
  }

  /** The accuracy percentage for a box area and the room area. */
  function Percent(area: int, field: int): int
    requires field != 0
  {
    var acc := 1.0 - area as real / field as real;
    if acc < 0.0 then 0 else Trunc(acc * 100.0)
  }

  /** With a non-negative area inside a positive room area, the percentage lies in [0, 100]. */
  lemma PercentBounds(area: int, field: int)
    requires field > 0 && area >= 0
    ensures 0 <= Percent(area, field) <= 100
  {
    var q := area as real / field as real;
    assert q >= 0.0;
  }

  /** A smaller area never gives a smaller percentage. */
  lemma PercentAntitone(a1: int, a2: int, field: int)
    requires field > 0 && a1 <= a2
    ensures Percent(a1, field) >= Percent(a2, field)
  {
    var q1 := a1 as real / field as real;
    var q2 := a2 as real / field as real;
    assert q1 * field as real == a1 as real;
    assert q2 * field as real == a2 as real;
    assert q1 <= q2;
    var acc1 := 1.0 - q1;
    var acc2 := 1.0 - q2;
    assert acc1 * 100.0 >= acc2 * 100.0;
  }

  /** With at least one good particle the box is not inverted, so width and height are non-negative. */
  lemma GoodBoxNotInverted(ps: seq<Robot>, k: nat)
    requires k < |ps| && Good(ps[k])
    ensures GoodBox(ps).xmin <= GoodBox(ps).xmax && GoodBox(ps).ymin <= GoodBox(ps).ymax
  {
  }

  /**
   * With at least one good particle and a box whose area fits an `int`,
   * pf_accuracy lies in [0, 100].
   */
  lemma AccuracyInRange(ps: seq<Robot>, k: nat, field: int)
    requires k < |ps| && Good(ps[k]) && field > 0
    requires (GoodBox(ps).xmax - GoodBox(ps).xmin) * (GoodBox(ps).ymax - GoodBox(ps).ymin) < 0x8000_0000
    ensures 0 <= Percent(Area(GoodBox(ps)), field) <= 100
  {
    GoodBoxNotInverted(ps, k);
    BoxPercentBounds(GoodBox(ps), field);
  }

  /** A box that is not inverted and whose area fits an `int` gives a percentage in [0, 100]. */
  lemma BoxPercentBounds(b: Box, field: int)
    requires b.xmin <= b.xmax && b.ymin <= b.ymax && field > 0
    requires (b.xmax - b.xmin) * (b.ymax - b.ymin) < 0x8000_0000
    ensures 0 <= Percent(Area(b), field) <= 100
  {
    var w, h := b.xmax - b.xmin, b.ymax - b.ymin;
    MulNonNeg(w, h);
    assert Area(b) == w * h;
    PercentBounds(w * h, field);
  }

  /** Without good particles the box is 99999 wide and high, and its area wraps to 1409865409. */
  lemma NoGoodParticles(ps: seq<Robot>)
    requires forall k :: 0 <= k < |ps| ==> !Good(ps[k])
    ensures GoodBox(ps) == NoBox
    ensures Area(GoodBox(ps)) == 1409865409
  {
    assert (0 - 99999) * (0 - 99999) == 9999800001;
  }

  // ---------------------------------------------------------------------
  // Estimate
  // ---------------------------------------------------------------------

  function WeightedX(ps: seq<Robot>): real
  {
    if |ps| == 0 then 0.0 else WeightedX(ps[..|ps| - 1]) + ps[|ps| - 1].x as real * ps[|ps| - 1].weight
  }

  function WeightedY(ps: seq<Robot>): real
  {
    if |ps| == 0 then 0.0 else WeightedY(ps[..|ps| - 1]) + ps[|ps| - 1].y as real * ps[|ps| - 1].weight
  }

  /** When the weights sum to 1 and every particle is at x, the weighted mean is x. */
  lemma {:induction false} WeightedXConstant(ps: seq<Robot>, x: int)
    requires forall k :: 0 <= k < |ps| ==> ps[k].x == x
    ensures WeightedX(ps) == x as real * Sum(Weights(ps))
    decreases |ps|
  {
    if |ps| > 0 {
      var n := |ps| - 1;
      WeightedXConstant(ps[..n], x);
      assert Weights(ps)[..n] == Weights(ps[..n]);
    }
  }

  /** A particle after robot_eval_wall, with the wall distance robot_sense_wall gives for it. */
  function WallWeighed(p: Robot, width: int, height: int, room: seq<Point>,
                       segDist: (int, int, Point, Point) -> real, draw: (nat, nat, nat)): Robot
    requires width > 0 && height > 0
  {
    EvalWall(p, width, height, WallDistance(p, room, segDist, |room|), draw.0, draw.1, draw.2).0
  }

  /** The body of pf_weight_wall's loop for one particle: robot_sense_wall, then robot_eval_wall. */
  method WeighWall(p: Robot, width: int, height: int, room: seq<Point>,
                   segDist: (int, int, Point, Point) -> real, draw: (nat, nat, nat)) returns (q: Robot)
    requires width > 0 && height > 0
    ensures q == WallWeighed(p, width, height, room, segDist, draw)
    ensures q.weight > 0.0
  {
    var dist := SenseWall(p, room, segDist);
    var res := EvalWall(p, width, height, dist, draw.0, draw.1, draw.2);
    q := res.0;
  }

  /**
   * The resampling wheel of pf_resample over the weights ws: from index
   * `start % |ws|`, each of the |ws| rounds advances beta by a draw scaled
   * to [0, 2 * max weight] and walks round the particles, taking off their
   * weights, until beta fits under one; that one is picked. The walk ends
   * because every full turn passes the heaviest particle, which takes off
   * the largest weight.
   */
  method Wheel(ws: seq<real>, start: nat, draws: seq<nat>, randMax: nat, mw: real, ghost jmax: nat)
    returns (picks: seq<nat>)
    requires |ws| > 0 && |draws| == |ws| && randMax > 0
    requires jmax < |ws| && mw == ws[jmax]
    requires forall k :: 0 <= k < |ws| ==> 0.0 < ws[k] <= mw
    ensures |picks| == |ws| && forall k :: 0 <= k < |picks| ==> picks[k] < |ws|
  {
    var n := |ws|;
    var index := start % n;
    var beta := 0.0;
    picks := [];
    for i := 0 to n
      invariant 0 <= index < n && beta >= 0.0
      invariant |picks| == i && forall k :: 0 <= k < i ==> picks[k] < n
    {
      beta := beta + BetaStep(draws[i], randMax, mw);
      index, beta := Walk(ws, index, beta, mw, jmax);
      picks := picks + [index];
    }
  }

  /** The next index round the wheel. */
  lemma ModNext(i: nat, n: nat)
    requires i < n
    ensures (i + 1) % n == if i + 1 == n then 0 else i + 1
  {
  }

  /**
   * One turn of the wheel: walk on from `index`, taking off weights, until
   * beta is at most the current weight. Each step either brings the walk
   * closer to the heaviest particle `jmax` or passes it, which takes off
   * a whole `mw` and so lowers the whole number of `mw`s in beta.
   */
  method Walk(ws: seq<real>, index0: nat, beta0: real, mw: real, ghost jmax: nat) returns (index: nat, beta: real)
    requires index0 < |ws| && beta0 >= 0.0
    requires jmax < |ws| && mw == ws[jmax]
    requires forall k :: 0 <= k < |ws| ==> 0.0 < ws[k] <= mw
    ensures index < |ws| && 0.0 <= beta <= ws[index] && beta <= beta0
  {
    index, beta := index0, beta0;
    var n := |ws|;
    ghost var t: int := (beta / mw).Floor;
    ghost var d: int := if index <= jmax then jmax - index else jmax + n - index;
    while beta > ws[index]
      invariant index < n && 0.0 <= beta <= beta0
      invariant t == (beta / mw).Floor && t >= 0
      invariant 0 <= d < n && d == if index <= jmax then jmax - index else jmax + n - index
      decreases t, d
    {
      ghost var t0 := t;
      FloorMono(beta, ws[index], mw);
      if index == jmax {
        FloorStep(beta, mw);
      }
      beta := beta - ws[index];
      ModNext(index, n);
      index := (index + 1) % n;
      t := (beta / mw).Floor;
      d := if index <= jmax then jmax - index else jmax + n - index;
    }
  }

  /** The particles the wheel picked, in the order it picked them. */
  function Picked(ps: seq<Robot>, picks: seq<nat>): (qs: seq<Robot>)
    requires forall k :: 0 <= k < |picks| ==> picks[k] < |ps|
    ensures |qs| == |picks| && forall k :: 0 <= k < |picks| ==> qs[k] == ps[picks[k]]
  {
    seq(|picks|, k requires 0 <= k < |picks| => ps[picks[k]])
  }

  /** Every particle with its weight divided by w; nothing else changes. */
  function Normalised(qs: seq<Robot>, w: real): (rs: seq<Robot>)
    requires w != 0.0
    ensures |rs| == |qs|
    ensures forall k :: 0 <= k < |qs| ==> rs[k] == qs[k].(weight := qs[k].weight / w)
  {
    seq(|qs|, k requires 0 <= k < |qs| => qs[k].(weight := qs[k].weight / w))
  }

  lemma {:induction false} SumPositive(xs: seq<real>)
    requires |xs| > 0 && forall k :: 0 <= k < |xs| ==> xs[k] > 0.0
    ensures Sum(xs) > 0.0
    decreases |xs|
  {
    if |xs| > 1 {
      SumPositive(xs[..|xs| - 1]);
    }
  }

  /** Dividing positive weights by their sum gives positive weights that sum to 1. */
  lemma NormalisedSumsToOne(qs: seq<Robot>)
    requires |qs| > 0 && forall k :: 0 <= k < |qs| ==> qs[k].weight > 0.0
    ensures Sum(Weights(qs)) > 0.0
    ensures forall k :: 0 <= k < |qs| ==> Normalised(qs, Sum(Weights(qs)))[k].weight > 0.0
    ensures Sum(Weights(Normalised(qs, Sum(Weights(qs))))) == 1.0
  {
    var w := Sum(Weights(qs));
    SumPositive(Weights(qs));
    SumScaled(Weights(qs), Weights(Normalised(qs, w)), w);
    SelfQuotient(w);
    NormalisedPositive(qs, w);
  }

  lemma SelfQuotient(w: real)
    requires w > 0.0
    ensures w / w == 1.0
  {
  }

  /** Positive weights stay positive when divided by a positive sum. */
  lemma NormalisedPositive(qs: seq<Robot>, w: real)
    requires w > 0.0 && forall k :: 0 <= k < |qs| ==> qs[k].weight > 0.0
    ensures forall k :: 0 <= k < |qs| ==> Normalised(qs, w)[k].weight > 0.0
  {
    forall k | 0 <= k < |qs|
      ensures Normalised(qs, w)[k].weight > 0.0
    {
      QuotientPositive(qs[k].weight, w);
    }
  }

  lemma QuotientPositive(a: real, w: real)
    requires a > 0.0 && w > 0.0
    ensures a / w > 0.0
  {
  }

  /**
   * A particle p that pf_random moved, from q before it: moved to within
   * 300 mm of the tag (offsets in [-299, 300]) with weight 0.00001 and
   * nothing else changed.
   */
  predicate MovedNearTag(p: Robot, q: Robot, tag: TagDef)
  {
    tag.x - 299 <= p.x <= tag.x + 300 && tag.y - 299 <= p.y <= tag.y + 300 &&
    p.weight == Unlikely && p.(x := q.x, y := q.y, weight := q.weight) == q
  }

  /**
   * `after` is `before` once pf_random's draws `touched` have been
   * applied: every drawn index is a particle, every drawn particle is
   * moved near the tag, and every other particle is unchanged.
   */
  predicate ScatteredBy(after: seq<Robot>, before: seq<Robot>, touched: seq<nat>, tag: TagDef)
  {
    |after| == |before| && (forall k :: 0 <= k < |touched| ==> touched[k] < |before|) &&
    (forall j :: 0 <= j < |before| && j !in touched ==> after[j] == before[j]) &&
    (forall j :: 0 <= j < |before| && j in touched ==> MovedNearTag(after[j], before[j], tag))
  }

  /** pf_t: `num` particles in an array. */
  class Filter {
    const num: int
    const particles: array<Robot>

    /** The array holds `num` particles, at least one, and every weight is positive. */
    ghost predicate Valid()
      reads this, particles
    {
      particles.Length == num && num > 0 &&
      forall k :: 0 <= k < num ==> particles[k].weight > 0.0
    }

    /**
     * pf_init: `num` particles, each at x = draw % room width and
     * y = draw % room height, with heading `fmod(draw, 2*pi)` passed
     * through robot_set_pose's `int` parameter (so a whole number of
     * radians in 0..6), the given noise and radius, and weight 1/num.
     * `tag_num` is not set by the source; it is 0 here.
     */
    constructor (num: int, width: int, height: int,
                 moveNoise: int, turnNoise: real, senseTagNoise: int, senseWallNoise: int,
                 radius: int, draws: seq<(nat, nat, nat)>)
      requires num > 0 && width > 0 && height > 0 && |draws| == num
      ensures Valid() && this.num == num && fresh(particles)
      ensures forall k :: 0 <= k < num ==>
                0 <= particles[k].x < width && 0 <= particles[k].y < height &&
                particles[k].a == Trunc(Fmod(draws[k].2 as real, TwoPi)) as real &&
                0 <= Trunc(Fmod(draws[k].2 as real, TwoPi)) <= 6
      ensures forall k :: 0 <= k < num ==>
                particles[k].x == draws[k].0 % width && particles[k].y == draws[k].1 % height
      ensures forall k :: 0 <= k < num ==>
                particles[k].weight == 1.0 / num as real && particles[k].radius == radius &&
                particles[k].moveNoise == moveNoise && particles[k].turnNoise == turnNoise &&
                particles[k].senseTagNoise == senseTagNoise && particles[k].senseWallNoise == senseWallNoise
    {
      this.num := num;
      particles := new Robot[num];
      new;
      for i := 0 to num
        invariant forall k :: 0 <= k < i ==>
                    0 <= particles[k].x < width && 0 <= particles[k].y < height &&
                    particles[k].a == Trunc(Fmod(draws[k].2 as real, TwoPi)) as real &&
                    0 <= Trunc(Fmod(draws[k].2 as real, TwoPi)) <= 6
        invariant forall k :: 0 <= k < i ==>
                    particles[k].x == draws[k].0 % width && particles[k].y == draws[k].1 % height
        invariant forall k :: 0 <= k < i ==>
                    particles[k].weight == 1.0 / num as real && particles[k].radius == radius &&
                    particles[k].moveNoise == moveNoise && particles[k].turnNoise == turnNoise &&
                    particles[k].senseTagNoise == senseTagNoise && particles[k].senseWallNoise == senseWallNoise
      {
        var heading := Fmod(draws[i].2 as real, TwoPi);
        assert TwoPi < 7.0;
        var p := SetPose(particles[i], draws[i].0 % width, draws[i].1 % height, Trunc(heading));
        p := SetNoise(p, moveNoise, turnNoise, senseTagNoise, senseWallNoise);
        p := p.(radius := radius);
        p := p.(weight := 1.0 / num as real);
        particles[i] := p;
      }
    }

    /**
     * pf_drive: robot_drive, with the same distance, angle and
     * uncertainty, once on every particle. `move` is the motion model: it
     * gives particle k's new x, y and heading (its noise draws are its
     * own), and nothing else of the particle changes.
     */
    method Drive(distance: int, angle: int, uncertain: int, move: (Robot, int, int, int, nat) -> (int, int, real))
      requires Valid()
      modifies particles
      ensures Valid()
      ensures forall k :: 0 <= k < num ==>
                var m := move(old(particles[k]), distance, angle, uncertain, k);
                particles[k] == old(particles[k]).(x := m.0, y := m.1, a := m.2)
    {
      for i := 0 to num
        invariant forall k :: 0 <= k < i ==>
                    var m := move(old(particles[k]), distance, angle, uncertain, k);
                    particles[k] == old(particles[k]).(x := m.0, y := m.1, a := m.2)
        invariant forall k :: i <= k < num ==> particles[k] == old(particles[k])
      {
        var m := move(particles[i], distance, angle, uncertain, i);
        particles[i] := particles[i].(x := m.0, y := m.1, a := m.2);
      }
    }

    /**
     * pf_weight_tag: every particle's `tag_num` is set to the read tag,
     * then robot_eval_tag weighs it. `density[k]` is the Gaussian value
     * for particle k (never negative) and `draws[k]` its re-placement
     * draws.
     */
    method WeightTag(tagNum: int, width: int, height: int, density: seq<real>, draws: seq<(nat, nat, nat)>)
      requires Valid() && width > 0 && height > 0
      requires |density| == num && |draws| == num
      requires forall k :: 0 <= k < |density| ==> density[k] >= 0.0
      modifies particles
      ensures Valid()
      ensures forall k :: 0 <= k < num ==>
                particles[k] == EvalTag(old(particles[k]).(tagNum := tagNum), width, height, density[k],
                                        draws[k].0, draws[k].1, draws[k].2).0
      ensures forall k :: 0 <= k < num ==> particles[k].tagNum == tagNum
    {
      for i := 0 to num
        invariant forall k :: 0 <= k < i ==>
                    particles[k] == EvalTag(old(particles[k]).(tagNum := tagNum), width, height, density[k],
                                            draws[k].0, draws[k].1, draws[k].2).0
        invariant forall k :: 0 <= k < i ==> particles[k].tagNum == tagNum && particles[k].weight > 0.0
        invariant forall k :: i <= k < num ==> particles[k] == old(particles[k])
      {
        var p := particles[i].(tagNum := tagNum);
        var res := EvalTag(p, width, height, density[i], draws[i].0, draws[i].1, draws[i].2);
        particles[i] := res.0;
      }
    }

    /**
     * pf_weight_wall: robot_eval_wall on every particle, with the wall
     * distance robot_sense_wall finds for it.
     */
    method WeightWall(width: int, height: int, room: seq<Point>,
                      segDist: (int, int, Point, Point) -> real, draws: seq<(nat, nat, nat)>)
      requires Valid() && width > 0 && height > 0 && |draws| == num
      modifies particles
      ensures Valid()
      ensures forall k :: 0 <= k < num ==>
                particles[k] == WallWeighed(old(particles[k]), width, height, room, segDist, draws[k])
    {
      ghost var ps := particles[..];
      for i := 0 to num
        invariant particles[i..] == ps[i..]
        invariant forall k :: 0 <= k < i ==>
                    particles[k] == WallWeighed(ps[k], width, height, room, segDist, draws[k]) &&
                    particles[k].weight > 0.0
      {
        var q := WeighWall(particles[i], width, height, room, segDist, draws[i]);
        particles[i] := q;
      }
    }

    /** The largest particle weight (the source starts from 0) and a particle that has it. */
    method MaxWeight() returns (mw: real, ghost jmax: nat)
      requires Valid()
      ensures jmax < num && mw == particles[jmax].weight
      ensures forall k :: 0 <= k < num ==> particles[k].weight <= mw
    {
      mw := 0.0;
      jmax := 0;
      for i := 0 to num
        invariant 0 <= jmax < num
        invariant forall k :: 0 <= k < i ==> particles[k].weight <= mw
        invariant i == 0 ==> mw == 0.0
        invariant i > 0 ==> mw == particles[jmax].weight
      {
        if mw < particles[i].weight {
          mw := particles[i].weight;
          jmax := i;
        }
      }
    }

    /** The first loop of pf_resample: copies of the picked particles in a new array, and the sum of their weights. */
    method CopyPicked(picks: seq<nat>) returns (resampled: array<Robot>, w: real)
      requires Valid() && |picks| == num && forall k :: 0 <= k < num ==> picks[k] < num
      ensures fresh(resampled)
      ensures resampled[..] == Picked(particles[..], picks)
      ensures w == Sum(Weights(resampled[..])) && w > 0.0
    {
      ghost var qs := Picked(particles[..], picks);
      resampled := new Robot[num];
      w := 0.0;
      for i := 0 to num
        invariant resampled[..i] == qs[..i]
        invariant w == Sum(Weights(qs[..i])) && (i > 0 ==> w > 0.0)
      {
        assert qs[i] == particles[picks[i]] && qs[..i + 1] == qs[..i] + [qs[i]];
        resampled[i] := particles[picks[i]];
        assert resampled[..i + 1] == resampled[..i] + [resampled[i]];
        assert Weights(qs[..i + 1]) == Weights(qs[..i]) + [qs[i].weight];
        SumSnoc(Weights(qs[..i]), qs[i].weight);
        w := w + particles[picks[i]].weight;
      }
      assert qs[..num] == qs && resampled[..num] == resampled[..];
    }

    /**
     * pf_resample: the resampling wheel picks `num` particles, each is
     * copied, and every copy's weight is divided by the sum of the copied
     * weights. The count is kept, every new particle is a copy of an old
     * one (`picks` says which), and the new weights sum to 1.
     */
    method Resample(start: nat, draws: seq<nat>, randMax: nat) returns (picks: seq<nat>, ghost wsum: real)
      requires Valid() && |draws| == num && randMax > 0
      modifies particles
      ensures Valid()
      ensures |picks| == num && forall k :: 0 <= k < num ==> picks[k] < num
      ensures wsum == Sum(Weights(Picked(old(particles[..]), picks))) && wsum > 0.0
      ensures particles[..] == Normalised(Picked(old(particles[..]), picks), wsum)
      ensures Sum(Weights(particles[..])) == 1.0
    {
      ghost var ps := particles[..];
      var mw, jmax := MaxWeight();
      picks := Wheel(Weights(particles[..]), start, draws, randMax, mw, jmax);
      var resampled, w := CopyPicked(picks);
      ghost var qs := Picked(ps, picks);
      wsum := w;
      for i := 0 to num
        invariant resampled[..] == qs
        invariant particles[..i] == Normalised(qs, w)[..i]
      {
        particles[i] := resampled[i].(weight := resampled[i].weight / w);
      }
      assert particles[..num] == particles[..];
      NormalisedSumsToOne(qs);
    }

    /**
     * pf_random: up to 99 times (a draw modulo 100), a randomly chosen
     * particle is moved to within 300 mm of the read tag (offsets
     * 300 - draw % 600, so in [-299, 300]) and given weight 0.00001; its
     * heading and everything else stay. `touched` lists the chosen
     * particles; all others are unchanged.
     */
    method Random(tag: TagDef, countDraw: nat, draws: seq<(nat, nat, nat)>) returns (ghost touched: seq<nat>)
      requires Valid() && |draws| >= countDraw % 100
      modifies particles
      ensures Valid()
      ensures |touched| == countDraw % 100 && |touched| <= 99
      ensures ScatteredBy(particles[..], old(particles[..]), touched, tag)
    {
      var n := countDraw % 100;
      touched := [];
      for i := 0 to n
        invariant |touched| == i
        invariant forall k :: 0 <= k < i ==> touched[k] < num
        invariant forall j :: 0 <= j < num ==> particles[j].weight > 0.0
        invariant forall j :: 0 <= j < num && j !in touched ==> particles[j] == old(particles[j])
        invariant forall j :: 0 <= j < num && j in touched ==>
                    tag.x - 299 <= particles[j].x <= tag.x + 300 &&
                    tag.y - 299 <= particles[j].y <= tag.y + 300 &&
                    particles[j].weight == Unlikely &&
                    particles[j].(x := old(particles[j].x), y := old(particles[j].y), weight := old(particles[j].weight))
                      == old(particles[j])
      {
        var id := draws[i].0 % num;
        var dx := 300 - (draws[i].1 % 600) as int;
        var dy := 300 - (draws[i].2 % 600) as int;
        particles[id] := particles[id].(x := tag.x + dx);
        particles[id] := particles[id].(y := tag.y + dy);
        particles[id] := particles[id].(weight := Unlikely);
        touched := touched + [id];
      }
      assert ScatteredBy(particles[..], old(particles[..]), touched, tag) by {
        forall j | 0 <= j < num && j in touched
          ensures MovedNearTag(particles[j], old(particles[j]), tag)
        {
        }
      }
    }

    /**
     * pf_accuracy: the bounding box of the good particles (weight above
     * 0.00001) against the room area, as a percentage: 1 - box/room,
     * 0 when negative, else truncated after multiplying by 100. Both
     * areas are computed in `int`.
     */
    method Accuracy(roomWidth: int, roomHeight: int) returns (percent: int)
      requires Valid() && ToInt32(roomWidth * roomHeight) != 0
      ensures percent == Percent(Area(GoodBox(particles[..])), ToInt32(roomWidth * roomHeight))
    {
      var xmin, xmax, ymin, ymax := 99999, 0, 99999, 0;
      for i := 0 to num
        invariant Box(xmin, xmax, ymin, ymax) == GoodBox(particles[..i])
      {
        assert particles[..i + 1][..i] == particles[..i];
        var p := particles[i];
        if p.weight > Unlikely {
          if xmin > p.x {
            xmin := p.x;
          }
          if ymin > p.y {
            ymin := p.y;
          }
          if xmax < p.x {
            xmax := p.x;
          }
          if ymax < p.y {
            ymax := p.y;
          }
        }
      }
      assert particles[..num] == particles[..];
      var width := xmax - xmin;
      var height := ymax - ymin;
      var area := ToInt32(width * height);
      var fieldArea := ToInt32(roomWidth * roomHeight);
      var accuracy := 1.0 - area as real / fieldArea as real;
      if accuracy < 0.0 {
        percent := 0;
      } else {
        percent := Trunc(accuracy * 100.0);
      }
    }

    /**
     * pf_estimate: the weighted mean position of the particles, truncated
     * to `int`. The heading is the angle of the weighted sum of heading
     * vectors, which needs trigonometry and is passed in as `heading`.
     */
    method Estimate(robot: Robot, heading: real) returns (r: Robot)
      requires Valid()
      ensures r == robot.(x := Trunc(WeightedX(particles[..])), y := Trunc(WeightedY(particles[..])), a := heading)
    {
      var ex := 0.0;
      var ey := 0.0;
      for i := 0 to num
        invariant ex == WeightedX(particles[..i]) && ey == WeightedY(particles[..i])
      {
        assert particles[..i + 1][..i] == particles[..i];
        ex := ex + particles[i].x as real * particles[i].weight;
        ey := ey + particles[i].y as real * particles[i].weight;
      }
      assert particles[..num] == particles[..];
      r := robot.(x := Trunc(ex), y := Trunc(ey), a := heading);
    }
  }
}
