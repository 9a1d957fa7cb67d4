// The refine task of task_refine.c on a known tag: the particles are
// weighed against the tag, resampled, the pose is estimated from them,
// and some particles are scattered near the tag. The Agent method
// Tasks.Agent.Refine reads the tag, classifies it and runs RefineStep for
// a known one.

module TaskRefine {
  import opened General
  import opened Records
  import opened Environment
  import opened Robots
  import opened ParticleFilter

  /**
   * The `rand()` values and Gaussian densities one refine run consumes:
   * per particle, robot_eval_tag's density and re-placement draws; the
   * resampling wheel's start, draws and RAND_MAX; and pf_random's count
   * draw and its draws.
   */
  datatype RefineDraws = RefineDraws(
    density: seq<real>, tagDraws: seq<(nat, nat, nat)>,
    start: nat, wheel: seq<nat>, randMax: nat,
    count: nat, scatter: seq<(nat, nat, nat)>)

  /** There are as many draws as a filter of `num` particles consumes, and every density is non-negative. */
  predicate DrawsFit(d: RefineDraws, num: int)
  {
    |d.density| == num && |d.tagDraws| == num && |d.wheel| == num && d.randMax > 0 &&
    |d.scatter| >= d.count % 100 &&
    forall k :: 0 <= k < |d.density| ==> d.density[k] >= 0.0
  }

  /** pf_weight_tag on the particles ps: each given the tag number and weighed by robot_eval_tag. */
  function Weighed(ps: seq<Robot>, tagNum: int, width: int, height: int, d: RefineDraws): (ws: seq<Robot>)
    requires width > 0 && height > 0 && |d.density| == |ps| && |d.tagDraws| == |ps|
    ensures |ws| == |ps|
    ensures forall k :: 0 <= k < |ps| ==> ws[k].tagNum == tagNum
  {
    seq(|ps|, k requires 0 <= k < |ps| =>
      EvalTag(ps[k].(tagNum := tagNum), width, height, d.density[k], d.tagDraws[k].0, d.tagDraws[k].1, d.tagDraws[k].2).0)
  }

  /**
   * One refine run on known tag `tagNum` (definition `tag`): the particles
   * weighed, resampled by the wheel's `picks` with their weights
   * normalised, the pose estimated from the resampled particles (with
   * `heading` for the heading pf_estimate computes), then exactly
   * `rand() % 100` draws of pf_random, `touched`, each choosing a particle
   * that is moved near the tag; every particle no draw chose is left as
   * the resampling made it.
   */
  twostate predicate Refined(f: Filter, tagNum: int, tag: TagDef, width: int, height: int, d: RefineDraws,
                             heading: real, pose0: Robot, pose: Robot, picks: seq<nat>, touched: seq<nat>)
    reads f, f.particles
  {
    width > 0 && height > 0 && |d.density| == f.particles.Length && |d.tagDraws| == f.particles.Length &&
    var weighed := Weighed(old(f.particles[..]), tagNum, width, height, d);
    |picks| == |weighed| && (forall k :: 0 <= k < |picks| ==> picks[k] < |weighed|) &&
    var picked := Picked(weighed, picks);
    Sum(Weights(picked)) > 0.0 &&
    var resampled := Normalised(picked, Sum(Weights(picked)));
    pose == pose0.(x := Trunc(WeightedX(resampled)), y := Trunc(WeightedY(resampled)), a := heading) &&
    f.particles.Length == |resampled| &&
    |touched| == d.count % 100 && ScatteredBy(f.particles[..], resampled, touched, tag)
  }

  /**
   * The known-tag branch of task_refine: pf_weight_tag, pf_resample,
   * pf_estimate and pf_random in that order.
   */
  method RefineStep(f: Filter, tagNum: int, tag: TagDef, width: int, height: int, d: RefineDraws,
                    heading: real, pose0: Robot)
    returns (pose: Robot, picks: seq<nat>, ghost touched: seq<nat>)
    requires f.Valid() && width > 0 && height > 0 && DrawsFit(d, f.num)
    modifies f.particles
    ensures f.Valid()
    ensures Refined(f, tagNum, tag, width, height, d, heading, pose0, pose, picks, touched)
  {
    ghost var ps := f.particles[..];
    f.WeightTag(tagNum, width, height, d.density, d.tagDraws);
    ghost var weighed := f.particles[..];
    assert weighed == Weighed(ps, tagNum, width, height, d);
    ghost var wsum;
    picks, wsum := f.Resample(d.start, d.wheel, d.randMax);
    ghost var resampled := f.particles[..];
    pose := f.Estimate(pose0, heading);
    touched := f.Random(tag, d.count, d.scatter);
  }
}
