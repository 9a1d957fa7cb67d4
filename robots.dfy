// The robot record operations of robot.c that the particle filter and the
// tasks use.
//
// A robot_t is always owned by value (an element of the particle array,
// or the pose estimate), so each operation that updates one through a
// pointer is a function from the old record to the new one. Square roots,
// the Gaussian density and `rand()` are not computed here: the Euclidean
// distance and the point-to-segment distance are function parameters, and
// the random draws and the density value are plain parameters.

module Robots {
  import opened General
  import opened Records
  import opened Environment

  /** M_PI. */
  const Pi: real := 3.14159265358979323846
  const TwoPi: real := 2.0 * Pi

  /** The weight the source uses for "almost impossible". */
  const Unlikely: real := 0.00001

  /** `fmod(x, m)` for a non-negative x and a positive m. */
  function Fmod(x: real, m: real): (r: real)
    requires 0.0 <= x && 0.0 < m
    ensures 0.0 <= r < m
  {
    FmodBounds(x, m, (x / m).Floor as real);
    x - m * (x / m).Floor as real
  }

  lemma FmodBounds(x: real, m: real, f: real)
    requires 0.0 <= x && 0.0 < m && f == (x / m).Floor as real
    ensures 0.0 <= x - m * f < m
  {
    var q := x / m;
    assert f <= q < f + 1.0;
    assert x == m * q;
    var e := q - f;
    assert 0.0 <= e < 1.0;
    assert x - m * f == m * e;
    assert m * e < m * 1.0;
  }

  /** robot_set_pose: only x, y and the heading change, and the `int` heading parameter stores whole radians. */
  function SetPose(r: Robot, x: int, y: int, a: int): (r': Robot)
    ensures r'.x == x && r'.y == y && r'.a == a as real
    ensures r'.(x := r.x, y := r.y, a := r.a) == r
  {
    r.(x := x, y := y, a := a as real)
  }

  /** robot_set_noise: only the four noise fields change. */
  function SetNoise(r: Robot, moveNoise: int, turnNoise: real, senseTagNoise: int, senseWallNoise: int): (r': Robot)
    ensures r'.moveNoise == moveNoise && r'.turnNoise == turnNoise
    ensures r'.senseTagNoise == senseTagNoise && r'.senseWallNoise == senseWallNoise
    ensures r'.(moveNoise := r.moveNoise, turnNoise := r.turnNoise,
                senseTagNoise := r.senseTagNoise, senseWallNoise := r.senseWallNoise) == r
  {
    r.(moveNoise := moveNoise, turnNoise := turnNoise, senseTagNoise := senseTagNoise, senseWallNoise := senseWallNoise)
  }

  /**
   * robot_sense_tag: for the empty tag, `tag_num` becomes -1 and the
   * result is -1; otherwise `tag_num` becomes the index of the first tag
   * with the read id, and the result is the distance to that tag plus the
   * sensor noise. The source indexes the tag table with -1 when the id is
   * in neither case, so that is excluded.
   */
  function SenseTag(r: Robot, id: seq<char>, tags: seq<TagDef>,
                    dist: (int, int, int, int) -> real, noise: real): (res: (Robot, real))
    requires id == EmptyTag || FirstMatch(tags, id).Some?
    ensures id == EmptyTag ==> res.0.tagNum == -1 && res.1 == -1.0
    ensures id != EmptyTag ==> 0 <= res.0.tagNum < |tags| && tags[res.0.tagNum].id == id &&
                               forall j :: 0 <= j < res.0.tagNum ==> tags[j].id != id
    ensures id != EmptyTag ==>
              res.1 == dist(r.x, r.y, tags[res.0.tagNum].x, tags[res.0.tagNum].y) + noise
    ensures res.0.(tagNum := r.tagNum) == r
  {
    if id == EmptyTag then (r.(tagNum := -1), -1.0)
    else
      var k := FirstMatch(tags, id).value;
      (r.(tagNum := k), dist(r.x, r.y, tags[k].x, tags[k].y) + noise)
  }

  /** The start value of the wall-distance minimum. */
  const NoWall: real := 99999.0

  /** Room point i and its successor, the last point wrapping round to the first. */
  function SegmentEnd(room: seq<Point>, i: nat): Point
    requires i < |room|
  {
    room[(i + 1) % |room|]
  }

  /** The running minimum from 99999 over the distances to the first n wall segments. */
  function WallDistance(r: Robot, room: seq<Point>, segDist: (int, int, Point, Point) -> real, n: nat): (d: real)
    requires n <= |room|
    ensures d <= NoWall
  {
    if n == 0 then NoWall
    else
      var m := WallDistance(r, room, segDist, n - 1);
      var s := segDist(r.x, r.y, room[n - 1], SegmentEnd(room, n - 1));
      if m > s then s else m
  }

  /**
   * The wall distance is at most each of the first n segment distances,
   * and it is one of them unless it is 99999.
   */
  lemma {:induction false} WallDistanceIsMin(r: Robot, room: seq<Point>, segDist: (int, int, Point, Point) -> real, n: nat)
    requires n <= |room|
    ensures forall i :: 0 <= i < n ==> WallDistance(r, room, segDist, n) <= segDist(r.x, r.y, room[i], SegmentEnd(room, i))
    ensures WallDistance(r, room, segDist, n) == NoWall ||
            exists i :: 0 <= i < n && WallDistance(r, room, segDist, n) == segDist(r.x, r.y, room[i], SegmentEnd(room, i))
  {
    if n > 0 {
      WallDistanceIsMin(r, room, segDist, n - 1);
      var w := WallDistance(r, room, segDist, n);
      var m := WallDistance(r, room, segDist, n - 1);
      var s := segDist(r.x, r.y, room[n - 1], SegmentEnd(room, n - 1));
      assert w == if m > s then s else m;
      forall i | 0 <= i < n
        ensures w <= segDist(r.x, r.y, room[i], SegmentEnd(room, i))
      {
        if i < n - 1 {
          assert m <= segDist(r.x, r.y, room[i], SegmentEnd(room, i));
        }
      }
      if m > s {
        assert w == segDist(r.x, r.y, room[n - 1], SegmentEnd(room, n - 1));
      } else if m != NoWall {
        var i :| 0 <= i < n - 1 && m == segDist(r.x, r.y, room[i], SegmentEnd(room, i));
        assert w == segDist(r.x, r.y, room[i], SegmentEnd(room, i));
      }
    }
  }

  /**
   * robot_sense_wall: the distance to the closest wall, as the running
   * minimum from 99999 over the segments between consecutive room points,
   * including the one from the last point back to the first.
   */
  method SenseWall(r: Robot, room: seq<Point>, segDist: (int, int, Point, Point) -> real) returns (res: real)
    ensures res == WallDistance(r, room, segDist, |room|)
    ensures res <= NoWall
    ensures forall i :: 0 <= i < |room| ==> res <= segDist(r.x, r.y, room[i], SegmentEnd(room, i))
  {
    res := NoWall;
    for i := 0 to |room|
      invariant res == WallDistance(r, room, segDist, i)
    {
      var dist := segDist(r.x, r.y, room[i], room[(i + 1) % |room|]);
      if res > dist {
        res := dist;
      }
    }
    WallDistanceIsMin(r, room, segDist, |room|);
  }

  /** The particle lies outside [0, W] x [0, H]. */
  predicate OutOfRoom(r: Robot, width: int, height: int)
  {
    r.x > width || r.y > height || r.x < 0 || r.y < 0
  }

  /**
   * The re-placement both eval functions apply to a particle outside the
   * room: weight 0.00001, and a new pose drawn from three `rand()` values
   * (x and y modulo the room size, the heading `fmod` 2*pi).
   */
  function Replace(r: Robot, width: int, height: int, randX: nat, randY: nat, randA: nat): (r': Robot)
    requires width > 0 && height > 0
    ensures 0 <= r'.x < width && 0 <= r'.y < height && 0.0 <= r'.a < TwoPi
    ensures r'.weight == Unlikely
    ensures r'.(x := r.x, y := r.y, a := r.a, weight := r.weight) == r
  {
    r.(x := randX % width, y := randY % height, a := Fmod(randA as real, TwoPi), weight := Unlikely)
  }

  /**
   * robot_eval_tag: an out-of-room particle is re-placed; an in-room one
   * gets the Gaussian likelihood `density` of its tag distance, with 0
   * raised to 0.00001. The returned probability is the stored weight.
   */
  function EvalTag(r: Robot, width: int, height: int, density: real,
                   randX: nat, randY: nat, randA: nat): (res: (Robot, real))
    requires OutOfRoom(r, width, height) ==> width > 0 && height > 0
    ensures res.1 == res.0.weight
    ensures OutOfRoom(r, width, height) ==> res.0 == Replace(r, width, height, randX, randY, randA)
    ensures !OutOfRoom(r, width, height) ==>
              res.0 == r.(weight := res.1) && res.1 != 0.0 &&
              res.1 == if density == 0.0 then Unlikely else density
  {
    if OutOfRoom(r, width, height) then
      var r' := Replace(r, width, height, randX, randY, randA);
      (r', r'.weight)
    else
      var prob := if density == 0.0 then Unlikely else density;
      (r.(weight := prob), prob)
  }

  /**
   * robot_eval_wall: an out-of-room particle is re-placed; an in-room one
   * gets weight 1 when the sensed wall distance is within 10 mm of its
   * radius (exclusive) and 0.1 otherwise. The returned probability is the
   * stored weight.
   */
  function EvalWall(r: Robot, width: int, height: int, wallDist: real,
                    randX: nat, randY: nat, randA: nat): (res: (Robot, real))
    requires OutOfRoom(r, width, height) ==> width > 0 && height > 0
    ensures res.1 == res.0.weight
    ensures OutOfRoom(r, width, height) ==> res.0 == Replace(r, width, height, randX, randY, randA)
    ensures !OutOfRoom(r, width, height) ==> res.0 == r.(weight := res.1)
    ensures !OutOfRoom(r, width, height) ==>
              (res.1 == 1.0 <==> (r.radius - 10) as real < wallDist < (r.radius + 10) as real)
    ensures !OutOfRoom(r, width, height) ==> res.1 == 1.0 || res.1 == 0.1
  {
    if OutOfRoom(r, width, height) then
      var r' := Replace(r, width, height, randX, randY, randA);
      (r', r'.weight)
    else
      var prob := if (r.radius - 10) as real < wallDist < (r.radius + 10) as real then 1.0 else 0.1;
      (r.(weight := prob), prob)
  }
}
