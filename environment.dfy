// The room and tag lookups of enviroment.c.
//
// The room outline and the RFID tag table are read from files once at
// start-up (the file reading is not part of this model) and never change
// afterwards; only the room's bounding box is computed into the
// environment in place.

module Environment {
  import opened General
  import opened Records

  /** enviroment_room_point_t. */
  datatype Point = Point(x: int, y: int)

  /** enviroment_tag_t: `id` is the C string in `char id[11]`, `enable` an `unsigned char`. */
  datatype TagDef = TagDef(x: int, y: int, id: seq<char>, enable: byte)

  const TagZeros: int := -1
  const TagUnknown: int := -2
  const TagDisabled: int := -3

  /** The answer enviroment_tag_check gives, as a value (TagCheck states what it means). */
  function TagStatus(tags: seq<TagDef>, id: seq<char>): int
  {
    if id == EmptyTag then TagZeros
    else if FirstMatch(tags, id).None? then TagUnknown
    else if tags[FirstMatch(tags, id).value].enable > 0 then FirstMatch(tags, id).value
    else TagDisabled
  }

  /** The first position at or after k whose tag has the given id, if any. */
  function FirstMatchFrom(tags: seq<TagDef>, id: seq<char>, k: nat): (r: Option<nat>)
    requires k <= |tags|
    ensures r.Some? ==> k <= r.value < |tags| && tags[r.value].id == id &&
                        forall j :: k <= j < r.value ==> tags[j].id != id
    ensures r.None? ==> forall j :: k <= j < |tags| ==> tags[j].id != id
    decreases |tags| - k
  {
    if k == |tags| then None
    else if tags[k].id == id then Some(k)
    else FirstMatchFrom(tags, id, k + 1)
  }

  /** The first position whose tag has the given id, if any. */
  function FirstMatch(tags: seq<TagDef>, id: seq<char>): (r: Option<nat>)
    ensures r.Some? ==> r.value < |tags| && tags[r.value].id == id &&
                        forall j :: 0 <= j < r.value ==> tags[j].id != id
    ensures r.None? ==> forall j :: 0 <= j < |tags| ==> tags[j].id != id
  {
    FirstMatchFrom(tags, id, 0)
  }

  /** `unsigned int` conversion of an `int`. */
  function ToUnsigned(n: int): (u: nat)
    ensures u < 0x1_0000_0000 && (u - n) % 0x1_0000_0000 == 0
    ensures 0 <= n < 0x1_0000_0000 ==> u == n
  {
    n % 0x1_0000_0000
  }

  /** The running maximum the source keeps in an `unsigned int`, starting from 0, over a list of `int` coordinates. */
  function MaxUnsigned(xs: seq<int>): (m: nat)
    ensures m < 0x1_0000_0000
    ensures forall i :: 0 <= i < |xs| ==> ToUnsigned(xs[i]) <= m
    ensures m == 0 || exists i :: 0 <= i < |xs| && m == ToUnsigned(xs[i])
  {
    if |xs| == 0 then 0
    else
      var m := MaxUnsigned(xs[..|xs| - 1]);
      assert forall i :: 0 <= i < |xs| - 1 ==> xs[..|xs| - 1][i] == xs[i];
      if m < ToUnsigned(xs[|xs| - 1]) then ToUnsigned(xs[|xs| - 1]) else m
  }

  function Xs(room: seq<Point>): (xs: seq<int>)
    ensures |xs| == |room| && forall i :: 0 <= i < |room| ==> xs[i] == room[i].x
  {
    seq(|room|, i requires 0 <= i < |room| => room[i].x)
  }

  function Ys(room: seq<Point>): (ys: seq<int>)
    ensures |ys| == |room| && forall i :: 0 <= i < |room| ==> ys[i] == room[i].y
  {
    seq(|room|, i requires 0 <= i < |room| => room[i].y)
  }

  /** On coordinates that fit a signed `int` and are not negative, the unsigned running maximum is the true maximum (or 0). */
  lemma {:induction false} MaxUnsignedOfNonNegative(xs: seq<int>)
    requires forall i :: 0 <= i < |xs| ==> 0 <= xs[i] < 0x8000_0000
    ensures MaxUnsigned(xs) < 0x8000_0000
    ensures forall i :: 0 <= i < |xs| ==> xs[i] <= MaxUnsigned(xs)
    ensures MaxUnsigned(xs) == 0 || exists i :: 0 <= i < |xs| && MaxUnsigned(xs) == xs[i]
  {
    var m := MaxUnsigned(xs);
    if m != 0 {
      var i :| 0 <= i < |xs| && m == ToUnsigned(xs[i]);
      assert m == xs[i];
    }
    forall i | 0 <= i < |xs|
      ensures xs[i] <= m
    {
      assert ToUnsigned(xs[i]) <= m;
    }
  }

  /** A negative coordinate compares as a huge unsigned value: a room point at x = -1 makes the width -1. */
  lemma NegativeCoordinateWins()
    ensures ToInt32(MaxUnsigned([100, -1])) == -1
  {
    assert MaxUnsigned([100]) == 100 by {
      assert [100][..0] == [];
    }
    assert [100, -1][..1] == [100];
  }

  /** enviroment_t: the room outline, the tag table, and the room's bounding box. */
  class Env {
    const room: seq<Point>
    const tags: seq<TagDef>
    var roomMaxWidth: int
    var roomMaxHeight: int

    /** The environment as loaded, before its dimensions are computed. */
    constructor (room: seq<Point>, tags: seq<TagDef>)
      ensures this.room == room && this.tags == tags
      ensures roomMaxWidth == 0 && roomMaxHeight == 0
    {
      this.room := room;
      this.tags := tags;
      roomMaxWidth := 0;
      roomMaxHeight := 0;
    }

    /**
     * enviroment_calc_room_dimensions: the largest x and the largest y over
     * the room points, kept in `unsigned int` from 0 and stored back into
     * the `int` fields.
     */
    method CalcRoomDimensions()
      modifies this
      ensures roomMaxWidth == ToInt32(MaxUnsigned(Xs(room)))
      ensures roomMaxHeight == ToInt32(MaxUnsigned(Ys(room)))
    {
      var maxWidth: nat := 0;
      var maxHeight: nat := 0;
      for i := 0 to |room|
        invariant maxWidth == MaxUnsigned(Xs(room)[..i])
        invariant maxHeight == MaxUnsigned(Ys(room)[..i])
      {
        assert Xs(room)[..i + 1][..i] == Xs(room)[..i];
        assert Ys(room)[..i + 1][..i] == Ys(room)[..i];
        if maxWidth < ToUnsigned(room[i].x) {
          maxWidth := ToUnsigned(room[i].x);
        }
        if maxHeight < ToUnsigned(room[i].y) {
          maxHeight := ToUnsigned(room[i].y);
        }
      }
      assert Xs(room)[..|room|] == Xs(room);
      assert Ys(room)[..|room|] == Ys(room);
      roomMaxWidth := ToInt32(maxWidth);
      roomMaxHeight := ToInt32(maxHeight);
    }

    /**
     * enviroment_tag_check: -1 for the empty tag; otherwise the first tag
     * with this id decides, giving its index when it is enabled and -3
     * when it is not (a later enabled duplicate is never seen); -2 when no
     * tag has this id.
     */
    method TagCheck(id: seq<char>) returns (r: int)
      ensures r == TagZeros <==> id == EmptyTag
      ensures id != EmptyTag && FirstMatch(tags, id).None? ==> r == TagUnknown
      ensures id != EmptyTag && FirstMatch(tags, id).Some? ==>
                r == if tags[FirstMatch(tags, id).value].enable > 0 then FirstMatch(tags, id).value else TagDisabled
      ensures r >= 0 ==> r < |tags| && tags[r].id == id && tags[r].enable > 0
      ensures r >= TagDisabled
      ensures r == TagStatus(tags, id)
    {
      if id == EmptyTag {
        return TagZeros;
      }
      var i := 0;
      while i < |tags|
        invariant 0 <= i <= |tags|
        invariant FirstMatchFrom(tags, id, i) == FirstMatch(tags, id)
      {
        if tags[i].id == id {
          if tags[i].enable > 0 {
            return i;
          } else {
            return TagDisabled;
          }
        }
        i := i + 1;
      }
      return TagUnknown;
    }
  }
}
