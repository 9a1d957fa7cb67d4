// The communicate task of task_communicate.c: the send list flushed as
// broadcast data frames, and the received frames decoded and routed to
// the mission and navigate queues. The Agent method
// Tasks.Agent.Communicate runs Flush and Receive on the agent's parts.

module TaskCommunicate {
  import opened General
  import opened Records
  import opened TimeLib
  import opened DoublyLinkedList
  import opened Fifo
  import opened Protocol
  import opened Text

  /** The broadcast address of protocol.h. */
  const BroadcastAddr: int := 99

  /** The queue holds only what the communicate task routes to the mission task. */
  predicate MissionRecord(p: Payload)
  {
    (p.VictimData? || p.CmdData?) && WellFormed(p)
  }

  /** The queue holds only the sectors the communicate task routes to the navigate task. */
  predicate NavigateRecord(p: Payload)
  {
    p.SectorData? && WellFormed(p)
  }

  // ---------------------------------------------------------------------
  // Sending
  // ---------------------------------------------------------------------

  /**
   * The header of a flushed data frame: to the broadcast address, from
   * this robot and team, stamped with the clock, numbered `seqno` of
   * `total` in message sequence `seqid`.
   */
  function FlushHeader(robotId: int, robotTeam: int, now: Timeval, seqno: int, seqid: int, total: int): (m: Message)
    ensures m.kind == TypeData && m.sendId == robotId && m.sendTeam == robotTeam
  {
    Message(BroadcastAddr, robotId, robotTeam, TypeData, Timestamp(now), seqno, seqid, total, None, None)
  }

  /** The frames a flush of `items` broadcasts: one per record, in list order, numbered 1 to |items|. */
  function Flushed(items: seq<Payload>, robotId: int, robotTeam: int, now: Timeval, seqid: int): (fs: seq<seq<char>>)
    requires forall k :: 0 <= k < |items| ==> Sendable(items[k])
    ensures |fs| == |items|
    ensures forall k :: 0 <= k < |items| ==>
              fs[k] == Join(Header(FlushHeader(robotId, robotTeam, now, k + 1, seqid, |items|)) +
                            [Dec(TagOf(items[k]))] + RecordFields(items[k]))
  {
    seq(|items|, k requires 0 <= k < |items| =>
      Join(Header(FlushHeader(robotId, robotTeam, now, k + 1, seqid, |items|)) + [Dec(TagOf(items[k]))] + RecordFields(items[k])))
  }

  /**
   * The sending loop of task_communicate: while the list is not empty,
   * its first record is removed, encoded as a data frame with the next
   * sequence number, the message sequence id and the count the list had
   * when the loop began, and broadcast. The list ends empty.
   */
  method Flush(list: List, robotId: int, robotTeam: int, seqid: int, now: Timeval) returns (frames: seq<seq<char>>)
    requires list.Valid() && forall k :: 0 <= k < |list.items| ==> Sendable(list.items[k])
    modifies list
    ensures list.Valid() && list.items == []
    ensures frames == Flushed(old(list.items), robotId, robotTeam, now, seqid)
  {
    ghost var items := list.items;
    var lastId := list.count;
    var seqno := 0;
    frames := [];
    while list.count != 0
      invariant list.Valid() && 0 <= seqno <= |items| && list.items == items[seqno..] && lastId == |items|
      invariant frames == Flushed(items, robotId, robotTeam, now, seqid)[..seqno]
      decreases list.count
    {
      seqno := seqno + 1;
      var dataType, data := list.Remove(0);
      assert data == items[seqno - 1];
      var status, packet := Encode(BroadcastAddr, robotId, robotTeam, TypeData, seqno, seqid, lastId, dataType, data, now);
      FlushStep(items, robotId, robotTeam, now, seqid, seqno - 1, frames, packet);
      frames := frames + [packet];
    }
    assert Flushed(items, robotId, robotTeam, now, seqid)[..|items|] == Flushed(items, robotId, robotTeam, now, seqid);
  }

  /** The frame encoded for record n extends the frames flushed before it. */
  lemma FlushStep(items: seq<Payload>, robotId: int, robotTeam: int, now: Timeval, seqid: int, n: nat,
                  frames: seq<seq<char>>, packet: seq<char>)
    requires forall k :: 0 <= k < |items| ==> Sendable(items[k])
    requires n < |items| && frames == Flushed(items, robotId, robotTeam, now, seqid)[..n]
    requires packet == Join(HeaderFields(BroadcastAddr, robotId, robotTeam, TypeData, Timestamp(now), n + 1, seqid, |items|) +
                            [Dec(TagOf(items[n]))] + RecordFields(items[n]))
    ensures frames + [packet] == Flushed(items, robotId, robotTeam, now, seqid)[..n + 1]
  {
    var fs := Flushed(items, robotId, robotTeam, now, seqid);
    assert fs[n] == packet;
    assert fs[..n + 1] == fs[..n] + [fs[n]];
  }

  // ---------------------------------------------------------------------
  // Receiving
  // ---------------------------------------------------------------------

  /** Where task_communicate sends an accepted message. */
  datatype Route = Drop | ToMission(p: Payload) | ToNavigate(p: Payload)

  /**
   * A go-ahead frame becomes a go-ahead command for the mission task;
   * a victim or command record goes to the mission task and a pheromone
   * sector to the navigate task; acks, poses and stream items go nowhere.
   */
  function RouteOf(m: Message): (r: Route)
    requires Coherent(m)
    ensures r.ToMission? ==> MissionRecord(r.p)
    ensures r.ToNavigate? ==> NavigateRecord(r.p)
  {
    if m.kind == TypeGoAhead then ToMission(CmdData(Command(CmdGoAhead)))
    else if m.kind != TypeData then Drop
    else if m.dataType.value == TagVictim || m.dataType.value == TagCmd then ToMission(m.data.value)
    else if m.dataType.value == TagPheromone then ToNavigate(m.data.value)
    else Drop
  }

  /**
   * What one accepted message adds to the mission queue (`.0`) and to
   * the navigate queue (`.1`): what RouteOf says.
   */
  function Delivery(m: Message): (r: (seq<Payload>, seq<Payload>))
    requires Coherent(m)
    ensures |r.0| + |r.1| <= 1
    ensures forall k :: 0 <= k < |r.0| ==> MissionRecord(r.0[k])
    ensures forall k :: 0 <= k < |r.1| ==> NavigateRecord(r.1[k])
  {
    match RouteOf(m)
    case Drop => ([], [])
    case ToMission(p) => ([p], [])
    case ToNavigate(p) => ([], [p])
  }

  /** What one decoded frame adds to the two queues: nothing when it was dropped. */
  function Delivered(d: Decoded): (r: (seq<Payload>, seq<Payload>))
    requires d.Accepted? ==> Coherent(d.msg)
    ensures |r.0| + |r.1| <= 1
    ensures forall k :: 0 <= k < |r.0| ==> MissionRecord(r.0[k])
    ensures forall k :: 0 <= k < |r.1| ==> NavigateRecord(r.1[k])
  {
    if d.Dropped? then ([], []) else Delivery(d.msg)
  }

  /**
   * What the received frames add to the mission queue (`.0`) and to the
   * navigate queue (`.1`), in arrival order: each frame decoded by
   * protocol_decode and delivered.
   */
  function Routed(frames: seq<seq<char>>, robotId: int, robotTeam: int): (r: (seq<Payload>, seq<Payload>))
    ensures forall k :: 0 <= k < |r.0| ==> MissionRecord(r.0[k])
    ensures forall k :: 0 <= k < |r.1| ==> NavigateRecord(r.1[k])
    ensures |r.0| + |r.1| <= |frames|
    decreases |frames|
  {
    if frames == [] then ([], [])
    else
      var r := Routed(frames[..|frames| - 1], robotId, robotTeam);
      var d := Delivered(Parse(frames[|frames| - 1], robotId, robotTeam));
      (r.0 + d.0, r.1 + d.1)
  }

  /** The switch of the receiving loop on a decoded message: it is enqueued where RouteOf says. */
  method Deliver(mission: Queue, navigate: Queue, packet: Message)
    requires mission.Valid() && navigate.Valid() && mission != navigate && Coherent(packet)
    modifies mission, navigate
    ensures mission.Valid() && navigate.Valid()
    ensures mission.items == old(mission.items) + Delivery(packet).0
    ensures navigate.items == old(navigate.items) + Delivery(packet).1
  {
    if packet.kind == TypeGoAhead {
      mission.Enqueue(CmdData(Command(CmdGoAhead)));
    } else if packet.kind == TypeData {
      var dt := packet.dataType.value;
      if dt == TagVictim || dt == TagCmd {
        mission.Enqueue(packet.data.value);
      } else if dt == TagPheromone {
        navigate.Enqueue(packet.data.value);
      }
    }
  }

  /** One pass of the receiving loop: the frame decoded and, when it decodes, delivered. */
  method ReceiveOne(mission: Queue, navigate: Queue, frame: seq<char>, robotId: int, robotTeam: int)
    requires mission.Valid() && navigate.Valid() && mission != navigate
    modifies mission, navigate
    ensures mission.Valid() && navigate.Valid()
    ensures mission.items == old(mission.items) + Delivered(Parse(frame, robotId, robotTeam)).0
    ensures navigate.items == old(navigate.items) + Delivered(Parse(frame, robotId, robotTeam)).1
  {
    var status, packet := Decode(frame, robotId, robotTeam);
    if status == Ok {
      AcceptedDelivery(frame, robotId, robotTeam, packet);
      Deliver(mission, navigate, packet);
    } else {
      DroppedDelivery(frame, robotId, robotTeam);
    }
  }

  /** A frame that decodes to a message delivers what that message routes to. */
  lemma AcceptedDelivery(frame: seq<char>, robotId: int, robotTeam: int, packet: Message)
    requires Parse(frame, robotId, robotTeam) == Accepted(packet)
    ensures Coherent(packet)
    ensures Delivered(Parse(frame, robotId, robotTeam)) == Delivery(packet)
  {
  }

  /** A frame the decoder refuses delivers nothing. */
  lemma DroppedDelivery(frame: seq<char>, robotId: int, robotTeam: int)
    requires !Parse(frame, robotId, robotTeam).Accepted?
    ensures Delivered(Parse(frame, robotId, robotTeam)) == ([], [])
  {
  }

  /** The receiving loop of task_communicate: every frame received is decoded and routed, in order. */
  method Receive(mission: Queue, navigate: Queue, frames: seq<seq<char>>, robotId: int, robotTeam: int)
    requires mission.Valid() && navigate.Valid() && mission != navigate
    modifies mission, navigate
    ensures mission.Valid() && navigate.Valid()
    ensures mission.items == old(mission.items) + Routed(frames, robotId, robotTeam).0
    ensures navigate.items == old(navigate.items) + Routed(frames, robotId, robotTeam).1
  {
    ghost var m0, n0 := mission.items, navigate.items;
    for i := 0 to |frames|
      invariant mission.Valid() && navigate.Valid()
      invariant mission.items == m0 + Routed(frames[..i], robotId, robotTeam).0
      invariant navigate.items == n0 + Routed(frames[..i], robotId, robotTeam).1
    {
      ReceiveNext(mission, navigate, frames, i, robotId, robotTeam, m0, n0);
    }
    assert frames[..|frames|] == frames;
  }

  /** The receiving loop's body on frame i, with m0 and n0 the queues before the loop. */
  method ReceiveNext(mission: Queue, navigate: Queue, frames: seq<seq<char>>, i: nat, robotId: int, robotTeam: int,
                     ghost m0: seq<Payload>, ghost n0: seq<Payload>)
    requires mission.Valid() && navigate.Valid() && mission != navigate && i < |frames|
    requires mission.items == m0 + Routed(frames[..i], robotId, robotTeam).0
    requires navigate.items == n0 + Routed(frames[..i], robotId, robotTeam).1
    modifies mission, navigate
    ensures mission.Valid() && navigate.Valid()
    ensures mission.items == m0 + Routed(frames[..i + 1], robotId, robotTeam).0
    ensures navigate.items == n0 + Routed(frames[..i + 1], robotId, robotTeam).1
  {
    RoutedAppend(frames, i, robotId, robotTeam, m0, n0);
    ReceiveOne(mission, navigate, frames[i], robotId, robotTeam);
  }

  // ---------------------------------------------------------------------
  // Properties
  // ---------------------------------------------------------------------

  /** Frames that all fail to decode route nothing. */
  lemma {:induction false} RoutedNone(frames: seq<seq<char>>, robotId: int, robotTeam: int)
    requires forall k :: 0 <= k < |frames| ==> Parse(frames[k], robotId, robotTeam).Dropped?
    ensures Routed(frames, robotId, robotTeam) == ([], [])
    decreases |frames|
  {
    if frames != [] {
      var init := frames[..|frames| - 1];
      assert forall k :: 0 <= k < |init| ==> init[k] == frames[k];
      RoutedNone(init, robotId, robotTeam);
    }
  }

  /** A robot that receives the frames it flushed itself ignores them all. */
  lemma OwnFlushIgnored(items: seq<Payload>, robotId: int, robotTeam: int, now: Timeval, seqid: int)
    requires forall k :: 0 <= k < |items| ==> Sendable(items[k])
    ensures Routed(Flushed(items, robotId, robotTeam, now, seqid), robotId, robotTeam) == ([], [])
  {
    var fs := Flushed(items, robotId, robotTeam, now, seqid);
    forall k | 0 <= k < |fs|
      ensures Parse(fs[k], robotId, robotTeam).Dropped?
    {
      var m := FlushHeader(robotId, robotTeam, now, k + 1, seqid, |items|);
      var more := [Dec(TagOf(items[k]))] + RecordFields(items[k]);
      assert Header(m) + [Dec(TagOf(items[k]))] + RecordFields(items[k]) == Header(m) + more;
      DropsOwnFrames(m, more, robotTeam);
    }
    RoutedNone(fs, robotId, robotTeam);
  }

  /** A robot of another team (not team 0) ignores every frame another robot flushed. */
  lemma OtherTeamFlushIgnored(items: seq<Payload>, senderId: int, senderTeam: int, now: Timeval, seqid: int,
                              robotId: int, robotTeam: int)
    requires forall k :: 0 <= k < |items| ==> Sendable(items[k])
    requires senderId != robotId && senderTeam != robotTeam && robotTeam != 0
    ensures Routed(Flushed(items, senderId, senderTeam, now, seqid), robotId, robotTeam) == ([], [])
  {
    var fs := Flushed(items, senderId, senderTeam, now, seqid);
    forall k | 0 <= k < |fs|
      ensures Parse(fs[k], robotId, robotTeam).Dropped?
    {
      var m := FlushHeader(senderId, senderTeam, now, k + 1, seqid, |items|);
      var more := [Dec(TagOf(items[k]))] + RecordFields(items[k]);
      assert Header(m) + [Dec(TagOf(items[k]))] + RecordFields(items[k]) == Header(m) + more;
      DropsOtherTeams(m, more, robotId, robotTeam);
    }
    RoutedNone(fs, robotId, robotTeam);
  }

  /**
   * A command one robot flushes reaches the mission queue of a teammate
   * with another id unchanged.
   */
  lemma FlushedCommandArrives(items: seq<Payload>, k: nat, senderId: int, team: int, now: Timeval, seqid: int,
                              robotId: int)
    requires forall j :: 0 <= j < |items| ==> Sendable(items[j])
    requires k < |items| && items[k].CmdData? && senderId != robotId
    ensures Routed([Flushed(items, senderId, team, now, seqid)[k]], robotId, team) == ([items[k]], [])
  {
    var m := FlushHeader(senderId, team, now, k + 1, seqid, |items|);
    var x := Flushed(items, senderId, team, now, seqid)[k];
    assert x == Join(Header(m) + [Dec(TagCmd)] + RecordFields(CmdData(items[k].command)));
    CommandRoundTrip(m, items[k].command, robotId, team);
    ArrivesAs(x, robotId, team, m.(dataType := Some(TagCmd), data := Some(items[k])));
  }

  /**
   * A victim one robot flushes, whose id has 1 to 10 characters and no
   * comma, reaches the mission queue of a teammate with another id
   * unchanged.
   */
  lemma FlushedVictimArrives(items: seq<Payload>, k: nat, senderId: int, team: int, now: Timeval, seqid: int,
                             robotId: int)
    requires forall j :: 0 <= j < |items| ==> Sendable(items[j])
    requires k < |items| && items[k].VictimData? && senderId != robotId
    requires 1 <= |items[k].victim.id| <= 10 && FieldText(items[k].victim.id, Comma)
    ensures Routed([Flushed(items, senderId, team, now, seqid)[k]], robotId, team) == ([items[k]], [])
  {
    var m := FlushHeader(senderId, team, now, k + 1, seqid, |items|);
    var x := Flushed(items, senderId, team, now, seqid)[k];
    assert x == Join(Header(m) + [Dec(TagVictim)] + RecordFields(VictimData(items[k].victim)));
    VictimRoundTrip(m, items[k].victim, robotId, team);
    ArrivesAs(x, robotId, team, m.(dataType := Some(TagVictim), data := Some(items[k])));
  }

  /**
   * A pheromone sector one robot flushes, of 1 to 200 bytes none of which
   * is 0 or a comma, reaches the navigate queue of a teammate with another
   * id: its number, size and time unchanged, its used bytes in place and
   * the rest of the buffer 0.
   */
  lemma FlushedSectorArrives(items: seq<Payload>, k: nat, senderId: int, team: int, now: Timeval, seqid: int,
                             robotId: int)
    requires forall j :: 0 <= j < |items| ==> Sendable(items[j])
    requires k < |items| && items[k].SectorData? && senderId != robotId
    requires var s := items[k].sector;
             1 <= s.size <= SectorMaxSize == |s.data| && forall j :: 0 <= j < s.size ==> s.data[j] != 0 && s.data[j] != 44
    ensures var s := items[k].sector;
            Routed([Flushed(items, senderId, team, now, seqid)[k]], robotId, team) ==
              ([], [SectorData(s.(data := s.data[..s.size] + Zeros(SectorMaxSize - s.size)))])
  {
    var s := items[k].sector;
    var m := FlushHeader(senderId, team, now, k + 1, seqid, |items|);
    var x := Flushed(items, senderId, team, now, seqid)[k];
    assert x == Join(Header(m) + [Dec(TagPheromone)] + RecordFields(SectorData(s)));
    SectorRoundTrip(m, s, robotId, team);
    ArrivesAs(x, robotId, team,
              m.(dataType := Some(TagPheromone), data := Some(SectorData(s.(data := s.data[..s.size] + Zeros(SectorMaxSize - s.size))))));
  }

  /**
   * Nothing bounds a received sector's number from below: a teammate's
   * frame for sector -1 reaches the navigate queue numbered -1.
   */
  lemma NegativeSectorArrives(m: Message, s: Sector, robotId: int, robotTeam: int)
    requires m.kind == TypeData && Admitted(m.sendId, m.sendTeam, robotId, robotTeam)
    requires s.num == -1 && 1 <= s.size <= SectorMaxSize == |s.data|
    requires forall j :: 0 <= j < s.size ==> s.data[j] != 0 && s.data[j] != 44
    ensures var r := Routed([Join(Header(m) + [Dec(TagPheromone)] + RecordFields(SectorData(s)))], robotId, robotTeam);
            r.0 == [] && |r.1| == 1 && r.1[0].sector.num == -1
  {
    var x := Join(Header(m) + [Dec(TagPheromone)] + RecordFields(SectorData(s)));
    SectorRoundTrip(m, s, robotId, robotTeam);
    ArrivesAs(x, robotId, robotTeam,
              m.(dataType := Some(TagPheromone), data := Some(SectorData(s.(data := s.data[..s.size] + Zeros(SectorMaxSize - s.size))))));
  }

  /** A go-ahead frame from an admitted sender becomes a go-ahead command for the mission task. */
  lemma GoAheadArrives(m: Message, robotId: int, robotTeam: int)
    requires m.kind == TypeGoAhead && m.dataType.None? && m.data.None?
    requires Admitted(m.sendId, m.sendTeam, robotId, robotTeam)
    ensures Routed([Join(Header(m))], robotId, robotTeam) == ([CmdData(Command(CmdGoAhead))], [])
  {
    HeaderRoundTrip(m, robotId, robotTeam);
    ArrivesAs(Join(Header(m)), robotId, robotTeam, m);
  }

  /** A frame that decodes to m routes as m is delivered. */
  lemma ArrivesAs(x: seq<char>, robotId: int, robotTeam: int, m: Message)
    requires Parse(x, robotId, robotTeam) == Accepted(m)
    ensures Routed([x], robotId, robotTeam) == Delivery(m)
  {
    RoutedSingle(x, robotId, robotTeam);
  }

  /** One frame routes as the one decoded frame is delivered. */
  lemma RoutedSingle(x: seq<char>, robotId: int, robotTeam: int)
    ensures Routed([x], robotId, robotTeam) == Delivered(Parse(x, robotId, robotTeam))
  {
    RoutedStep([x], 0, robotId, robotTeam);
    assert [x][..1] == [x] && [x][..0] == [];
    assert Routed([], robotId, robotTeam) == ([], []);
    AfterNothing(Delivered(Parse(x, robotId, robotTeam)));
  }

  lemma AfterNothing(d: (seq<Payload>, seq<Payload>))
    ensures ([] + d.0, [] + d.1) == d
  {
    assert [] + d.0 == d.0 && [] + d.1 == d.1;
  }

  /** Queues that held m0 and n0 plus the first i frames' routes, with frame i's delivery appended. */
  lemma RoutedAppend(frames: seq<seq<char>>, i: nat, robotId: int, robotTeam: int, m0: seq<Payload>, n0: seq<Payload>)
    requires i < |frames|
    ensures var r := Routed(frames[..i], robotId, robotTeam);
            var d := Delivered(Parse(frames[i], robotId, robotTeam));
            m0 + r.0 + d.0 == m0 + Routed(frames[..i + 1], robotId, robotTeam).0 &&
            n0 + r.1 + d.1 == n0 + Routed(frames[..i + 1], robotId, robotTeam).1
  {
    RoutedStep(frames, i, robotId, robotTeam);
    AppendPair(m0, n0, Routed(frames[..i], robotId, robotTeam), Delivered(Parse(frames[i], robotId, robotTeam)),
               Routed(frames[..i + 1], robotId, robotTeam));
  }

  lemma AppendPair(m0: seq<Payload>, n0: seq<Payload>, r: (seq<Payload>, seq<Payload>), d: (seq<Payload>, seq<Payload>),
                   rd: (seq<Payload>, seq<Payload>))
    requires rd == (r.0 + d.0, r.1 + d.1)
    ensures m0 + r.0 + d.0 == m0 + rd.0 && n0 + r.1 + d.1 == n0 + rd.1
  {
    assert m0 + r.0 + d.0 == m0 + (r.0 + d.0);
    assert n0 + r.1 + d.1 == n0 + (r.1 + d.1);
  }

  /** The first i + 1 frames route as the first i, then frame i delivered. */
  lemma RoutedStep(frames: seq<seq<char>>, i: nat, robotId: int, robotTeam: int)
    requires i < |frames|
    ensures var r := Routed(frames[..i], robotId, robotTeam);
            var d := Delivered(Parse(frames[i], robotId, robotTeam));
            Routed(frames[..i + 1], robotId, robotTeam) == (r.0 + d.0, r.1 + d.1)
  {
    assert frames[..i + 1][..i] == frames[..i];
    assert frames[..i + 1][i] == frames[i];
  }
}
