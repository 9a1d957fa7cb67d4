// The text wire codec of protocol.c.
//
// A frame is a comma-separated line: eight header fields (receiver,
// sender, sender team, packet type, timestamp, sequence number, sequence
// id, last sequence id), then for data frames the data type and the
// record's fields. Pheromone sectors and stream records end with raw bytes
// copied into the line. Frames are `seq<char>`, one character per byte;
// the terminating NUL the encoder writes after the frame is not part of
// the sequence.

module Protocol {
  import opened General
  import opened Text
  import opened Records
  import opened TimeLib
  import opened Robots

  const TypeAck: char := 'a'
  const TypeData: char := 'd'
  const TypeGoAhead: char := 'g'

  /** The delimiters of every field but a command's. */
  const Comma: set<char> := {','}
  /** The delimiters of a command field. */
  const CmdDelims: set<char> := {' ', ','}

  // ---------------------------------------------------------------------
  // Frames as fields
  // ---------------------------------------------------------------------

  /** The fields written one after another, each but the first preceded by a comma. */
  function Join(fs: seq<seq<char>>): seq<char>
  {
    if |fs| == 0 then []
    else if |fs| == 1 then fs[0]
    else Join(fs[..|fs| - 1]) + [','] + fs[|fs| - 1]
  }

  /** Read from the front, a joined line is its first field, a comma, and the join of the others. */
  lemma {:induction false} JoinFront(fs: seq<seq<char>>)
    requires |fs| >= 2
    ensures Join(fs) == Cons(fs[0], Join(fs[1..]))
    decreases |fs|
  {
    var n := |fs| - 1;
    if |fs| > 2 {
      JoinFront(fs[..n]);
      assert fs[..n][1..] == fs[1..][..n - 1];
      assert fs[..n][0] == fs[0];
    }
  }

  /** strtok on a joined line gives its first field and leaves the join of the others. */
  lemma TokJoin(fs: seq<seq<char>>, d: set<char>)
    requires |fs| >= 1 && FieldText(fs[0], d) && ',' in d
    ensures StrTok(Join(fs), d) == Some((fs[0], Join(fs[1..])))
  {
    if |fs| == 1 {
      StrTokLast(fs[0], d);
      assert fs[1..] == [];
    } else {
      JoinFront(fs);
      StrTokCons(fs[0], Join(fs[1..]), d);
    }
  }

  /** strtok on the k-th of a run of joined fields gives that field and leaves the join of those after it. */
  lemma TokAt(fs: seq<seq<char>>, k: nat, d: set<char>)
    requires k < |fs| && FieldText(fs[k], d) && ',' in d
    ensures StrTok(Join(fs[k..]), d) == Some((fs[k], Join(fs[k + 1..])))
  {
    TokJoin(fs[k..], d);
    assert fs[k..][1..] == fs[k + 1..];
  }

  /** One strtok and strtol step: the next field read as a decimal integer, and where the next step starts. */
  function Field(s: seq<char>): Option<(int, seq<char>)>
  {
    match StrTok(s, Comma)
    case None => None
    case Some((tok, rest)) => Some((StrTol(tok), rest))
  }

  /** An integer written with `%d` as the k-th field reads back as that integer. */
  lemma FieldAt(fs: seq<seq<char>>, k: nat, v: int)
    requires k < |fs| && fs[k] == Dec(v)
    ensures Field(Join(fs[k..])) == Some((v, Join(fs[k + 1..])))
  {
    DecIsField(v, Comma);
    TokAt(fs, k, Comma);
    StrTolDec(v);
  }


  /** FieldAt for the first field. */
  lemma FieldFirst(fs: seq<seq<char>>, v: int)
    requires |fs| >= 1 && fs[0] == Dec(v)
    ensures Field(Join(fs)) == Some((v, Join(fs[1..])))
  {
    DecIsField(v, Comma);
    TokJoin(fs, Comma);
    StrTolDec(v);
  }

  /** FieldAt with the index of the following field named, so that its conclusion matches literally. */
  lemma FieldThen(fs: seq<seq<char>>, k: nat, next: nat, v: int)
    requires k < |fs| && next == k + 1 && fs[k] == Dec(v)
    ensures Field(Join(fs[k..])) == Some((v, Join(fs[next..])))
  {
    FieldAt(fs, k, v);
  }

  // ---------------------------------------------------------------------
  // Encoding
  // ---------------------------------------------------------------------

  /**
   * The frame timestamp: the millisecond clock truncated to a `long long`,
   * then C's `%` by 60000, whose remainder takes the sign of the dividend.
   */
  function Timestamp(now: Timeval): (t: int)
    ensures -60000 < t < 60000
    ensures UnixMs(now) >= 0.0 ==> 0 <= t < 60000
    ensures (Trunc(UnixMs(now)) - t) % 60000 == 0
  {
    var ms := Trunc(UnixMs(now));
    if ms >= 0 then ms % 60000 else -((-ms) % 60000)
  }

  /** The eight header fields. */
  function HeaderFields(recvId: int, sendId: int, sendTeam: int, kind: char,
                        time: int, seqno: int, seqid: int, seqLastId: int): (fs: seq<seq<char>>)
    ensures |fs| == 8
  {
    [Dec(recvId), Dec(sendId), Dec(sendTeam), [kind], Dec(time), Dec(seqno), Dec(seqid), Dec(seqLastId)]
  }

  /** The heading received in a pose record: whole degrees to radians. */
  function Radians(deg: int): real
  {
    deg as real * (Pi / 180.0)
  }

  /** The heading sent in a pose record: radians to whole degrees, truncated. */
  function Degrees(a: real): int
  {
    Trunc(a * (180.0 / Pi))
  }

  /** The fields after the data type: a record's values, and a sector's or a stream's first `size` raw bytes. */
  function RecordFields(p: Payload): seq<seq<char>>
    requires Sendable(p)
  {
    match p
    case PoseData(r) => [Dec(r.x), Dec(r.y), Dec(Degrees(r.a))]
    case VictimData(v) => [Dec(v.x), Dec(v.y), CStr(v.id)]
    case SectorData(s) => [Dec(s.num), Dec(s.size), Dec(s.timestamp), CharsOf(s.data[..s.size])]
    case CmdData(c) => [Dec(c.cmd)]
    case StreamData(s) => [Dec(s.counter), CharsOf(s.data[..s.size])]
  }

  /** The raw-byte records carry no more bytes than their buffers hold. */
  predicate Sendable(p: Payload)
  {
    (p.SectorData? ==> 0 <= p.sector.size <= |p.sector.data|) &&
    (p.StreamData? ==> 0 <= p.stream.size <= |p.stream.data|)
  }

  /**
   * protocol_encode: the header, and for a data frame `,data_type` and the
   * record's fields. The status is s_OK exactly for an ack or go-ahead
   * frame, which ends after the header, and for a data frame of a known
   * data type; otherwise it is s_ERROR and the frame holds what had been
   * written. The caller's `data_type` names the record it passes.
   */
  method Encode(recvId: int, sendId: int, sendTeam: int, kind: char, seqno: int, seqid: int, seqLastId: int,
                dataType: int, data: Payload, now: Timeval) returns (status: int, packet: seq<char>)
    requires kind == TypeData && 0 <= dataType <= 4 ==> TagOf(data) == dataType && Sendable(data)
    ensures status == Ok <==> kind == TypeAck || kind == TypeGoAhead || (kind == TypeData && 0 <= dataType <= 4)
    ensures status == Ok || status == Error
    ensures var h := HeaderFields(recvId, sendId, sendTeam, kind, Timestamp(now), seqno, seqid, seqLastId);
            packet == if kind != TypeData then Join(h)
                      else if status == Error then Join(h + [Dec(dataType)])
                      else Join(h + [Dec(dataType)] + RecordFields(data))
  {
    var timestamp := Timestamp(now);
    ghost var h := HeaderFields(recvId, sendId, sendTeam, kind, timestamp, seqno, seqid, seqLastId);
    packet := Dec(recvId) + [','] + Dec(sendId) + [','] + Dec(sendTeam) + [','] + [kind] + [','] +
              Dec(timestamp) + [','] + Dec(seqno) + [','] + Dec(seqid) + [','] + Dec(seqLastId);
    JoinHeader(h);
    if kind == TypeAck || kind == TypeGoAhead {
      return Ok, packet;
    } else if kind != TypeData {
      return Error, packet;
    }
    // each field below is appended as `,` and its text, and `fields` is what has been written
    ghost var fields := h;
    packet := packet + [','] + Dec(dataType);
    JoinSnoc(fields, Dec(dataType));
    fields := fields + [Dec(dataType)];
    if !(0 <= dataType <= 4) {
      return Error, packet;
    }
    packet := AppendRecord(packet, fields, dataType, data);
    status := Ok;
  }

  /**
   * The record fields of a data frame, appended one by one after the data
   * type as protocol_encode's switch on `data_type` writes them.
   */
  method AppendRecord(packet: seq<char>, ghost fields: seq<seq<char>>, dataType: int, data: Payload)
    returns (out: seq<char>)
    requires packet == Join(fields) && |fields| >= 1
    requires 0 <= dataType <= 4 && TagOf(data) == dataType && Sendable(data)
    ensures out == Join(fields + RecordFields(data))
  {
    if dataType == TagRobot {
      var r := data.robot;
      var deg := Degrees(r.a);
      out := AppendThree(packet, fields, Dec(r.x), Dec(r.y), Dec(deg));
      assert RecordFields(data) == [Dec(r.x), Dec(r.y), Dec(deg)];
    } else if dataType == TagVictim {
      var v := data.victim;
      out := AppendThree(packet, fields, Dec(v.x), Dec(v.y), CStr(v.id));
    } else if dataType == TagPheromone {
      var sec := data.sector;
      out := AppendThree(packet, fields, Dec(sec.num), Dec(sec.size), Dec(sec.timestamp));
      // the comma after the timestamp, then `size` raw bytes
      ghost var fs := fields + [Dec(sec.num), Dec(sec.size), Dec(sec.timestamp)];
      out := AppendOne(out, fs, CharsOf(sec.data[..sec.size]));
      assert fs + [CharsOf(sec.data[..sec.size])] == fields + RecordFields(data);
    } else if dataType == TagCmd {
      out := AppendOne(packet, fields, Dec(data.command.cmd));
    } else {
      var st := data.stream;
      out := AppendOne(packet, fields, Dec(st.counter));
      // the comma after the counter, then `size` raw bytes
      ghost var fs := fields + [Dec(st.counter)];
      out := AppendOne(out, fs, CharsOf(st.data[..st.size]));
      assert fs + [CharsOf(st.data[..st.size])] == fields + RecordFields(data);
    }
  }

  /** One more field: a comma and its text. */
  method AppendOne(packet: seq<char>, ghost fields: seq<seq<char>>, f: seq<char>) returns (out: seq<char>)
    requires packet == Join(fields) && |fields| >= 1
    ensures out == Join(fields + [f])
  {
    out := packet + [','] + f;
    JoinSnoc(fields, f);
  }

  /** Three more fields, each a comma and its text. */
  method AppendThree(packet: seq<char>, ghost fields: seq<seq<char>>, f1: seq<char>, f2: seq<char>, f3: seq<char>)
    returns (out: seq<char>)
    requires packet == Join(fields) && |fields| >= 1
    ensures out == Join(fields + [f1, f2, f3])
  {
    out := AppendOne(packet, fields, f1);
    out := AppendOne(out, fields + [f1], f2);
    out := AppendOne(out, fields + [f1] + [f2], f3);
    assert fields + [f1] + [f2] + [f3] == fields + [f1, f2, f3];
  }

  lemma JoinHeader(h: seq<seq<char>>)
    requires |h| == 8
    ensures Join(h) == h[0] + [','] + h[1] + [','] + h[2] + [','] + h[3] + [','] + h[4] + [','] + h[5] + [','] + h[6] + [','] + h[7]
  {
    assert Join(h[..1]) == h[0];
    JoinSnoc(h[..1], h[1]); assert h[..1] + [h[1]] == h[..2];
    JoinSnoc(h[..2], h[2]); assert h[..2] + [h[2]] == h[..3];
    JoinSnoc(h[..3], h[3]); assert h[..3] + [h[3]] == h[..4];
    JoinSnoc(h[..4], h[4]); assert h[..4] + [h[4]] == h[..5];
    JoinSnoc(h[..5], h[5]); assert h[..5] + [h[5]] == h[..6];
    JoinSnoc(h[..6], h[6]); assert h[..6] + [h[6]] == h[..7];
    JoinSnoc(h[..7], h[7]); assert h[..7] + [h[7]] == h;
  }

  lemma JoinSnoc(fs: seq<seq<char>>, f: seq<char>)
    requires |fs| >= 1
    ensures Join(fs + [f]) == Join(fs) + [','] + f
  {
    assert (fs + [f])[..|fs|] == fs;
  }

  // ---------------------------------------------------------------------
  // Decoding
  // ---------------------------------------------------------------------

  /** Why a received frame is dropped. */
  datatype Why =
    | SelfSent          // the receiving robot sent it
    | OtherTeam         // another team sent it, and the receiver's team is not 0
    | UnknownType       // the packet type is not 'a', 'd' or 'g'
    | UnknownDataType   // a data frame whose data type is not 0..4
    | MissingField      // strtok found no further field (the C code would pass NULL on)
    | BadSize           // a sector or stream size outside its buffer (the C memcpy would overrun)

  /** protocol_t: the header fields and, for a data frame, the data type and the record. */
  datatype Message = Message(
    recvId: int, sendId: int, sendTeam: int, kind: char,
    sendTime: int, seqno: int, seqid: int, seqLastId: int,
    dataType: Option<int>, data: Option<Payload>)

  datatype Decoded = Accepted(msg: Message) | Dropped(why: Why)

  /** The value a `char` holds after a `long` is stored in it (signed 8-bit wrap-around). */
  function SignedChar(v: int): (c: int)
    ensures -128 <= c < 128
    ensures -128 <= v < 128 ==> c == v
    ensures (c - v) % 256 == 0
  {
    (v + 128) % 256 - 128
  }

  /** n zero bytes: the part of a received buffer that no field fills. */
  function Zeros(n: nat): (z: seq<byte>)
    ensures |z| == n && forall k :: 0 <= k < n ==> z[k] == 0
  {
    seq(n, k => 0)
  }

  /**
   * The victim id a token leaves in `char id[11]` after an 11-byte memcpy
   * and `id[10] = 0`: the token itself, cut to its first 10 characters.
   */
  function VictimId(tok: seq<char>): (id: seq<char>)
    ensures |id| <= 10 && |id| <= |tok| && id == tok[..|id|]
    ensures |tok| <= 10 ==> id == tok
    ensures |tok| > 10 ==> |id| == 10
  {
    if |tok| <= 10 then tok else tok[..10]
  }

  /** Whether a frame from this sender and team reaches a robot with this id and team. */
  predicate Admitted(sendId: int, sendTeam: int, robotId: int, robotTeam: int)
  {
    sendId != robotId && (sendTeam == robotTeam || robotTeam == 0)
  }

  /**
   * What an accepted message promises: a known packet type, and a record
   * of the data type it announces exactly when it is a data frame.
   */
  predicate Coherent(m: Message)
  {
    m.kind in {TypeAck, TypeData, TypeGoAhead} &&
    (m.kind != TypeData ==> m.dataType.None? && m.data.None?) &&
    (m.kind == TypeData ==>
       m.dataType.Some? && 0 <= m.dataType.value <= 4 &&
       m.data.Some? && TagOf(m.data.value) == m.dataType.value && WellFormed(m.data.value))
  }

  /**
   * protocol_decode on the frame `s` received by robot `robotId` of team
   * `robotTeam`: the receiver id, the sender id (the robot's own frames
   * are dropped), the sender's team (other teams' frames are dropped
   * unless the robot's team is 0), then the rest of the header and the
   * record.
   */
  function Parse(s: seq<char>, robotId: int, robotTeam: int): (r: Decoded)
    ensures r.Accepted? ==> Admitted(r.msg.sendId, r.msg.sendTeam, robotId, robotTeam) && Coherent(r.msg)
  {
    match Field(s)
    case None => Dropped(MissingField)
    case Some((recvId, r1)) =>
      match Field(r1)
      case None => Dropped(MissingField)
      case Some((sendId, r2)) =>
        if sendId == robotId then Dropped(SelfSent)
        else match Field(r2)
        case None => Dropped(MissingField)
        case Some((sendTeam, r3)) =>
          if sendTeam != robotTeam && robotTeam != 0 then Dropped(OtherTeam)
          else ParseKind(r3, Message(recvId, sendId, sendTeam, Nul, 0, 0, 0, 0, None, None))
  }

  /** The packet type, which `memcpy` takes as the first character of its field, then the rest of the header. */
  function ParseKind(s: seq<char>, head: Message): (r: Decoded)
    ensures r.Accepted? ==>
              r.msg.recvId == head.recvId && r.msg.sendId == head.sendId && r.msg.sendTeam == head.sendTeam &&
              Coherent(r.msg)
  {
    match StrTok(s, Comma)
    case None => Dropped(MissingField)
    case Some((t, rest)) => ParseStamps(rest, head.(kind := t[0]))
  }

  /**
   * The timestamp, sequence number, sequence id and last sequence id,
   * then nothing more for an ack or go-ahead frame and the data type and
   * record for a data frame.
   */
  function ParseStamps(s: seq<char>, head: Message): (r: Decoded)
    ensures r.Accepted? ==>
              r.msg.recvId == head.recvId && r.msg.sendId == head.sendId && r.msg.sendTeam == head.sendTeam &&
              r.msg.kind == head.kind && Coherent(r.msg)
  {
    match Field(s)
    case None => Dropped(MissingField)
    case Some((sendTime, r1)) =>
      match Field(r1)
      case None => Dropped(MissingField)
      case Some((seqno, r2)) =>
        match Field(r2)
        case None => Dropped(MissingField)
        case Some((seqid, r3)) =>
          match Field(r3)
          case None => Dropped(MissingField)
          case Some((seqLastId, rest)) =>
            var header := head.(sendTime := sendTime, seqno := seqno, seqid := seqid, seqLastId := seqLastId,
                                dataType := None, data := None);
            if head.kind == TypeAck || head.kind == TypeGoAhead then Accepted(header)
            else if head.kind == TypeData then ParseData(rest, header)
            else Dropped(UnknownType)
  }

  /** A record read from the fields after the data type, or why it could not be. */
  datatype Read = Got(p: Payload) | Failed(why: Why)

  /** The data type, stored in a `char`, and the record of a data frame; an unknown data type is refused. */
  function ParseData(s: seq<char>, header: Message): (r: Decoded)
    ensures r.Accepted? ==>
              r.msg == header.(dataType := r.msg.dataType, data := r.msg.data) &&
              r.msg.dataType.Some? && 0 <= r.msg.dataType.value <= 4 &&
              r.msg.data.Some? && TagOf(r.msg.data.value) == r.msg.dataType.value &&
              WellFormed(r.msg.data.value)
  {
    match Field(s)
    case None => Dropped(MissingField)
    case Some((v, rest)) =>
      var dt := SignedChar(v);
      if !(0 <= dt <= 4) then Dropped(UnknownDataType)
      else match ReadRecord(dt, rest)
      case Failed(why) => Dropped(why)
      case Got(p) => Accepted(header.(dataType := Some(dt), data := Some(p)))
  }

  /** The record of data type `dt` (0..4) from the fields that follow the data type. */
  function ReadRecord(dt: int, s: seq<char>): (r: Read)
    requires 0 <= dt <= 4
    ensures r.Got? ==> TagOf(r.p) == dt && WellFormed(r.p)
  {
    if dt == TagRobot then ReadPose(s)
    else if dt == TagVictim then ReadVictim(s)
    else if dt == TagPheromone then ReadSector(s)
    else if dt == TagCmd then ReadCommand(s)
    else ReadStream(s)
  }

  /** A pose: x, y and the heading in whole degrees, turned into radians; the other robot_t fields are not sent. */
  function ReadPose(s: seq<char>): (r: Read)
    ensures r.Got? ==> r.p.PoseData?
  {
    match Field(s)
    case None => Failed(MissingField)
    case Some((x, r1)) =>
      match Field(r1)
      case None => Failed(MissingField)
      case Some((y, r2)) =>
        match Field(r2)
        case None => Failed(MissingField)
        case Some((deg, _)) => Got(PoseData(Robot(x, y, Radians(deg), 0.0, 0, 0.0, 0, 0, 0, 0)))
  }

  /** A victim: x, y, and at most the first 10 characters of the id field. */
  function ReadVictim(s: seq<char>): (r: Read)
    ensures r.Got? ==> r.p.VictimData? && |r.p.victim.id| <= 10
  {
    match Field(s)
    case None => Failed(MissingField)
    case Some((x, r1)) =>
      match Field(r1)
      case None => Failed(MissingField)
      case Some((y, r2)) =>
        match StrTok(r2, Comma)
        case None => Failed(MissingField)
        case Some((id, _)) => Got(VictimData(Victim(x, y, VictimId(id))))
  }

  /** A pheromone sector: number, size, timestamp, then `size` raw bytes. */
  function ReadSector(s: seq<char>): (r: Read)
    ensures r.Got? ==> r.p.SectorData? && |r.p.sector.data| == SectorMaxSize
    ensures r.Got? ==> 0 <= r.p.sector.size <= SectorMaxSize
  {
    match Field(s)
    case None => Failed(MissingField)
    case Some((num, r1)) =>
      match Field(r1)
      case None => Failed(MissingField)
      case Some((size, r2)) =>
        match Field(r2)
        case None => Failed(MissingField)
        case Some((stamp, rest)) => SectorBytes(num, size, stamp, rest)
  }

  /** The raw bytes of a sector whose size field has been read; a size beyond the buffer is refused. */
  function SectorBytes(num: int, size: int, stamp: int, s: seq<char>): (r: Read)
    ensures r.Got? ==> r.p.SectorData? && |r.p.sector.data| == SectorMaxSize
    ensures r.Got? ==> r.p.sector.size == size && 0 <= size <= SectorMaxSize
    ensures !(0 <= size <= SectorMaxSize) ==> r == Failed(BadSize)
  {
    if !(0 <= size <= SectorMaxSize) then Failed(BadSize)
    else match TokenBytes(s, Comma, size)
    case None => Failed(MissingField)
    case Some(b) => Got(SectorData(Sector(num, size, stamp, b + Zeros(SectorMaxSize - size))))
  }

  /** A command: one field, which may also end at a space. */
  function ReadCommand(s: seq<char>): (r: Read)
    ensures r.Got? ==> r.p.CmdData?
  {
    match StrTok(s, CmdDelims)
    case None => Failed(MissingField)
    case Some((c, _)) => Got(CmdData(Command(StrTol(c))))
  }

  /** A stream record: counter, size, then `size` raw bytes. */
  function ReadStream(s: seq<char>): (r: Read)
    ensures r.Got? ==> r.p.StreamData? && |r.p.stream.data| == StreamSize
    ensures r.Got? ==> 0 <= r.p.stream.size <= StreamSize
  {
    match Field(s)
    case None => Failed(MissingField)
    case Some((counter, r1)) =>
      match Field(r1)
      case None => Failed(MissingField)
      case Some((size, rest)) => StreamBytes(counter, size, rest)
  }

  /** The raw bytes of a stream record whose size field has been read; a size beyond the buffer is refused. */
  function StreamBytes(counter: int, size: int, s: seq<char>): (r: Read)
    ensures r.Got? ==> r.p.StreamData? && |r.p.stream.data| == StreamSize
    ensures r.Got? ==> r.p.stream.size == size && 0 <= size <= StreamSize
    ensures !(0 <= size <= StreamSize) ==> r == Failed(BadSize)
  {
    if !(0 <= size <= StreamSize) then Failed(BadSize)
    else match TokenBytes(s, Comma, size)
    case None => Failed(MissingField)
    case Some(b) => Got(StreamData(Stream(counter, size, b + Zeros(StreamSize - size))))
  }

  /**
   * protocol_decode, field by field: each strtok call takes the next
   * field and each value is stored as it is read; the sender and team
   * filters return as soon as their field is read. The status is s_OK
   * exactly when Parse accepts the frame, and the message is then the one
   * Parse reads.
   */
  method Decode(udp: seq<char>, robotId: int, robotTeam: int) returns (status: int, packet: Message)
    ensures status == Ok || status == Error
    ensures status == Ok <==> Parse(udp, robotId, robotTeam).Accepted?
    ensures status == Ok ==> packet == Parse(udp, robotId, robotTeam).msg
  {
    status, packet := Error, Message(0, 0, 0, Nul, 0, 0, 0, 0, None, None);
    var f := Field(udp);
    if f.None? {
      return;
    }
    packet := packet.(recvId := f.value.0);
    f := Field(f.value.1);
    if f.None? {
      return;
    }
    packet := packet.(sendId := f.value.0);
    if packet.sendId == robotId {
      return;
    }
    f := Field(f.value.1);
    if f.None? {
      return;
    }
    packet := packet.(sendTeam := f.value.0);
    if packet.sendTeam != robotTeam && robotTeam != 0 {
      return;
    }
    assert Parse(udp, robotId, robotTeam) == ParseKind(f.value.1, packet);
    var t := StrTok(f.value.1, Comma);
    if t.None? {
      return;
    }
    packet := packet.(kind := t.value.0[0]);
    status, packet := DecodeStamps(t.value.1, packet);
  }

  /** The four remaining header fields, then the data type and record of a data frame. */
  method DecodeStamps(s: seq<char>, head: Message) returns (status: int, packet: Message)
    requires head.dataType.None? && head.data.None?
    ensures status == Ok || status == Error
    ensures (status == Ok <==> ParseStamps(s, head).Accepted?) && (status == Ok ==> packet == ParseStamps(s, head).msg)
  {
    status, packet := Error, head;
    var f := Field(s);
    if f.None? {
      return;
    }
    packet := packet.(sendTime := f.value.0);
    f := Field(f.value.1);
    if f.None? {
      return;
    }
    packet := packet.(seqno := f.value.0);
    f := Field(f.value.1);
    if f.None? {
      return;
    }
    packet := packet.(seqid := f.value.0);
    f := Field(f.value.1);
    if f.None? {
      return;
    }
    packet := packet.(seqLastId := f.value.0);
    if packet.kind == TypeAck || packet.kind == TypeGoAhead {
      status := Ok;
    } else if packet.kind == TypeData {
      status, packet := DecodeData(f.value.1, packet);
    }
  }

  /** The data type field, then the record of that type; an unknown data type is an error. */
  method DecodeData(s: seq<char>, header: Message) returns (status: int, packet: Message)
    ensures status == Ok || status == Error
    ensures (status == Ok <==> ParseData(s, header).Accepted?) && (status == Ok ==> packet == ParseData(s, header).msg)
  {
    status, packet := Error, header;
    var f := Field(s);
    if f.None? {
      return;
    }
    var dt := SignedChar(f.value.0);
    packet := packet.(dataType := Some(dt));
    if !(0 <= dt <= 4) {
      return;
    }
    var r := DecodeRecord(dt, f.value.1);
    if r.Got? {
      status, packet := Ok, packet.(data := Some(r.p));
    }
  }

  /** The fields of a record of data type `dt`, each taken with strtok as it is stored. */
  method DecodeRecord(dt: int, s: seq<char>) returns (r: Read)
    requires 0 <= dt <= 4
    ensures r == ReadRecord(dt, s)
  {
    if dt == TagRobot {
      r := DecodePose(s);
    } else if dt == TagVictim {
      r := DecodeVictim(s);
    } else if dt == TagPheromone {
      r := DecodeSector(s);
    } else if dt == TagCmd {
      var t := StrTok(s, CmdDelims);
      r := if t.Some? then Got(CmdData(Command(StrTol(t.value.0)))) else Failed(MissingField);
    } else {
      r := DecodeStream(s);
    }
  }

  method DecodePose(s: seq<char>) returns (r: Read)
    ensures r == ReadPose(s)
  {
    r := Failed(MissingField);
    var f := Field(s);
    if f.None? {
      return;
    }
    var x := f.value.0;
    f := Field(f.value.1);
    if f.None? {
      return;
    }
    var y := f.value.0;
    f := Field(f.value.1);
    if f.None? {
      return;
    }
    r := Got(PoseData(Robot(x, y, Radians(f.value.0), 0.0, 0, 0.0, 0, 0, 0, 0)));
  }

  method DecodeVictim(s: seq<char>) returns (r: Read)
    ensures r == ReadVictim(s)
  {
    r := Failed(MissingField);
    var f := Field(s);
    if f.None? {
      return;
    }
    var x := f.value.0;
    f := Field(f.value.1);
    if f.None? {
      return;
    }
    var y := f.value.0;
    var t := StrTok(f.value.1, Comma);
    if t.None? {
      return;
    }
    var id := t.value.0;
    r := Got(VictimData(Victim(x, y, VictimId(id))));
  }

  method DecodeSector(s: seq<char>) returns (r: Read)
    ensures r == ReadSector(s)
  {
    r := Failed(MissingField);
    var f := Field(s);
    if f.None? {
      return;
    }
    var num := f.value.0;
    f := Field(f.value.1);
    if f.None? {
      return;
    }
    var size := f.value.0;
    f := Field(f.value.1);
    if f.None? {
      return;
    }
    var stamp := f.value.0;
    if !(0 <= size <= SectorMaxSize) {
      r := Failed(BadSize);
      return;
    }
    var b := TokenBytes(f.value.1, Comma, size);
    if b.Some? {
      r := Got(SectorData(Sector(num, size, stamp, b.value + Zeros(SectorMaxSize - size))));
    }
  }

  method DecodeStream(s: seq<char>) returns (r: Read)
    ensures r == ReadStream(s)
  {
    r := Failed(MissingField);
    var f := Field(s);
    if f.None? {
      return;
    }
    var counter := f.value.0;
    f := Field(f.value.1);
    if f.None? {
      return;
    }
    var size := f.value.0;
    if !(0 <= size <= StreamSize) {
      r := Failed(BadSize);
      return;
    }
    var b := TokenBytes(f.value.1, Comma, size);
    if b.Some? {
      r := Got(StreamData(Stream(counter, size, b.value + Zeros(StreamSize - size))));
    }
  }

  // ---------------------------------------------------------------------
  // Encoding and decoding together
  // ---------------------------------------------------------------------

  /** The header fields of a message, as the encoder writes them. */
  function Header(m: Message): (fs: seq<seq<char>>)
    ensures |fs| == 8 && fs[3] == [m.kind]
  {
    HeaderFields(m.recvId, m.sendId, m.sendTeam, m.kind, m.sendTime, m.seqno, m.seqid, m.seqLastId)
  }

  /**
   * A frame whose header the encoder wrote, followed by the fields
   * `more`, is filtered by its sender and team and then read by its
   * packet type.
   */
  lemma ParseHeader(m: Message, more: seq<seq<char>>, robotId: int, robotTeam: int)
    requires m.kind != ',' && m.kind != Nul
    ensures var head := m.(dataType := None, data := None);
            Parse(Join(Header(m) + more), robotId, robotTeam) ==
              if m.sendId == robotId then Dropped(SelfSent)
              else if m.sendTeam != robotTeam && robotTeam != 0 then Dropped(OtherTeam)
              else if m.kind == TypeAck || m.kind == TypeGoAhead then Accepted(head)
              else if m.kind == TypeData then ParseData(Join(more), head)
              else Dropped(UnknownType)
  {
    var fs := Header(m) + more;
    HeaderAt(m, more);
    ParseIds(fs, m, robotId, robotTeam);
    if m.sendId != robotId && (m.sendTeam == robotTeam || robotTeam == 0) {
      var head0 := Message(m.recvId, m.sendId, m.sendTeam, Nul, 0, 0, 0, 0, None, None);
      ParseKindAt(fs, head0, m.kind);
      ParseStampsAt(fs, head0.(kind := m.kind), m, more);
    }
  }

  lemma HeaderAt(m: Message, more: seq<seq<char>>)
    ensures var fs := Header(m) + more;
            |fs| >= 8 && fs[8..] == more &&
            fs[0] == Dec(m.recvId) && fs[1] == Dec(m.sendId) && fs[2] == Dec(m.sendTeam) && fs[3] == [m.kind] &&
            fs[4] == Dec(m.sendTime) && fs[5] == Dec(m.seqno) && fs[6] == Dec(m.seqid) && fs[7] == Dec(m.seqLastId)
  {
  }

  /** The packet type field of an encoded header. */
  lemma ParseKindAt(fs: seq<seq<char>>, head: Message, kind: char)
    requires |fs| >= 4 && fs[3] == [kind] && kind != ',' && kind != Nul
    ensures ParseKind(Join(fs[3..]), head) == ParseStamps(Join(fs[4..]), head.(kind := kind))
  {
    TokAt(fs, 3, Comma);
    assert [kind][0] == kind;
  }

  /** The ids and the team of an encoded header, and the filters on them. */
  lemma ParseIds(fs: seq<seq<char>>, m: Message, robotId: int, robotTeam: int)
    requires |fs| >= 4 && fs[0] == Dec(m.recvId) && fs[1] == Dec(m.sendId) && fs[2] == Dec(m.sendTeam)
    ensures Parse(Join(fs), robotId, robotTeam) ==
              if m.sendId == robotId then Dropped(SelfSent)
              else if m.sendTeam != robotTeam && robotTeam != 0 then Dropped(OtherTeam)
              else ParseKind(Join(fs[3..]), Message(m.recvId, m.sendId, m.sendTeam, Nul, 0, 0, 0, 0, None, None))
  {
    IdFields(fs, m.recvId, m.sendId, m.sendTeam);
    ParseIdsStep(Join(fs), m.recvId, Join(fs[1..]), m.sendId, Join(fs[2..]), m.sendTeam, Join(fs[3..]), robotId, robotTeam);
  }

  lemma IdFields(fs: seq<seq<char>>, recvId: int, sendId: int, sendTeam: int)
    requires |fs| >= 4 && fs[0] == Dec(recvId) && fs[1] == Dec(sendId) && fs[2] == Dec(sendTeam)
    ensures Field(Join(fs)) == Some((recvId, Join(fs[1..])))
    ensures Field(Join(fs[1..])) == Some((sendId, Join(fs[2..])))
    ensures Field(Join(fs[2..])) == Some((sendTeam, Join(fs[3..])))
  {
    FieldFirst(fs, recvId);
    FieldThen(fs, 1, 2, sendId);
    FieldThen(fs, 2, 3, sendTeam);
  }

  lemma ParseIdsStep(s: seq<char>, recvId: int, r1: seq<char>, sendId: int, r2: seq<char>, sendTeam: int, r3: seq<char>,
                     robotId: int, robotTeam: int)
    requires Field(s) == Some((recvId, r1)) && Field(r1) == Some((sendId, r2)) && Field(r2) == Some((sendTeam, r3))
    ensures Parse(s, robotId, robotTeam) ==
              if sendId == robotId then Dropped(SelfSent)
              else if sendTeam != robotTeam && robotTeam != 0 then Dropped(OtherTeam)
              else ParseKind(r3, Message(recvId, sendId, sendTeam, Nul, 0, 0, 0, 0, None, None))
  {
  }

  /** The four stamps of an encoded header, then the dispatch on its packet type. */
  lemma ParseStampsAt(fs: seq<seq<char>>, head1: Message, m: Message, more: seq<seq<char>>)
    requires |fs| >= 8 && fs[8..] == more
    requires fs[4] == Dec(m.sendTime) && fs[5] == Dec(m.seqno) && fs[6] == Dec(m.seqid) && fs[7] == Dec(m.seqLastId)
    requires head1 == Message(m.recvId, m.sendId, m.sendTeam, m.kind, 0, 0, 0, 0, None, None)
    ensures ParseStamps(Join(fs[4..]), head1) ==
              if m.kind == TypeAck || m.kind == TypeGoAhead then Accepted(m.(dataType := None, data := None))
              else if m.kind == TypeData then ParseData(Join(more), m.(dataType := None, data := None))
              else Dropped(UnknownType)
  {
    FieldThen(fs, 4, 5, m.sendTime);
    FieldThen(fs, 5, 6, m.seqno);
    FieldThen(fs, 6, 7, m.seqid);
    FieldThen(fs, 7, 8, m.seqLastId);
  }

  /** A frame the robot sent itself is dropped when it comes back, whatever follows its header. */
  lemma DropsOwnFrames(m: Message, more: seq<seq<char>>, robotTeam: int)
    requires m.kind != ',' && m.kind != Nul
    ensures Parse(Join(Header(m) + more), m.sendId, robotTeam) == Dropped(SelfSent)
  {
    ParseHeader(m, more, m.sendId, robotTeam);
  }

  /** A frame from another robot of another team is dropped unless the receiver's team is 0. */
  lemma DropsOtherTeams(m: Message, more: seq<seq<char>>, robotId: int, robotTeam: int)
    requires m.kind != ',' && m.kind != Nul
    requires m.sendId != robotId && m.sendTeam != robotTeam && robotTeam != 0
    ensures Parse(Join(Header(m) + more), robotId, robotTeam) == Dropped(OtherTeam)
  {
    ParseHeader(m, more, robotId, robotTeam);
  }

  /** An ack or go-ahead frame from an admitted sender decodes to the message it was encoded from. */
  lemma HeaderRoundTrip(m: Message, robotId: int, robotTeam: int)
    requires m.kind == TypeAck || m.kind == TypeGoAhead
    requires m.dataType.None? && m.data.None?
    requires Admitted(m.sendId, m.sendTeam, robotId, robotTeam)
    ensures Parse(Join(Header(m)), robotId, robotTeam) == Accepted(m)
  {
    ParseHeader(m, [], robotId, robotTeam);
    assert Header(m) + [] == Header(m);
  }

  /** A data frame from an admitted sender, with `fs` the record's fields after the data type. */
  lemma ParseDataFrame(m: Message, dt: int, fs: seq<seq<char>>, robotId: int, robotTeam: int)
    requires m.kind == TypeData && 0 <= dt <= 4
    requires Admitted(m.sendId, m.sendTeam, robotId, robotTeam)
    ensures Parse(Join(Header(m) + [Dec(dt)] + fs), robotId, robotTeam) ==
              match ReadRecord(dt, Join(fs))
              case Failed(why) => Dropped(why)
              case Got(p) => Accepted(m.(dataType := Some(dt), data := Some(p)))
  {
    var more := [Dec(dt)] + fs;
    assert Header(m) + [Dec(dt)] + fs == Header(m) + more;
    ParseHeader(m, more, robotId, robotTeam);
    assert more[1..] == fs;
    FieldFirst(more, dt);
    ParseDataAt(Join(more), dt, Join(fs), m.(dataType := None, data := None));
  }

  /** ParseData on a string whose first field is the data type `dt`. */
  lemma ParseDataAt(s: seq<char>, dt: int, rest: seq<char>, head: Message)
    requires Field(s) == Some((dt, rest)) && 0 <= dt <= 4
    ensures ParseData(s, head) ==
              match ReadRecord(dt, rest)
              case Failed(why) => Dropped(why)
              case Got(p) => Accepted(head.(dataType := Some(dt), data := Some(p)))
  {
  }

  /** A pose decodes to its x and y, and to its heading truncated to whole degrees and turned back into radians. */
  lemma PoseRoundTrip(m: Message, r: Robot, robotId: int, robotTeam: int)
    requires m.kind == TypeData && Admitted(m.sendId, m.sendTeam, robotId, robotTeam)
    ensures Parse(Join(Header(m) + [Dec(TagRobot)] + RecordFields(PoseData(r))), robotId, robotTeam) ==
              Accepted(m.(dataType := Some(TagRobot),
                          data := Some(PoseData(Robot(r.x, r.y, Radians(Degrees(r.a)), 0.0, 0, 0.0, 0, 0, 0, 0)))))
  {
    var fs := RecordFields(PoseData(r));
    ParseDataFrame(m, TagRobot, fs, robotId, robotTeam);
    ReadPoseFields(r);
  }

  lemma ReadPoseFields(r: Robot)
    ensures ReadPose(Join(RecordFields(PoseData(r)))) ==
              Got(PoseData(Robot(r.x, r.y, Radians(Degrees(r.a)), 0.0, 0, 0.0, 0, 0, 0, 0)))
  {
    var deg := Degrees(r.a);
    assert RecordFields(PoseData(r)) == [Dec(r.x), Dec(r.y), Dec(deg)];
    ReadPoseOf(r.x, r.y, deg);
  }

  lemma ReadPoseOf(x: int, y: int, deg: int)
    ensures ReadPose(Join([Dec(x), Dec(y), Dec(deg)])) == Got(PoseData(Robot(x, y, Radians(deg), 0.0, 0, 0.0, 0, 0, 0, 0)))
  {
    var fs := [Dec(x), Dec(y), Dec(deg)];
    FieldFirst(fs, x);
    FieldThen(fs, 1, 2, y);
    FieldThen(fs, 2, 3, deg);
    ReadPoseStep(Join(fs), x, Join(fs[1..]), y, Join(fs[2..]), deg, Join(fs[3..]));
  }

  lemma ReadPoseStep(s: seq<char>, x: int, r1: seq<char>, y: int, r2: seq<char>, deg: int, rest: seq<char>)
    requires Field(s) == Some((x, r1)) && Field(r1) == Some((y, r2)) && Field(r2) == Some((deg, rest))
    ensures ReadPose(s) == Got(PoseData(Robot(x, y, Radians(deg), 0.0, 0, 0.0, 0, 0, 0, 0)))
  {
  }

  /** A victim whose id has 1 to 10 characters and no comma decodes to the victim encoded. */
  lemma VictimRoundTrip(m: Message, v: Victim, robotId: int, robotTeam: int)
    requires m.kind == TypeData && Admitted(m.sendId, m.sendTeam, robotId, robotTeam)
    requires 1 <= |v.id| <= 10 && FieldText(v.id, Comma)
    ensures Parse(Join(Header(m) + [Dec(TagVictim)] + RecordFields(VictimData(v))), robotId, robotTeam) ==
              Accepted(m.(dataType := Some(TagVictim), data := Some(VictimData(v))))
  {
    ParseDataFrame(m, TagVictim, RecordFields(VictimData(v)), robotId, robotTeam);
    ReadVictimFields(v);
  }

  lemma ReadVictimFields(v: Victim)
    requires 1 <= |v.id| <= 10 && FieldText(v.id, Comma)
    ensures ReadVictim(Join(RecordFields(VictimData(v)))) == Got(VictimData(v))
  {
    CStrNulFree(v.id);
    assert RecordFields(VictimData(v)) == [Dec(v.x), Dec(v.y), v.id];
    ReadVictimOf(v.x, v.y, v.id);
  }

  lemma ReadVictimOf(x: int, y: int, id: seq<char>)
    requires FieldText(id, Comma)
    ensures ReadVictim(Join([Dec(x), Dec(y), id])) == Got(VictimData(Victim(x, y, VictimId(id))))
  {
    var fs := [Dec(x), Dec(y), id];
    FieldFirst(fs, x);
    FieldThen(fs, 1, 2, y);
    TokAt(fs, 2, Comma);
    ReadVictimStep(Join(fs), x, Join(fs[1..]), y, Join(fs[2..]), id, Join(fs[3..]));
  }

  lemma ReadVictimStep(s: seq<char>, x: int, r1: seq<char>, y: int, r2: seq<char>, id: seq<char>, rest: seq<char>)
    requires Field(s) == Some((x, r1)) && Field(r1) == Some((y, r2)) && StrTok(r2, Comma) == Some((id, rest))
    ensures ReadVictim(s) == Got(VictimData(Victim(x, y, VictimId(id))))
  {
  }

  /** A command decodes to the command encoded. */
  lemma CommandRoundTrip(m: Message, c: Command, robotId: int, robotTeam: int)
    requires m.kind == TypeData && Admitted(m.sendId, m.sendTeam, robotId, robotTeam)
    ensures Parse(Join(Header(m) + [Dec(TagCmd)] + RecordFields(CmdData(c))), robotId, robotTeam) ==
              Accepted(m.(dataType := Some(TagCmd), data := Some(CmdData(c))))
  {
    ParseDataFrame(m, TagCmd, [Dec(c.cmd)], robotId, robotTeam);
    DecIsField(c.cmd, CmdDelims);
    StrTokLast(Dec(c.cmd), CmdDelims);
    StrTolDec(c.cmd);
  }

  /**
   * A pheromone sector of 1 to 200 bytes, none of them 0 or a comma,
   * decodes to the sector encoded, its first `size` bytes in place and the
   * rest of the buffer 0.
   */
  lemma SectorRoundTrip(m: Message, s: Sector, robotId: int, robotTeam: int)
    requires m.kind == TypeData && Admitted(m.sendId, m.sendTeam, robotId, robotTeam)
    requires 1 <= s.size <= SectorMaxSize == |s.data|
    requires forall k :: 0 <= k < s.size ==> s.data[k] != 0 && s.data[k] != 44
    ensures Parse(Join(Header(m) + [Dec(TagPheromone)] + RecordFields(SectorData(s))), robotId, robotTeam) ==
              Accepted(m.(dataType := Some(TagPheromone),
                          data := Some(SectorData(s.(data := s.data[..s.size] + Zeros(SectorMaxSize - s.size))))))
  {
    var fs := RecordFields(SectorData(s));
    ParseDataFrame(m, TagPheromone, fs, robotId, robotTeam);
    FieldFirst(fs, s.num);
    FieldThen(fs, 1, 2, s.size);
    FieldThen(fs, 2, 3, s.timestamp);
    RawField(s.data[..s.size]);
    assert fs[3..] == [CharsOf(s.data[..s.size])];
  }

  /** Raw bytes none of which is 0 or a comma form one field, which memcpy reads back whole. */
  lemma RawField(b: seq<byte>)
    requires |b| >= 1 && forall k :: 0 <= k < |b| ==> b[k] != 0 && b[k] != 44
    ensures FieldText(CharsOf(b), Comma)
    ensures TokenBytes(CharsOf(b), Comma, |b|) == Some(b)
  {
    var raw := CharsOf(b);
    forall k | 0 <= k < |raw|
      ensures raw[k] !in Comma && raw[k] != Nul
    {
      assert ByteOf(raw[k]) == b[k];
    }
    TokenBytesLast(raw, Comma);
    assert BytesOf(raw) == b;
  }
}
