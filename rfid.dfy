// The RFID reader's tag-frame recogniser of rfid.c (rfid_read).
//
// The reader sends a tag as a newline, ten characters and a carriage
// return. rfid_read first waits up to 10 ms for a byte; `ready` says
// whether one came. It then reads one byte at a time until the serial
// read returns nothing more; `bytes` is what those reads returned.
//
// rfid_read as written has two defects in how it counts (see the
// findings in README.md): a newline resets the byte count but not the
// position the next byte is stored at, and the count starts
// uninitialised. `ScanAsWritten` models the loop as written; `Scan` is the
// recogniser with both corrected, and `Reader.Read` implements it.

module Rfid {
  import opened General
  import opened Records
  import opened Text

  /** The size of rfid_read's local buffer. */
  const BufferSize: int := 32

  /** How a read ends. */
  datatype Outcome =
    | Complete(id: seq<char>)  // a carriage return after exactly ten collected bytes
    | Stopped                  // a data byte arrived with eleven already collected
    | Exhausted                // the serial read returned nothing more
    | Overrun                  // a byte would be stored past the end of the buffer

  /** A byte that is collected rather than acted on. */
  predicate DataByte(c: char)
  {
    c != '\n' && c != '\r'
  }

  /**
   * The corrected recogniser, with `got` the bytes collected since the
   * last newline (the count and the store position are both |got|): a
   * newline starts over, a carriage return after ten bytes completes with
   * the C string they form, a carriage return after any other count is
   * skipped, and a twelfth data byte stops the read.
   */
  function Scan(bytes: seq<char>, got: seq<char>): (r: Outcome)
    requires |got| <= 11
    ensures r.Complete? ==> |r.id| <= 10 && Nul !in r.id
    ensures r != Overrun
    decreases |bytes|
  {
    if bytes == [] then Exhausted
    else if bytes[0] == '\n' then Scan(bytes[1..], [])
    else if bytes[0] == '\r' then
      if |got| == 10 then Complete(CStr(got)) else Scan(bytes[1..], got)
    else if |got| < 11 then Scan(bytes[1..], got + [bytes[0]])
    else Stopped
  }

  /** Data bytes are collected one after another while fewer than twelve have come. */
  lemma {:induction false} ScanCollect(s: seq<char>, rest: seq<char>, got: seq<char>)
    requires |got| + |s| <= 11
    requires forall k :: 0 <= k < |s| ==> DataByte(s[k])
    ensures Scan(s + rest, got) == Scan(rest, got + s)
    decreases |s|
  {
    if s == [] {
      assert s + rest == rest && got + s == got;
    } else {
      assert (s + rest)[0] == s[0];
      assert (s + rest)[1..] == s[1..] + rest;
      ScanCollect(s[1..], rest, got + [s[0]]);
      assert got + [s[0]] + s[1..] == got + s;
    }
  }

  /** A newline, ten data bytes and a carriage return complete the read with those ten characters, whatever came before. */
  lemma ScanFrame(tag: seq<char>, rest: seq<char>, got: seq<char>)
    requires |got| <= 11 && |tag| == 10 && Nul !in tag
    requires forall k :: 0 <= k < |tag| ==> DataByte(tag[k])
    ensures Scan(['\n'] + tag + ['\r'] + rest, got) == Complete(tag)
  {
    var s := ['\n'] + tag + ['\r'] + rest;
    assert s[0] == '\n' && s[1..] == tag + (['\r'] + rest);
    ScanCollect(tag, ['\r'] + rest, []);
    assert [] + tag == tag;
    CStrNulFree(tag);
  }

  /** Twelve data bytes in a row after a newline stop the read. */
  lemma TwelveDataBytesStop(s: seq<char>, rest: seq<char>)
    requires |s| == 12
    requires forall k :: 0 <= k < |s| ==> DataByte(s[k])
    ensures Scan(s + rest, []) == Stopped
  {
    assert s + rest == s[..11] + ([s[11]] + rest);
    ScanCollect(s[..11], [s[11]] + rest, []);
    assert ([s[11]] + rest)[0] == s[11];
  }

  /** A carriage return after a count other than ten is passed over. */
  lemma ShortFrameSkipped(s: seq<char>, got: seq<char>)
    requires |got| <= 11 && |got| != 10
    ensures Scan(['\r'] + s, got) == Scan(s, got)
  {
    assert (['\r'] + s)[1..] == s;
  }

  // ---------------------------------------------------------------------
  // The loop as written
  // ---------------------------------------------------------------------

  /**
   * rfid_read's loop as written: every byte is first stored at `pos`; a
   * newline sets the count to 0 but leaves `pos`; a carriage return is
   * overwritten by a NUL and completes when the count is 10, copying the
   * first eleven buffer bytes; a data byte advances count and position
   * while the count is below 11. `count` starts as whatever the
   * uninitialised variable held.
   */
  function ScanAsWritten(bytes: seq<char>, count: int, pos: nat, buf: seq<char>): (r: Outcome)
    requires |buf| == BufferSize
    ensures r.Complete? ==> |r.id| <= 11 && Nul !in r.id
    decreases |bytes|
  {
    if bytes == [] then Exhausted
    else if pos >= BufferSize then Overrun
    else
      var stored := buf[pos := bytes[0]];
      if bytes[0] == '\n' then ScanAsWritten(bytes[1..], 0, pos, stored)
      else if bytes[0] == '\r' then
        var ended := buf[pos := Nul];
        if count == 10 then Complete(CStr(ended[..11])) else ScanAsWritten(bytes[1..], count, pos, ended)
      else if count < 11 then ScanAsWritten(bytes[1..], count + 1, pos + 1, stored)
      else Stopped
  }

  /** The buffer after `s` is stored from position `pos` on. */
  function Store(buf: seq<char>, pos: nat, s: seq<char>): (b: seq<char>)
    requires pos + |s| <= |buf|
    ensures |b| == |buf| && b[pos..pos + |s|] == s
  {
    buf[..pos] + s + buf[pos + |s|..]
  }

  /** Data bytes that fit are stored one after another, each advancing the count and the position. */
  lemma {:induction false} DataRun(s: seq<char>, rest: seq<char>, count: int, pos: nat, buf: seq<char>)
    requires |buf| == BufferSize && pos + |s| <= BufferSize && count + |s| <= 11
    requires forall k :: 0 <= k < |s| ==> DataByte(s[k])
    ensures ScanAsWritten(s + rest, count, pos, buf) == ScanAsWritten(rest, count + |s|, pos + |s|, Store(buf, pos, s))
    decreases |s|
  {
    if s == [] {
      assert s + rest == rest;
      assert Store(buf, pos, s) == buf;
    } else {
      assert (s + rest)[0] == s[0] && (s + rest)[1..] == s[1..] + rest;
      DataRun(s[1..], rest, count + 1, pos + 1, buf[pos := s[0]]);
      assert Store(buf[pos := s[0]], pos + 1, s[1..]) == Store(buf, pos, s);
    }
  }

  /** A newline is stored and resets the count, leaving the position. */
  lemma NewlineStep(rest: seq<char>, count: int, pos: nat, buf: seq<char>)
    requires |buf| == BufferSize && pos < BufferSize
    ensures ScanAsWritten(['\n'] + rest, count, pos, buf) == ScanAsWritten(rest, 0, pos, buf[pos := '\n'])
  {
    assert (['\n'] + rest)[1..] == rest;
  }

  /** A carriage return after a count of ten completes with the first eleven buffer bytes, read as a C string. */
  lemma ReturnStep(rest: seq<char>, pos: nat, buf: seq<char>)
    requires |buf| == BufferSize && pos < BufferSize
    ensures ScanAsWritten(['\r'] + rest, 10, pos, buf) == Complete(CStr(buf[pos := Nul][..11]))
  {
  }

  /** Ten characters that can form a tag: no newline, carriage return or NUL among them. */
  predicate TagText(tag: seq<char>)
  {
    |tag| == 10 && Nul !in tag && forall k :: 0 <= k < |tag| ==> DataByte(tag[k])
  }

  /**
   * A stray byte before the newline stays in the buffer: the tag comes
   * out with that byte in front of it, eleven characters, where the
   * corrected recogniser gives the tag.
   */
  lemma StrayByteKept(c: char, tag: seq<char>, buf: seq<char>)
    requires DataByte(c) && c != Nul && TagText(tag)
    requires |buf| == BufferSize
    ensures ScanAsWritten([c, '\n'] + tag + ['\r'], 0, 0, buf) == Complete([c] + tag)
    ensures Scan([c, '\n'] + tag + ['\r'], []) == Complete(tag)
  {
    StrayByteAsWritten(c, tag, buf);
    StrayByteDropped(c, tag);
  }

  lemma StrayByteAsWritten(c: char, tag: seq<char>, buf: seq<char>)
    requires DataByte(c) && c != Nul && TagText(tag)
    requires |buf| == BufferSize
    ensures ScanAsWritten([c, '\n'] + tag + ['\r'], 0, 0, buf) == Complete([c] + tag)
  {
    var frame := [c, '\n'] + tag + ['\r'];
    assert frame == [c] + (['\n'] + (tag + ['\r']));
    DataRun([c], ['\n'] + (tag + ['\r']), 0, 0, buf);
    var b1 := Store(buf, 0, [c]);
    NewlineStep(tag + ['\r'], 1, 1, b1);
    var b2 := b1[1 := '\n'];
    DataRun(tag, ['\r'], 0, 1, b2);
    var b3 := Store(b2, 1, tag);
    assert ['\r'] == ['\r'] + [];
    ReturnStep([], 11, b3);
    assert b3[11 := Nul][..11] == [c] + tag;
    CStrNulFree([c] + tag);
  }

  lemma StrayByteDropped(c: char, tag: seq<char>)
    requires DataByte(c) && c != Nul && TagText(tag)
    ensures Scan([c, '\n'] + tag + ['\r'], []) == Complete(tag)
  {
    assert [c, '\n'] + tag + ['\r'] == [c] + (['\n'] + tag + ['\r'] + []);
    ScanCollect([c], ['\n'] + tag + ['\r'] + [], []);
    ScanFrame(tag, [], [c]);
  }

  /**
   * The count is not initialised: with 5 left in it, a tag followed by a
   * carriage return stops at the tag's seventh byte, while from 0 (and in
   * the corrected recogniser) it completes.
   */
  lemma UnsetCount(tag: seq<char>, buf: seq<char>)
    requires TagText(tag) && |buf| == BufferSize
    ensures ScanAsWritten(tag + ['\r'], 5, 0, buf) == Stopped
    ensures ScanAsWritten(tag + ['\r'], 0, 0, buf) == Complete(tag)
    ensures Scan(tag + ['\r'], []) == Complete(tag)
  {
    assert tag + ['\r'] == tag[..6] + (tag[6..] + ['\r']);
    DataRun(tag[..6], tag[6..] + ['\r'], 5, 0, buf);
    assert (tag[6..] + ['\r'])[0] == tag[6];
    assert ['\r'] == ['\r'] + [];
    DataRun(tag, ['\r'], 0, 0, buf);
    var b := Store(buf, 0, tag);
    ReturnStep([], 10, b);
    assert b[10 := Nul][..11] == tag + [Nul];
    CStrTerminated(tag);
    CStrNulFree(tag);
    ScanCollect(tag, ['\r'], []);
    assert [] + tag == tag;
  }

  /** The frame "A\n0123456789\r" reads as "A0123456789" as written, and as "0123456789" corrected. */
  lemma NewlineKeepsPosition(frame: seq<char>, buf: seq<char>)
    requires frame == "A\n0123456789\r" && |buf| == BufferSize
    ensures ScanAsWritten(frame, 0, 0, buf) == Complete("A0123456789")
    ensures Scan(frame, []) == Complete("0123456789")
  {
    var tag := "0123456789";
    assert TagText(tag);
    assert frame == ['A', '\n'] + tag + ['\r'];
    StrayByteKept('A', tag, buf);
    assert ['A'] + tag == "A0123456789";
  }

  /** "0123456789\r" stops with 5 left in the count, and reads as "0123456789" from 0. */
  lemma CountStartsUnset(buf: seq<char>)
    requires |buf| == BufferSize
    ensures ScanAsWritten("0123456789\r", 5, 0, buf) == Stopped
    ensures Scan("0123456789\r", []) == Complete("0123456789")
  {
    var tag := "0123456789";
    assert TagText(tag);
    UnsetCount(tag, buf);
    assert tag + ['\r'] == "0123456789\r";
  }

  /** A NUL appended at the end does not change the C string. */
  lemma {:induction false} CStrTerminated(s: seq<char>)
    ensures CStr(s + [Nul]) == CStr(s)
    decreases |s|
  {
    if s != [] {
      assert (s + [Nul])[1..] == s[1..] + [Nul];
      CStrTerminated(s[1..]);
    } else {
      assert s + [Nul] == [Nul];
    }
  }

  /** The reader's current id after a read that found `ready` and `bytes`, from `id0` before it. */
  function TagRead(id0: seq<char>, ready: bool, bytes: seq<char>): seq<char>
  {
    if !ready then EmptyTag else if Scan(bytes, []).Complete? then Scan(bytes, []).id else id0
  }

  /** rfid_t: the id of the current read and of the last completed read. */
  class Reader {
    var id: seq<char>
    var lastId: seq<char>

    /**
     * The reader as rfid_open allocates it: `malloc` leaves both ids
     * indeterminate, so they start as the C strings of the parameters.
     */
    constructor (id0: seq<char>, lastId0: seq<char>)
      ensures id == CStr(id0) && lastId == CStr(lastId0)
    {
      id, lastId := CStr(id0), CStr(lastId0);
    }

    /**
     * rfid_read (with the counting corrected): the empty tag when no byte
     * came within the wait; the tag, in both `id` and `lastId`, when a
     * frame completes; otherwise nothing changes. It always returns 0.
     */
    method Read(ready: bool, bytes: seq<char>) returns (r: int)
      modifies this
      ensures r == 0 && id == TagRead(old(id), ready, bytes)
      ensures !ready ==> id == EmptyTag && lastId == old(lastId)
      ensures ready && Scan(bytes, []).Complete? ==> id == Scan(bytes, []).id && lastId == id
      ensures ready && !Scan(bytes, []).Complete? ==> id == old(id) && lastId == old(lastId)
    {
      r := 0;
      if !ready {
        id := EmptyTag;
        return;
      }
      var buffer := new char[BufferSize];
      var tbytes := 0;
      var i := 0;
      while i < |bytes|
        invariant 0 <= i <= |bytes| && 0 <= tbytes <= 11
        invariant Scan(bytes[i..], buffer[..tbytes]) == Scan(bytes, [])
        invariant id == old(id) && lastId == old(lastId)
      {
        var c := bytes[i];
        assert bytes[i..][0] == c && bytes[i..][1..] == bytes[i + 1..];
        ghost var got := buffer[..tbytes];
        buffer[tbytes] := c;
        assert buffer[..tbytes] == got;
        if c == '\n' {
          tbytes := 0;
        } else if c == '\r' {
          buffer[tbytes] := Nul;
          assert buffer[..tbytes] == got;
          if tbytes == 10 {
            assert buffer[..11] == got + [Nul];
            CStrTerminated(got);
            id := CStr(buffer[..11]);
            lastId := id;
            return;
          }
        } else if tbytes < 11 {
          assert buffer[..tbytes + 1] == got + [c];
          tbytes := tbytes + 1;
        } else {
          return;
        }
        i := i + 1;
      }
    }
  }
}
