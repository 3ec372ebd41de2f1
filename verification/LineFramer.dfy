/**
 * The chunked line framer of the Wi-Fi QR socket (`adapters/wifi_qr_socket.py`): however the byte
 * stream is cut into chunks, the lines delivered are those of the whole stream, over-long ones left out.
 */
module LineFramer {
  import opened Prelude

  newtype byte = b: int | 0 <= b < 256
  type Bytes = seq<byte>

  const NEWLINE: byte := 10
  const MAX_LINE_BYTES: nat := 32 * 1024

  // ----- Lines of a whole stream -----

  predicate OneLine(s: Bytes) {
    NEWLINE !in s
  }

  /** What follows the last newline. */
  function Tail(s: Bytes): Bytes {
    if s == [] || s[|s| - 1] == NEWLINE then [] else Tail(s[..|s| - 1]) + [s[|s| - 1]]
  }

  /** The newline-terminated lines, without their newlines. */
  function Lines(s: Bytes): seq<Bytes> {
    if s == [] then []
    else if s[|s| - 1] == NEWLINE then Lines(s[..|s| - 1]) + [Tail(s[..|s| - 1])]
    else Lines(s[..|s| - 1])
  }

  function Join(lines: seq<Bytes>): Bytes {
    if lines == [] then [] else Join(lines[..|lines| - 1]) + lines[|lines| - 1] + [NEWLINE]
  }

  /** The lines that are not too long, in order. */
  function Short(lines: seq<Bytes>): seq<Bytes> {
    if lines == [] then []
    else
      var rest := Short(lines[..|lines| - 1]);
      if |lines[|lines| - 1]| <= MAX_LINE_BYTES then rest + [lines[|lines| - 1]] else rest
  }

  /** One more byte that is no newline goes to the tail. */
  lemma OneMore(s: Bytes, b: byte)
    requires b != NEWLINE
    ensures Lines(s + [b]) == Lines(s) && Tail(s + [b]) == Tail(s) + [b]
  {
    assert (s + [b])[..|s|] == s;
  }

  lemma EndLine(s: Bytes)
    ensures Lines(s + [NEWLINE]) == Lines(s) + [Tail(s)] && Tail(s + [NEWLINE]) == []
  {
    assert (s + [NEWLINE])[..|s|] == s;
  }

  lemma JoinOneMore(lines: seq<Bytes>, line: Bytes)
    ensures Join(lines + [line]) == Join(lines) + line + [NEWLINE]
  {
    assert (lines + [line])[..|lines|] == lines;
  }

  lemma {:induction false} Extend(s: Bytes, piece: Bytes)
    requires OneLine(piece)
    ensures Lines(s + piece) == Lines(s) && Tail(s + piece) == Tail(s) + piece
  {
    if piece == [] {
      assert s + piece == s;
    } else {
      var init, last := piece[..|piece| - 1], piece[|piece| - 1];
      Extend(s, init);
      OneMore(s + init, last);
      assert piece == init + [last];
      assert s + piece == s + init + [last];
      assert Tail(s) + piece == Tail(s) + init + [last];
    }
  }

  /** Lines and tail are newline-free and spell the stream. */
  lemma {:induction false} LinesSpell(s: Bytes)
    ensures Join(Lines(s)) + Tail(s) == s
    ensures OneLine(Tail(s)) && forall line | line in Lines(s) :: OneLine(line)
  {
    if s != [] {
      var init, last := s[..|s| - 1], s[|s| - 1];
      LinesSpell(init);
      assert s == init + [last];
      if last == NEWLINE {
        EndLine(init);
        JoinOneMore(Lines(init), Tail(init));
      } else {
        OneMore(init, last);
        assert Join(Lines(init)) + (Tail(init) + [last]) == Join(Lines(init)) + Tail(init) + [last];
      }
    }
  }

  lemma ShortEnd(lines: seq<Bytes>, line: Bytes)
    ensures Short(lines + [line]) == Short(lines) + if |line| <= MAX_LINE_BYTES then [line] else []
  {
    assert (lines + [line])[..|lines|] == lines;
  }

  /** `data.split(b"\\n")`: the lines, and what is left. */
  function Split(data: Bytes): (pieces: seq<Bytes>)
    ensures |pieces| > 0
  {
    Lines(data) + [Tail(data)]
  }

  /** What the first `i` pieces stand for. */
  function Taken(data: Bytes, i: nat): Bytes
    requires i <= |Split(data)|
  {
    if i < |Split(data)| then Join(Split(data)[..i]) else data
  }

  lemma TakenStep(data: Bytes, i: nat, before: Bytes)
    requires i < |Split(data)|
    ensures OneLine(Split(data)[i])
    ensures before + Taken(data, i) + Split(data)[i] + (if i < |Split(data)| - 1 then [NEWLINE] else [])
            == before + Taken(data, i + 1)
  {
    LinesSpell(data);
    var pieces := Split(data);
    if i < |pieces| - 1 {
      assert pieces[..i + 1][..i] == pieces[..i] && pieces[i] == Lines(data)[i] && pieces[i] in Lines(data);
    } else {
      assert pieces[..i] == Lines(data);
    }
  }

  // ----- The receiver -----

  /** What one `recv` returns; the end of the stream is the end of the sequence. */
  datatype Recv = Data(bytes: Bytes) | TimedOut

  function Stream(recvs: seq<Recv>): Bytes {
    if recvs == [] then []
    else Stream(recvs[..|recvs| - 1]) + match recvs[|recvs| - 1] case Data(bytes) => bytes case TimedOut => []
  }

  /** The state of the receive thread; `stream` is what it has consumed. */
  class Receiver {
    var pending: Bytes
    var dropping: bool
    var delivered: seq<Bytes>
    ghost var stream: Bytes

    /** Delivered so far: the short lines of the stream. Pending: the tail, or nothing once it is too long. */
    ghost predicate Valid()
      reads this
    {
      && delivered == Short(Lines(stream))
      && (dropping <==> |Tail(stream)| > MAX_LINE_BYTES)
      && pending == (if dropping then [] else Tail(stream))
      && |pending| <= MAX_LINE_BYTES
    }

    constructor ()
      ensures Valid() && stream == [] && delivered == []
    {
      pending, dropping, delivered, stream := [], false, [], [];
    }

    method TakePiece(piece: Bytes, ended: bool)
      requires Valid() && OneLine(piece)
      modifies this
      ensures Valid() && stream == old(stream) + piece + if ended then [NEWLINE] else []
    {
      Extend(stream, piece);
      if !dropping {
        if |pending| + |piece| > MAX_LINE_BYTES {
          dropping := true;
          pending := [];
        } else {
          pending := pending + piece;
        }
      }
      stream := stream + piece;
      if ended {
        EndLine(stream);
        ShortEnd(Lines(stream), Tail(stream));
        if !dropping {
          delivered := delivered + [pending];
        }
        pending := [];
        dropping := false;
        stream := stream + [NEWLINE];
      }
    }

    method TakeChunk(data: Bytes)
      requires Valid()
      modifies this
      ensures Valid() && stream == old(stream) + data
    {
      var pieces := Split(data);
      for i := 0 to |pieces|
        invariant Valid()
        invariant stream == old(stream) + Taken(data, i)
      {
        TakenStep(data, i, old(stream));
        TakePiece(pieces[i], i < |pieces| - 1);
      }
    }

    /** The loop of the receive thread. */
    method Receive(recvs: seq<Recv>)
      requires Valid() && stream == []
      modifies this
      ensures Valid() && stream == Stream(recvs)
      ensures delivered == Short(Lines(Stream(recvs)))
    {
      for i := 0 to |recvs|
        invariant Valid() && stream == Stream(recvs[..i])
      {
        assert recvs[..i + 1][..i] == recvs[..i];
        match recvs[i] {
          case TimedOut =>
          case Data(bytes) => TakeChunk(bytes);
        }
      }
      assert recvs[..|recvs|] == recvs;
    }
  }

  // ----- Sending -----

  /** What `send` puts on the wire for a serialised message, if it accepts it. */
  function Sent(line: Bytes): Option<Bytes> {
    if |line| > MAX_LINE_BYTES then None else Some(line + [NEWLINE])
  }

  function Wire(lines: seq<Bytes>): Bytes {
    if lines == [] then []
    else
      var before := Wire(lines[..|lines| - 1]);
      var sent := Sent(lines[|lines| - 1]);
      if sent.Some? then before + sent.value else before
  }

  /**
   * Sent lines arrive intact: whatever newline-free lines are sent, and however the stream is cut
   * up, the receiver delivers exactly those that `send` accepted, in order.
   */
  lemma {:induction false} SentLinesArrive(lines: seq<Bytes>)
    requires forall i | 0 <= i < |lines| :: OneLine(lines[i])
    ensures Short(Lines(Wire(lines))) == Short(lines) && Tail(Wire(lines)) == []
  {
    if lines != [] {
      var before, line := lines[..|lines| - 1], lines[|lines| - 1];
      SentLinesArrive(before);
      if Sent(line).Some? {
        Extend(Wire(before), line);
        EndLine(Wire(before) + line);
        assert Wire(lines) == Wire(before) + line + [NEWLINE];
        ShortEnd(Lines(Wire(before)), line);
        assert Tail(Wire(before)) + line == line;
      }
    }
  }
}
