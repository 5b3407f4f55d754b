/** src/TcpClient.cc: whole-buffer sending over partial writes, and draining of the replies. */
module TcpClient {
  import opened CText

  /** The octets of a list of chunks, in order. */
  function Joined(chunks: seq<string>): string {
    if chunks == [] then "" else chunks[0] + Joined(chunks[1..])
  }

  /** What one recv of at most `count` octets takes of a burst, and what it leaves. */
  function Piece(burst: seq<string>, count: nat): string
    requires burst != []
  {
    if |burst[0]| <= count then burst[0] else burst[0][..count]
  }

  function AfterPiece(burst: seq<string>, count: nat): seq<string>
    requires burst != []
  {
    if |burst[0]| <= count then burst[1..] else [burst[0][count..]] + burst[1..]
  }

  /**
   The connected socket. `delivered` is what the peer has been given. `bursts` is what
   the peer sends: each burst is what arrives, chunk by chunk, until select times out.
   */
  class Socket {
    var delivered: string
    var bursts: seq<seq<string>>

    constructor (bursts: seq<seq<string>>)
      ensures delivered == "" && this.bursts == bursts
    {
      this.delivered := "";
      this.bursts := bursts;
    }

    /** send: takes some positive number of the octets offered, no more is known. */
    method Send(buffer: array<char>, octetPtr: nat, count: nat) returns (written: nat)
      requires 0 < count && octetPtr + count <= buffer.Length
      modifies this`delivered
      ensures 1 <= written <= count
      ensures delivered == old(delivered) + buffer[octetPtr..octetPtr + written]
    {
      written :| 1 <= written <= count;
      delivered := delivered + buffer[octetPtr..octetPtr + written];
    }

    /** select with its timeout: whether there is something to read; a timeout ends the burst. */
    method Select() returns (ready: bool)
      modifies this`bursts
      ensures ready == (old(bursts) != [] && old(bursts)[0] != [])
      ensures ready ==> bursts == old(bursts)
      ensures !ready ==> bursts == if old(bursts) == [] then [] else old(bursts)[1..]
    {
      ready := bursts != [] && bursts[0] != [];
      if !ready && bursts != [] {
        bursts := bursts[1..];
      }
    }

    /** recv: the next chunk, or as much of it as is asked for. */
    method Recv(buffer: array<char>, octetPtr: nat, count: nat) returns (read: nat)
      requires bursts != [] && bursts[0] != [] && count > 0
      requires octetPtr + |Piece(bursts[0], count)| <= buffer.Length
      modifies this`bursts, buffer
      ensures read == |Piece(old(bursts)[0], count)|
      ensures bursts == [AfterPiece(old(bursts)[0], count)] + old(bursts)[1..]
      ensures buffer[..octetPtr + read] == old(buffer[..octetPtr]) + Piece(old(bursts)[0], count)
      ensures forall i :: octetPtr + read <= i < buffer.Length ==> buffer[i] == old(buffer[i])
    {
      var piece := Piece(bursts[0], count);
      read := |piece|;
      forall i | 0 <= i < read {
        buffer[octetPtr + i] := piece[i];
      }
      bursts := [AfterPiece(bursts[0], count)] + bursts[1..];
    }
  }

  /** What the next receiveData will read, and what remains for later. */
  function NextBurst(bursts: seq<seq<string>>): string {
    if bursts == [] then "" else Joined(bursts[0])
  }

  function LaterBursts(bursts: seq<seq<string>>): seq<seq<string>> {
    if bursts == [] then [] else bursts[1..]
  }

  /** The receive calls a burst can still take, at most. */
  function BurstWork(bursts: seq<seq<string>>): nat {
    if bursts == [] then 0 else |bursts[0]| + |Joined(bursts[0])|
  }

  lemma PieceGoesOn(burst: seq<string>, count: nat)
    requires burst != [] && count > 0
    ensures Piece(burst, count) + Joined(AfterPiece(burst, count)) == Joined(burst)
    ensures |AfterPiece(burst, count)| + |Joined(AfterPiece(burst, count))| < |burst| + |Joined(burst)|
  {
    if |burst[0]| > count {
      var after := AfterPiece(burst, count);
      assert after[1..] == burst[1..];
      assert burst[0] == burst[0][..count] + burst[0][count..];
      PiecesInOrder(burst[0][..count], burst[0][count..], Joined(burst[1..]));
    }
  }

  lemma PiecesInOrder(a: string, b: string, c: string)
    ensures (a + b) + c == a + (b + c)
  {
  }

  /** Reading one piece moves it from what is to come to what has come. */
  lemma BurstGoesOn(head: string, bursts: seq<seq<string>>, count: nat)
    requires bursts != [] && bursts[0] != [] && count > 0
    ensures var after := [AfterPiece(bursts[0], count)] + bursts[1..];
            && (head + Piece(bursts[0], count)) + NextBurst(after) == head + NextBurst(bursts)
            && LaterBursts(after) == LaterBursts(bursts)
            && |Piece(bursts[0], count)| <= |NextBurst(bursts)|
            && BurstWork(after) < BurstWork(bursts)
  {
    hide Joined, Piece, AfterPiece;
    PieceGoesOn(bursts[0], count);
    PiecesInOrder(head, Piece(bursts[0], count), Joined(AfterPiece(bursts[0], count)));
  }

  /**
   A reply is being read into a buffer that held `contents`: what has come stands at the
   front, what is to come completes the reply, and the rest of the buffer is as it was.
   */
  ghost predicate Reading(s: string, octetPtr: nat, bursts: seq<seq<string>>, contents: string, reply: string) {
    && |s| == |contents| && octetPtr <= |s|
    && s[..octetPtr] + NextBurst(bursts) == reply
    && forall i :: octetPtr <= i < |s| ==> s[i] == contents[i]
  }

  lemma ReadingStarts(contents: string, bursts: seq<seq<string>>)
    ensures Reading(contents, 0, bursts, contents, NextBurst(bursts))
  {
    assert contents[..0] + NextBurst(bursts) == NextBurst(bursts);
  }

  lemma ReadingFits(s: string, octetPtr: nat, bursts: seq<seq<string>>, contents: string, reply: string)
    requires Reading(s, octetPtr, bursts, contents, reply)
    ensures octetPtr + |NextBurst(bursts)| == |reply|
  {
    hide NextBurst;
  }

  lemma ReadingEnds(s: string, octetPtr: nat, bursts: seq<seq<string>>, contents: string, reply: string)
    requires Reading(s, octetPtr, bursts, contents, reply) && NextBurst(bursts) == ""
    ensures octetPtr == |reply| <= |contents| && s == Overwrite(contents, reply)
  {
    hide NextBurst;
    assert s[..octetPtr] + "" == s[..octetPtr];
  }

  class TcpClient {
    const socket: Socket
    var connected: bool

    constructor (socket: Socket, connected: bool)
      ensures this.socket == socket && this.connected == connected
    {
      this.socket := socket;
      this.connected := connected;
    }

    method ConnectionIsEstablished() returns (established: bool)
      ensures established == connected
    {
      established := connected;
    }

    /** However send splits the writes, the peer is given the whole buffer, once and in order. */
    method SendData(buffer: array<char>, bufferLength: nat) returns (octetsSent: nat)
      requires bufferLength <= buffer.Length
      modifies socket`delivered
      ensures connected ==> octetsSent == bufferLength && socket.delivered == old(socket.delivered) + buffer[..bufferLength]
      ensures !connected ==> octetsSent == 0 && socket.delivered == old(socket.delivered)
    {
      octetsSent := 0;
      var established := ConnectionIsEstablished();
      if established {
        var octetPtr := 0;
        var octetsRemaining := bufferLength;
        assert buffer[..0] == [];
        while octetsRemaining > 0
          invariant octetsSent + octetsRemaining == bufferLength
          invariant octetPtr == octetsSent
          invariant socket.delivered == old(socket.delivered) + buffer[..octetPtr]
        {
          var octetsWritten := socket.Send(buffer, octetPtr, octetsRemaining);
          assert buffer[..octetPtr] + buffer[octetPtr..octetPtr + octetsWritten] == buffer[..octetPtr + octetsWritten];
          octetsRemaining := octetsRemaining - octetsWritten;
          octetPtr := octetPtr + octetsWritten;
          octetsSent := octetsSent + octetsWritten;
        }
      }
    }

    /** One pass of the receive loop: wait for input and read what is available. */
    method ReadAvailable(buffer: array<char>, octetPtr: nat, bufferLength: nat, ghost contents: string, ghost reply: string)
      returns (octetsRead: nat, timedOut: bool)
      requires bufferLength > 0
      requires Reading(buffer[..], octetPtr, socket.bursts, contents, reply) && |reply| <= buffer.Length
      modifies socket`bursts, buffer
      ensures timedOut ==> octetsRead == 0 && NextBurst(old(socket.bursts)) == "" && buffer[..] == old(buffer[..])
      ensures timedOut ==> socket.bursts == LaterBursts(old(socket.bursts))
      ensures !timedOut ==> Reading(buffer[..], octetPtr + octetsRead, socket.bursts, contents, reply)
      ensures !timedOut ==> LaterBursts(socket.bursts) == LaterBursts(old(socket.bursts))
      ensures !timedOut ==> BurstWork(socket.bursts) < BurstWork(old(socket.bursts))
    {
      ghost var before, head := socket.bursts, buffer[..octetPtr];
      ReadingFits(buffer[..], octetPtr, before, contents, reply);
      octetsRead := 0;
      var ready := socket.Select();
      if ready {
        BurstGoesOn(head, before, bufferLength);
        octetsRead := socket.Recv(buffer, octetPtr, bufferLength);
        assert buffer[..octetPtr + octetsRead] == head + Piece(before[0], bufferLength);
      }
      timedOut := !ready;
    }

    /**
     Reads everything up to the first timeout. Each recv is offered the full bufferLength
     again, so the reply may be longer than that, as long as the array itself has room.
     */
    method ReceiveData(buffer: array<char>, bufferLength: nat) returns (octetsReceived: nat)
      requires bufferLength > 0 && |NextBurst(socket.bursts)| <= buffer.Length
      modifies socket`bursts, buffer
      ensures connected ==> octetsReceived == |NextBurst(old(socket.bursts))|
      ensures connected ==> buffer[..] == Overwrite(old(buffer[..]), NextBurst(old(socket.bursts)))
      ensures connected ==> socket.bursts == LaterBursts(old(socket.bursts))
      ensures !connected ==> octetsReceived == 0 && buffer[..] == old(buffer[..]) && socket.bursts == old(socket.bursts)
    {
      octetsReceived := 0;
      var established := ConnectionIsEstablished();
      if established {
        hide NextBurst, LaterBursts, Overwrite, Reading, BurstWork;
        ghost var reply, later, contents := NextBurst(socket.bursts), LaterBursts(socket.bursts), buffer[..];
        ReadingStarts(contents, socket.bursts);
        var octetPtr := 0;
        var done := false;
        while !done
          invariant octetPtr == octetsReceived
          invariant !done ==> Reading(buffer[..], octetPtr, socket.bursts, contents, reply)
          invariant !done ==> later == LaterBursts(socket.bursts)
          invariant done ==> octetPtr == |reply| <= |contents| && buffer[..] == Overwrite(contents, reply)
          invariant done ==> socket.bursts == later
          decreases !done, BurstWork(socket.bursts)
        {
          ghost var before := socket.bursts;
          var octetsRead, timedOut := ReadAvailable(buffer, octetPtr, bufferLength, contents, reply);
          if timedOut {
            ReadingEnds(buffer[..], octetPtr, before, contents, reply);
            done := true;
          } else {
            octetPtr := octetPtr + octetsRead;
            octetsReceived := octetsReceived + octetsRead;
          }
        }
      }
    }
  }
}
