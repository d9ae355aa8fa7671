/** The buffered reader of the Noise stream over an arbitrary frame decoder. */
module NoiseReader {
  import opened Bytes

  type Pos = n: nat | n > 0 witness 1

  datatype Answer<F> = Frame(frame: F) | MissingBytes | Malformed

  /** A decoder as the reader sees it: how many bytes it wants next, and what it
      makes of exactly that many. */
  datatype Codec<!D, !F> = Codec(writableLen: D -> Pos, nextFrame: (D, seq<Byte>) -> (D, Answer<F>))

  /** What a byte stream comes to: the decoder, its answers so far, the bytes fed
      to it and those it has not got yet. */
  datatype Parsed<D, F> = Parsed(decoder: D, answers: seq<Answer<F>>, fed: seq<Byte>, rest: seq<Byte>)

  function Prepend<D, F>(answer: Answer<F>, piece: seq<Byte>, p: Parsed<D, F>): Parsed<D, F> {
    Parsed(p.decoder, [answer] + p.answers, piece + p.fed, p.rest)
  }

  /** Cut the stream into the pieces the decoder asks for. Knows nothing of chunks. */
  function Parse<D, F>(c: Codec<D, F>, d: D, bytes: seq<Byte>): (p: Parsed<D, F>)
    ensures |p.rest| < c.writableLen(p.decoder)
    decreases |bytes|
  {
    var n := c.writableLen(d);
    if |bytes| < n then Parsed(d, [], [], bytes)
    else
      var turn := c.nextFrame(d, bytes[..n]);
      Prepend(turn.1, bytes[..n], Parse(c, turn.0, bytes[n..]))
  }

  /** No byte is lost or repeated between the stream and the decoder. */
  lemma {:induction false} ParseFeeds<D, F>(c: Codec<D, F>, d: D, bytes: seq<Byte>)
    ensures Parse(c, d, bytes).fed + Parse(c, d, bytes).rest == bytes
    decreases |bytes|
  {
    var n := c.writableLen(d);
    if |bytes| >= n {
      var turn := c.nextFrame(d, bytes[..n]);
      ParseFeeds(c, turn.0, bytes[n..]);
      var p := Parse(c, turn.0, bytes[n..]);
      hide Parse;
      assert (bytes[..n] + p.fed) + p.rest == bytes[..n] + (p.fed + p.rest);
      assert bytes == bytes[..n] + bytes[n..];
    }
  }

  function Then<D, F>(p: Parsed<D, F>, q: Parsed<D, F>): Parsed<D, F> {
    Parsed(q.decoder, p.answers + q.answers, p.fed + q.fed, q.rest)
  }

  lemma ParseStep<D, F>(c: Codec<D, F>, d: D, piece: seq<Byte>, more: seq<Byte>)
    requires |piece| == c.writableLen(d)
    ensures
      var (d', answer) := c.nextFrame(d, piece);
      Parse(c, d, piece + more) == Prepend(answer, piece, Parse(c, d', more))
  {
    var bytes := piece + more;
    assert bytes[..|piece|] == piece && bytes[|piece|..] == more;
  }

  lemma PrependThen<D, F>(answer: Answer<F>, piece: seq<Byte>, p: Parsed<D, F>, q: Parsed<D, F>)
    ensures Prepend(answer, piece, Then(p, q)) == Then(Prepend(answer, piece, p), q)
  {
    assert [answer] + (p.answers + q.answers) == ([answer] + p.answers) + q.answers;
    assert piece + (p.fed + q.fed) == (piece + p.fed) + q.fed;
  }

  lemma ThenFromNothing<D, F>(d: D, rest: seq<Byte>, q: Parsed<D, F>)
    ensures Then(Parsed(d, [], [], rest), q) == q
  {
    assert [] + q.answers == q.answers && [] + q.fed == q.fed;
  }

  /** Where the stream is cut does not matter: parsing a first part, and then what
      it left over together with the second part, is parsing the whole. */
  lemma {:induction false} ParseAppend<D, F>(c: Codec<D, F>, d: D, a: seq<Byte>, b: seq<Byte>)
    ensures
      var p := Parse(c, d, a);
      Parse(c, d, a + b) == Then(p, Parse(c, p.decoder, p.rest + b))
    decreases |a|
  {
    var n := c.writableLen(d);
    if |a| < n {
      ThenFromNothing(d, a, Parse(c, d, a + b));
    } else {
      hide Parse, Then, Prepend;
      var piece, more := a[..n], a[n..];
      var (d', answer) := c.nextFrame(d, piece);
      assert a == piece + more && a + b == piece + (more + b);
      ParseStep(c, d, piece, more);
      ParseStep(c, d, piece, more + b);
      ParseAppend(c, d', more, b);
      var p := Parse(c, d', more);
      PrependThen(answer, piece, p, Parse(c, p.decoder, p.rest + b));
      SamePlace(answer, piece, p);
    }
  }

  lemma SamePlace<D, F>(answer: Answer<F>, piece: seq<Byte>, p: Parsed<D, F>)
    ensures Prepend(answer, piece, p).decoder == p.decoder && Prepend(answer, piece, p).rest == p.rest
  {
  }

  /** The piece that is now complete goes to the decoder. */
  lemma ParsePiece<D, F>(c: Codec<D, F>, d: D, piece: seq<Byte>)
    requires |piece| == c.writableLen(d)
    ensures
      var (d', answer) := c.nextFrame(d, piece);
      Parse(c, d, piece) == Parsed(d', [answer], piece, [])
  {
    assert piece[..|piece|] == piece && piece[|piece|..] == [];
    var (d', answer) := c.nextFrame(d, piece);
    assert Parse(c, d', []) == Parsed(d', [], [], []);
    assert [answer] + [] == [answer] && piece + [] == piece;
  }

  function Frames<F>(answers: seq<Answer<F>>): seq<F> {
    if answers == [] then []
    else
      var n := |answers| - 1;
      Frames(answers[..n]) + if answers[n].Frame? then [answers[n].frame] else []
  }

  lemma FramesAppend<F>(answers: seq<Answer<F>>, a: Answer<F>)
    ensures Frames(answers + [a]) == Frames(answers) + if a.Frame? then [a.frame] else []
  {
    assert (answers + [a])[..|answers|] == answers;
  }

  // --------------------------------------------------------------- the socket

  datatype Read = Data(bytes: seq<Byte>) | WouldBlock | IoError

  /** The bytes that will arrive, cut in any way, between empty reads (end of
      stream), moments without data, and errors. */
  class Socket {
    var arriving: seq<Read>

    constructor (script: seq<Read>)
      ensures arriving == script
    {
      arriving := script;
    }

    /** Up to `space` bytes of the next chunk; a longer chunk keeps its tail. */
    method Take(space: nat) returns (r: Read)
      requires space > 0
      modifies this
      ensures r.Data? ==> |r.bytes| <= space && Stream(old(arriving)) == r.bytes + Stream(arriving)
      ensures !r.Data? ==> Stream(old(arriving)) == Stream(arriving)
      ensures r.Data? && r.bytes != [] ==> |Stream(arriving)| < |Stream(old(arriving))|
      ensures if r.Data? && r.bytes != [] then
                Available(old(arriving)) == r.bytes + Available(arriving) && Stopper(old(arriving)) == Stopper(arriving)
              else Available(old(arriving)) == [] && r == Stopper(old(arriving))
    {
      if arriving == [] {
        return WouldBlock;
      }
      r := arriving[0];
      if r.Data? && |r.bytes| > space {
        var tail := Data(r.bytes[space..]);
        r := Data(r.bytes[..space]);
        ghost var before := arriving;
        arriving := [tail] + arriving[1..];
        assert arriving[1..] == before[1..];
        assert before[0].bytes == r.bytes + tail.bytes;
      } else {
        arriving := arriving[1..];
      }
    }
  }

  /** All bytes still to arrive. */
  function Stream(arriving: seq<Read>): seq<Byte> {
    if arriving == [] then [] else (if arriving[0].Data? then arriving[0].bytes else []) + Stream(arriving[1..])
  }

  /** The bytes that can be read before the socket has nothing, ends or fails. */
  function Available(arriving: seq<Read>): seq<Byte> {
    if arriving == [] || !arriving[0].Data? || arriving[0].bytes == [] then []
    else arriving[0].bytes + Available(arriving[1..])
  }

  /** What a read meets behind them. */
  function Stopper(arriving: seq<Read>): Read {
    if arriving == [] then WouldBlock
    else if arriving[0].Data? && arriving[0].bytes != [] then Stopper(arriving[1..])
    else arriving[0]
  }

  // --------------------------------------------------------------- the reader

  datatype ReadResult<F> = Got(frame: F) | NotYet | Cancelled | SocketClosed | CodecError

  class NoiseTcpReadHalf<D, F> {
    const codec: Codec<D, F>
    const reader: Socket
    ghost const first: D
    var decoder: D
    var currentFrameBuf: seq<Byte>
    var bytesRead: nat
    ghost var consumed: seq<Byte>       // every byte taken from the socket
    ghost var fed: seq<Byte>            // every byte given to the decoder
    ghost var answers: seq<Answer<F>>   // what the decoder answered
    ghost var returned: seq<F>          // the frames handed to callers

    /** Everything but the buffer is a function of the bytes consumed; the buffer
        holds those not yet fed. */
    ghost predicate Valid()
      reads this
    {
      && bytesRead <= |currentFrameBuf|
      && (|currentFrameBuf| != codec.writableLen(decoder) ==> bytesRead == 0)
      && Parse(codec, first, consumed) == Parsed(decoder, answers, fed, currentFrameBuf[..bytesRead])
      && returned == Frames(answers)
    }

    constructor (c: Codec<D, F>, d: D, socket: Socket)
      ensures Valid() && codec == c && first == d && reader == socket && consumed == [] && returned == []
    {
      codec, reader, first, decoder := c, socket, d, d;
      currentFrameBuf, bytesRead := [], 0;
      consumed, fed, answers, returned := [], [], [], [];
    }

    /** `resize(expected, 0)` where the length differs. */
    method Prepare() returns (expected: nat)
      requires Valid()
      modifies this`currentFrameBuf, this`bytesRead
      ensures Valid() && expected == codec.writableLen(decoder) == |currentFrameBuf|
    {
      expected := codec.writableLen(decoder);
      if |currentFrameBuf| != expected {
        var kept := if |currentFrameBuf| <= expected then currentFrameBuf else currentFrameBuf[..expected];
        currentFrameBuf := kept + seq(expected - |kept|, _ => 0);
        bytesRead := 0;
        assert currentFrameBuf[..0] == old(currentFrameBuf)[..0];
      }
    }

    /** A read placed `bytes` behind what the buffer held. */
    method Store(bytes: seq<Byte>)
      requires Valid() && |currentFrameBuf| == codec.writableLen(decoder) && bytesRead + |bytes| < |currentFrameBuf|
      modifies this`currentFrameBuf, this`bytesRead, this`consumed
      ensures Valid() && |currentFrameBuf| == old(|currentFrameBuf|) && bytesRead == old(bytesRead) + |bytes|
      ensures consumed == old(consumed) + bytes
    {
      ghost var p := Parse(codec, first, consumed);
      ParseAppend(codec, first, consumed, bytes);
      currentFrameBuf := currentFrameBuf[..bytesRead] + bytes + currentFrameBuf[bytesRead + |bytes|..];
      bytesRead := bytesRead + |bytes|;
      consumed := consumed + bytes;
      assert currentFrameBuf[..bytesRead] == p.rest + bytes;
      Nothing(codec, p, p.rest + bytes);
    }

    /** The read that completes the piece, and the decoder's turn. */
    method Complete(bytes: seq<Byte>) returns (answer: Answer<F>)
      requires Valid() && |currentFrameBuf| == codec.writableLen(decoder) && bytesRead + |bytes| == |currentFrameBuf|
      modifies this
      ensures Valid() && bytesRead == 0 && consumed == old(consumed) + bytes && answers == old(answers) + [answer]
      ensures returned == old(returned) + if answer.Frame? then [answer.frame] else []
    {
      ghost var p := Parse(codec, first, consumed);
      ParseAppend(codec, first, consumed, bytes);
      hide Parse;
      currentFrameBuf := currentFrameBuf[..bytesRead] + bytes;
      ParsePiece(codec, decoder, currentFrameBuf);
      assert p.rest + bytes == currentFrameBuf;
      var turn := codec.nextFrame(decoder, currentFrameBuf);
      answer := turn.1;
      FramesAppend(answers, answer);
      consumed, fed, answers := consumed + bytes, fed + currentFrameBuf, answers + [answer];
      returned := returned + if answer.Frame? then [answer.frame] else [];
      decoder := turn.0;
      bytesRead := 0;
      assert currentFrameBuf[..0] == [];
    }

    /** The decoder has asked for more bytes since it had given `before`. */
    ghost predicate OnlyMissing(before: seq<Answer<F>>)
      reads this
    {
      before <= answers && forall i :: |before| <= i < |answers| ==> answers[i].MissingBytes?
    }

    /** `read_frame`. A socket that has nothing to give is where a caller may drop
        the future: the call then ends as Cancelled. It reads until the decoder
        gives a frame or an error; it gives up only where the socket does, with
        everything before that consumed. */
    method ReadFrame() returns (r: ReadResult<F>)
      requires Valid()
      modifies this, reader
      ensures Valid() && consumed + Stream(reader.arriving) == old(consumed + Stream(reader.arriving))
      ensures returned == old(returned) + if r.Got? then [r.frame] else []
      ensures match r
              case Got(f) => answers != [] && answers[|answers| - 1] == Frame(f)
              case CodecError => answers != [] && answers[|answers| - 1].Malformed?
              case Cancelled => Stopper(old(reader.arriving)).WouldBlock?
              case SocketClosed => !Stopper(old(reader.arriving)).WouldBlock?
              case NotYet => false
      ensures if r.Got? || r.CodecError? then
                && |old(answers)| < |answers| && old(answers) <= answers
                && (forall i :: |old(answers)| <= i < |answers| - 1 ==> answers[i].MissingBytes?)
                && consumed + Available(reader.arriving) == old(consumed + Available(reader.arriving))
              else OnlyMissing(old(answers)) && consumed == old(consumed + Available(reader.arriving))
    {
      hide Parse, Frames, Stream, Available, Stopper;
      while true
        invariant Valid() && returned == old(returned) && OnlyMissing(old(answers))
        invariant consumed + Stream(reader.arriving) == old(consumed + Stream(reader.arriving))
        invariant consumed + Available(reader.arriving) == old(consumed + Available(reader.arriving))
        invariant Stopper(reader.arriving) == old(Stopper(reader.arriving))
        decreases |Stream(reader.arriving)|
      {
        ghost var size := |Stream(reader.arriving)|;
        var expected := Prepare();
        while true
          invariant Valid() && returned == old(returned) && expected == codec.writableLen(decoder) == |currentFrameBuf|
          invariant OnlyMissing(old(answers))
          invariant consumed + Stream(reader.arriving) == old(consumed + Stream(reader.arriving))
          invariant consumed + Available(reader.arriving) == old(consumed + Available(reader.arriving))
          invariant Stopper(reader.arriving) == old(Stopper(reader.arriving))
          invariant |Stream(reader.arriving)| <= size
          decreases |Stream(reader.arriving)|
        {
          RestFits(codec, first, consumed);
          ghost var before, available := Stream(reader.arriving), Available(reader.arriving);
          var read := reader.Take(expected - bytesRead);
          if !read.Data? || read.bytes == [] {
            assert before == Stream(reader.arriving);
            assert consumed + [] == consumed;
            return if read.WouldBlock? then Cancelled else SocketClosed;
          }
          assert consumed + before == consumed + read.bytes + Stream(reader.arriving);
          assert consumed + available == consumed + read.bytes + Available(reader.arriving);
          if bytesRead + |read.bytes| < expected {
            Store(read.bytes);
          } else {
            var answer := Complete(read.bytes);
            match answer
            case Frame(f) => return Got(f);
            case MissingBytes => break;
            case Malformed => return CodecError;
          }
        }
      }
    }

    /** `try_read_frame`: one read at most. */
    method TryReadFrame() returns (r: ReadResult<F>)
      requires Valid()
      modifies this, reader
      ensures Valid() && consumed + Stream(reader.arriving) == old(consumed + Stream(reader.arriving))
      ensures returned == old(returned) + if r.Got? then [r.frame] else []
      ensures if old(Available(reader.arriving)) == [] then
                && consumed == old(consumed) && answers == old(answers)
                && r == (if old(Stopper(reader.arriving)).WouldBlock? then NotYet else SocketClosed)
              else
                && |old(consumed)| < |consumed| <= |old(consumed)| + codec.writableLen(old(decoder))
                && consumed + Available(reader.arriving) == old(consumed + Available(reader.arriving))
                && (answers == old(answers) || answers == old(answers) + [answers[|answers| - 1]])
                && r == (if answers == old(answers) || answers[|answers| - 1].MissingBytes? then NotYet
                         else if answers[|answers| - 1].Frame? then Got(answers[|answers| - 1].frame) else CodecError)
    {
      hide Parse, Frames, Stream, Available, Stopper;
      var expected := Prepare();
      RestFits(codec, first, consumed);
      ghost var before, available := Stream(reader.arriving), Available(reader.arriving);
      var read := reader.Take(expected - bytesRead);
      if !read.Data? || read.bytes == [] {
        assert before == Stream(reader.arriving);
        return if read.WouldBlock? then NotYet else SocketClosed;
      }
      assert consumed + before == consumed + read.bytes + Stream(reader.arriving);
      assert consumed + available == consumed + read.bytes + Available(reader.arriving);
      if bytesRead + |read.bytes| < expected {
        Store(read.bytes);
        return NotYet;
      }
      var answer := Complete(read.bytes);
      match answer
      case Frame(f) => r := Got(f);
      case MissingBytes => r := NotYet;
      case Malformed => r := CodecError;
    }
  }

  /** Too few bytes for a piece leave the decoder alone. */
  lemma Nothing<D, F>(c: Codec<D, F>, p: Parsed<D, F>, bytes: seq<Byte>)
    requires |bytes| < c.writableLen(p.decoder)
    ensures Then(p, Parse(c, p.decoder, bytes)) == p.(rest := bytes)
  {
    assert p.answers + [] == p.answers && p.fed + [] == p.fed;
  }

  lemma RestFits<D, F>(c: Codec<D, F>, d: D, bytes: seq<Byte>)
    ensures |Parse(c, d, bytes).rest| < c.writableLen(Parse(c, d, bytes).decoder)
  {
  }

  // ------------------------------------------------------------------ theorems

  /** Two readers of the same stream, however their sockets cut it and whatever
      mix of calls and cancellations they saw: where they have consumed the same
      bytes they agree, and where one is ahead the other's frames are a prefix. */
  lemma ChunkingIndependence<D, F>(a: NoiseTcpReadHalf<D, F>, b: NoiseTcpReadHalf<D, F>)
    requires a.Valid() && b.Valid() && a.codec == b.codec && a.first == b.first && a.consumed <= b.consumed
    ensures a.returned <= b.returned && a.fed <= b.fed
    ensures a.fed + a.currentFrameBuf[..a.bytesRead] == a.consumed
    ensures a.consumed == b.consumed ==>
      && a.decoder == b.decoder && a.answers == b.answers && a.returned == b.returned
      && a.currentFrameBuf[..a.bytesRead] == b.currentFrameBuf[..b.bytesRead]
  {
    hide Parse, Frames;
    ParseFeeds(a.codec, a.first, a.consumed);
    var more := b.consumed[|a.consumed|..];
    assert b.consumed == a.consumed + more;
    ParseAppend(a.codec, a.first, a.consumed, more);
    var p := Parse(a.codec, a.first, a.consumed);
    FramesPrefix(p.answers, Parse(a.codec, p.decoder, p.rest + more).answers);
  }

  lemma {:induction false} FramesPrefix<F>(a: seq<Answer<F>>, b: seq<Answer<F>>)
    ensures Frames(a) <= Frames(a + b)
    decreases |b|
  {
    if b == [] {
      assert a + b == a;
    } else {
      var n := |b| - 1;
      FramesPrefix(a, b[..n]);
      assert (a + b)[..|a + b| - 1] == a + b[..n];
    }
  }
}
