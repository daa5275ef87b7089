/** Length-prefixed messages on a byte stream (protocol/wire.rs). */
module Wire {
  import opened Protocol

  newtype byte = b: int | 0 <= b < 0x100

  const MAX_MESSAGE_LEN: nat := 1024 * 1024

  /** The JSON codec, a library: encoding a message and decoding it again gives the message. */
  datatype Codec = Codec(encode: Message -> seq<byte>, decode: seq<byte> -> Option<Message>)

  ghost predicate Faithful(codec: Codec) {
    forall m :: codec.decode(codec.encode(m)) == Some(m)
  }

  datatype WireError = LengthMissing | TooLarge | BodyMissing | Undecodable

  // ---------------------------------------------------------------- lengths

  function ToBytes(n: nat): (b: seq<byte>)
    requires n < 0x1_0000_0000
    ensures |b| == 4
  {
    [(n / 0x100_0000) as byte, (n / 0x1_0000 % 0x100) as byte, (n / 0x100 % 0x100) as byte, (n % 0x100) as byte]
  }

  function FromBytes(b: seq<byte>): (n: nat)
    requires |b| == 4
    ensures n < 0x1_0000_0000
  {
    b[0] as nat * 0x100_0000 + b[1] as nat * 0x1_0000 + b[2] as nat * 0x100 + b[3] as nat
  }

  lemma LengthRoundTrip(n: nat)
    requires n < 0x1_0000_0000
    ensures FromBytes(ToBytes(n)) == n
  {
    var q1, q2 := n / 0x100, n / 0x1_0000;
    assert q1 / 0x100 == q2;
    assert q2 / 0x100 == n / 0x100_0000;
  }

  /** The length prefix is big-endian. */
  lemma PrefixIsBigEndian(n: nat)
    requires n < 0x1_0000_0000
    ensures var b := ToBytes(n);
            ((b[0] as nat * 256 + b[1] as nat) * 256 + b[2] as nat) * 256 + b[3] as nat == n
    ensures n < 256 ==> ToBytes(n) == [0, 0, 0, n as byte]
  {
    LengthRoundTrip(n);
  }

  // ---------------------------------------------------------------- one message

  function Frame(body: seq<byte>): seq<byte>
    requires |body| <= MAX_MESSAGE_LEN
  {
    ToBytes(|body|) + body
  }

  /** What reading one message off a stream's bytes gives, and what is left of them. */
  datatype Read<+T> = Read(result: Result<T, WireError>, rest: seq<byte>)

  function ReadOne(codec: Codec, bytes: seq<byte>): (r: Read<Message>)
    ensures r.result.Ok? ==> |r.rest| < |bytes|
  {
    if |bytes| < 4 then Read(Err(LengthMissing), [])
    else
      var len := FromBytes(bytes[..4]);
      var after := bytes[4..];
      if len > MAX_MESSAGE_LEN then Read(Err(TooLarge), after)
      else if |after| < len then Read(Err(BodyMissing), [])
      else match codec.decode(after[..len])
        case None => Read(Err(Undecodable), after[len..])
        case Some(m) => Read(Ok(m), after[len..])
  }

  /** A message that fits is read back whatever follows it, and nothing of what follows is consumed. */
  lemma FrameRoundTrip(codec: Codec, m: Message, rest: seq<byte>)
    requires Faithful(codec) && |codec.encode(m)| <= MAX_MESSAGE_LEN
    ensures ReadOne(codec, Frame(codec.encode(m)) + rest) == Read(Ok(m), rest)
  {
    var body := codec.encode(m);
    var bytes := Frame(body) + rest;
    LengthRoundTrip(|body|);
    assert bytes[..4] == ToBytes(|body|);
    assert bytes[4..] == body + rest;
    assert bytes[4..][..|body|] == body;
  }

  /** A frame that is cut short, wherever, is no message but an error. */
  lemma CutFrameIsNoMessage(codec: Codec, body: seq<byte>, k: nat)
    requires |body| <= MAX_MESSAGE_LEN && k < |Frame(body)|
    ensures ReadOne(codec, Frame(body)[..k]) == Read(Err(if k < 4 then LengthMissing else BodyMissing), [])
  {
    LengthRoundTrip(|body|);
    if k >= 4 {
      assert Frame(body)[..k][..4] == ToBytes(|body|);
    }
  }

  /** A length beyond one mebibyte is refused before any of the body is taken. */
  lemma LongFrameIsRefused(codec: Codec, n: nat, rest: seq<byte>)
    requires 1_048_576 < n < 0x1_0000_0000
    ensures ReadOne(codec, ToBytes(n) + rest) == Read(Err(TooLarge), rest)
  {
    LengthRoundTrip(n);
    assert (ToBytes(n) + rest)[..4] == ToBytes(n) && (ToBytes(n) + rest)[4..] == rest;
  }

  /** A body that does not decode is taken off the stream all the same. */
  lemma UndecodableIsSkipped(codec: Codec, body: seq<byte>, rest: seq<byte>)
    requires |body| <= 1_048_576 && codec.decode(body) == None
    ensures ReadOne(codec, Frame(body) + rest) == Read(Err(Undecodable), rest)
  {
    var bytes := Frame(body) + rest;
    LengthRoundTrip(|body|);
    assert bytes[..4] == ToBytes(|body|) && bytes[4..] == body + rest && bytes[4..][..|body|] == body;
  }

  /** No length prefix makes the reader take more than one message of the largest size off the stream. */
  lemma ReadIsBounded(codec: Codec, bytes: seq<byte>)
    requires ReadOne(codec, bytes).result.Ok?
    ensures 4 <= |bytes| - |ReadOne(codec, bytes).rest| <= 4 + MAX_MESSAGE_LEN
    ensures bytes[|bytes| - |ReadOne(codec, bytes).rest|..] == ReadOne(codec, bytes).rest
  {
    assert bytes[4..][FromBytes(bytes[..4])..] == bytes[4 + FromBytes(bytes[..4])..];
  }

  // ---------------------------------------------------------------- the stream

  /** The bytes that have been sent and not yet received. */
  class ByteStream {
    var bytes: seq<byte>

    constructor (bytes: seq<byte>)
      ensures this.bytes == bytes
    {
      this.bytes := bytes;
    }

    method WriteAll(data: seq<byte>)
      modifies this
      ensures bytes == old(bytes) + data
    {
      bytes := bytes + data;
    }

    /** Exactly `n` bytes, or the end of the stream. */
    method ReadExact(n: nat) returns (data: Option<seq<byte>>)
      modifies this
      ensures if n <= |old(bytes)| then data == Some(old(bytes)[..n]) && bytes == old(bytes)[n..]
              else data == None && bytes == []
    {
      if n <= |bytes| {
        data := Some(bytes[..n]);
        bytes := bytes[n..];
      } else {
        data := None;
        bytes := [];
      }
    }

    /** Refuses a message exactly if its body is too large, before a byte is sent. */
    method WriteJson(codec: Codec, m: Message) returns (sent: bool)
      modifies this
      ensures sent <==> |codec.encode(m)| <= MAX_MESSAGE_LEN
      ensures bytes == if sent then old(bytes) + Frame(codec.encode(m)) else old(bytes)
    {
      var body := codec.encode(m);
      if |body| > MAX_MESSAGE_LEN {
        return false;
      }
      WriteAll(ToBytes(|body|));
      WriteAll(body);
      sent := true;
    }

    method ReadJson(codec: Codec) returns (result: Result<Message, WireError>)
      modifies this
      ensures Read(result, bytes) == ReadOne(codec, old(bytes))
    {
      var prefix := ReadExact(4);
      if prefix.None? {
        return Err(LengthMissing);
      }
      var len := FromBytes(prefix.value);
      if len > MAX_MESSAGE_LEN {
        return Err(TooLarge);
      }
      var body := ReadExact(len);
      if body.None? {
        return Err(BodyMissing);
      }
      var decoded := codec.decode(body.value);
      result := if decoded.None? then Err(Undecodable) else Ok(decoded.value);
    }
  }
}
