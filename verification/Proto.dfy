/** Hexadecimal text, and the signed envelope that carries one message. */
module Proto {
  import opened Basics
  import opened Chain

  const NEWLINE: byte := 10

  function HexDigit(n: byte): byte
    requires n < 16
  {
    if n < 10 then 48 + n else 87 + n
  }

  function HexValue(d: byte): Option<byte> {
    if 48 <= d <= 57 then Some(d - 48)
    else if 65 <= d <= 70 then Some(d - 55)
    else if 97 <= d <= 102 then Some(d - 87)
    else None
  }

  /** Lower-case hexadecimal, two digits a byte. */
  function Hex(raw: Bytes): (text: Bytes)
    ensures |text| == 2 * |raw|
  {
    if raw == [] then [] else [HexDigit(raw[0] / 16), HexDigit(raw[0] % 16)] + Hex(raw[1..])
  }

  /** Decodes either case; refuses odd lengths and other characters. */
  function Unhex(text: Bytes): (raw: Option<Bytes>)
    ensures raw.Some? ==> |text| == 2 * |raw.value|
  {
    if text == [] then Some([])
    else if |text| == 1 then None
    else match (HexValue(text[0]), HexValue(text[1]), Unhex(text[2..]))
         case (Some(hi), Some(lo), Some(rest)) => Some([16 * hi + lo] + rest)
         case _ => None
  }

  lemma {:induction false} HexRoundTrip(raw: Bytes)
    ensures Unhex(Hex(raw)) == Some(raw)
  {
    if raw != [] {
      HexRoundTrip(raw[1..]);
      assert Hex(raw)[2..] == Hex(raw[1..]);
      assert raw == [raw[0]] + raw[1..];
    }
  }

  datatype MsgType = Post | Reply | Vote | Mod

  datatype Body =
    | Text(text: Bytes)
    | Encrypted(keyId: Bytes, nonce: Bytes, ciphertext: Bytes)

  datatype Message = Message(
    ts: int, kind: MsgType, title: Option<Bytes>, tags: seq<Bytes>, refs: seq<Bytes>, body: Body)

  datatype Envelope = Envelope(
    id: Id, channel: Bytes, from: Key, fromAlias: Option<Bytes>, ts: int, sig: Bytes, msg: Message)

  /** Serialisation of messages, the 32-byte hash, and signatures over byte strings. */
  datatype Primitives = Primitives(
    json: Message -> Bytes,
    digest: Bytes -> Bytes,
    sign: (Key, Bytes) -> Bytes,
    verify: (Key, Bytes, Bytes) -> bool)

  ghost predicate PrimitivesOk(c: Primitives) {
    && (forall b :: |c.digest(b)| == 32)
    && (forall k, b :: c.verify(k, c.sign(k, b), b))
  }

  /** The signature binds the channel: its name, a newline, then the message. */
  function SignedBytes(c: Primitives, channel: Bytes, msg: Message): Bytes {
    channel + [NEWLINE] + c.json(msg)
  }

  /** The content id: the message alone, not its author or channel. */
  function MessageId(c: Primitives, msg: Message): Id {
    Hex(c.digest(c.json(msg)))
  }

  predicate Genuine(c: Primitives, e: Envelope) {
    && e.ts == e.msg.ts
    && c.verify(e.from, e.sig, SignedBytes(c, e.channel, e.msg))
    && e.id == MessageId(c, e.msg)
  }

  /** Builds the signed bytes piece by piece and fills in an envelope that verifies. */
  method Sign(c: Primitives, signer: Key, alias: Option<Bytes>, channel: Bytes, msg: Message) returns (e: Envelope)
    requires PrimitivesOk(c)
    ensures Genuine(c, e) && e.msg == msg && e.channel == channel && e.from == signer && e.fromAlias == alias
  {
    var msgBytes := c.json(msg);
    var payload := channel;
    payload := payload + [NEWLINE];
    payload := payload + msgBytes;
    e := Envelope(Hex(c.digest(msgBytes)), channel, signer, alias, msg.ts, c.sign(signer, payload), msg);
  }

  method Verify(c: Primitives, e: Envelope) returns (ok: bool)
    ensures ok == Genuine(c, e)
    ensures ok <==>
            && e.ts == e.msg.ts && e.id == Hex(c.digest(c.json(e.msg)))
            && c.verify(e.from, e.sig, e.channel + [NEWLINE] + c.json(e.msg))
  {
    if e.ts != e.msg.ts { return false; }
    var msgBytes := c.json(e.msg);
    var payload := e.channel;
    payload := payload + [NEWLINE];
    payload := payload + msgBytes;
    if !c.verify(e.from, e.sig, payload) { return false; }
    ok := e.id == Hex(c.digest(msgBytes));
  }

  /** The raw form of an id text; empty if the text is not hexadecimal. */
  function Raw(id: Id): Bytes {
    match Unhex(id) case Some(raw) => raw case None => []
  }

  /** An id as verification accepts it: 32 bytes in lower-case hexadecimal. */
  ghost predicate CanonicalId(id: Id) {
    Unhex(id).Some? && |Raw(id)| == 32 && Hex(Raw(id)) == id
  }

  lemma GenuineIdIsCanonical(c: Primitives, e: Envelope)
    requires PrimitivesOk(c) && Genuine(c, e)
    ensures CanonicalId(e.id)
  {
    HexRoundTrip(c.digest(c.json(e.msg)));
  }

  /** The digits, in order. */
  lemma HexAlphabet(n: byte)
    requires n < 16
    ensures HexDigit(n) as int == "0123456789abcdef"[n] as int
  {
  }
}
