/** The seven kinds of byte string that identities sign, and why none can be taken for another. */
module Payloads {
  import opened Basics
  import opened Chain
  import opened Proto
  import Policy
  import M = Moderation
  import K = Keyring

  predicate NameByte(b: byte) {
    97 <= b <= 122 || 48 <= b <= 57 || b == SLASH || b == 45
  }

  const SLASH: byte := 47
  const MINUS: byte := 45

  /** Lower-case letters, digits, minus and slash, without an empty path segment. */
  predicate ValidChannel(name: Bytes) {
    && (forall i :: 0 <= i < |name| ==> NameByte(name[i]))
    && name != [] && name[0] != SLASH && name[|name| - 1] != SLASH
    && forall i :: 0 <= i < |name| - 1 ==> !(name[i] == SLASH && name[i + 1] == SLASH)
  }

  predicate IsAscii(s: string) {
    forall i :: 0 <= i < |s| ==> s[i] < 128 as char
  }

  function Ascii(s: string): (b: Bytes)
    requires IsAscii(s)
    ensures |b| == |s| && forall i :: 0 <= i < |s| ==> b[i] as int == s[i] as int
  {
    seq(|s|, i requires 0 <= i < |s| => s[i] as int as byte)
  }

  function Digits(n: nat): Bytes {
    (if n < 10 then [] else Digits(n / 10)) + [(48 + n % 10) as byte]
  }

  function Decimal(n: int): Bytes {
    if n < 0 then [MINUS] + Digits(-n) else Digits(n)
  }

  // ---------------------------------------------------------------- the payloads

  datatype Signed =
    | Message(channel: Bytes, msg: Proto.Message)
    | PolicyEvent(policy: Payload<Policy.PolicyBody>)
    | ModerationEvent(moderation: Payload<M.ModerationBody>)
    | KeyOffer(offer: K.OfferPayload)
    | SyncAuth(ts: int, channel: Bytes, nonce: Bytes, responder: Key)
    | Discovery(ts: int, nonce: Bytes, responder: Key)
    | Challenge(target: Bytes, nonce: Bytes, responder: Key, expires: int)

  /** JSON serialisation of the four structures that are signed as JSON. */
  datatype Json = Json(
    message: Proto.Message -> Bytes,
    policy: Payload<Policy.PolicyBody> -> Bytes,
    moderation: Payload<M.ModerationBody> -> Bytes,
    offer: K.OfferPayload -> Bytes)

  /** The text begins with a brace, a quote and this letter of the first field's name. */
  predicate Opens(text: Bytes, letter: byte) {
    |text| >= 3 && text[0] == 123 && text[1] == 34 && text[2] == letter
  }

  ghost predicate MessageJsonOk(j: Json) {
    && (forall a :: Opens(j.message(a), 116))
    && (forall a, b :: j.message(a) == j.message(b) ==> a == b)
  }

  ghost predicate PolicyJsonOk(j: Json) {
    && (forall a :: Opens(j.policy(a), 99))
    && (forall a, b :: j.policy(a) == j.policy(b) ==> a == b)
  }

  ghost predicate ModerationJsonOk(j: Json) {
    && (forall a :: Opens(j.moderation(a), 99))
    && (forall a, b :: j.moderation(a) == j.moderation(b) ==> a == b)
  }

  ghost predicate OfferJsonOk(j: Json) {
    && (forall a :: Opens(j.offer(a), 99))
    && (forall a, b :: j.offer(a) == j.offer(b) ==> a == b)
  }

  /** Serialisation is injective and writes the fields in the order of their declaration: a message starts
      with its time stamp, the other structures with their channel. */
  ghost predicate JsonOk(j: Json) {
    MessageJsonOk(j) && PolicyJsonOk(j) && ModerationJsonOk(j) && OfferJsonOk(j)
  }

  /** Fields separated by newlines. */
  function Join(fields: seq<Bytes>): Bytes
    requires fields != []
  {
    if |fields| == 1 then fields[0] else fields[0] + [NEWLINE] + Join(fields[1..])
  }

  const POLICY_TAG: Bytes := Ascii("embernet-policy-v1")
  const MODERATION_TAG: Bytes := Ascii("embernet-moderation-v1")
  const OFFER_TAG: Bytes := Ascii("embernet-key-offer-signature-v1")
  const SYNC_TAG: Bytes := Ascii("embernet-sync-auth-v2")
  const DISCOVERY_TAG: Bytes := Ascii("embernet-discovery-v2")
  const CHALLENGE_TAG: Bytes := Ascii("embernet-responder-challenge-v1")

  /** What stands before the first newline. */
  function First(s: Signed): Bytes {
    match s
    case Message(channel, _) => channel
    case PolicyEvent(_) => POLICY_TAG
    case ModerationEvent(_) => MODERATION_TAG
    case KeyOffer(_) => OFFER_TAG
    case SyncAuth(_, _, _, _) => SYNC_TAG
    case Discovery(_, _, _) => DISCOVERY_TAG
    case Challenge(_, _, _, _) => CHALLENGE_TAG
  }

  function Rest(j: Json, s: Signed): Bytes {
    match s
    case Message(_, msg) => j.message(msg)
    case PolicyEvent(p) => j.policy(p)
    case ModerationEvent(p) => j.moderation(p)
    case KeyOffer(p) => j.offer(p)
    case SyncAuth(ts, channel, nonce, responder) => Join([Decimal(ts), channel, nonce, responder])
    case Discovery(ts, nonce, responder) => Join([Decimal(ts), Ascii("/status"), nonce, responder])
    case Challenge(target, nonce, responder, expires) => Join([target, nonce, responder, Decimal(expires)])
  }

  /** The bytes that are signed. */
  function Text(j: Json, s: Signed): Bytes {
    First(s) + [NEWLINE] + Rest(j, s)
  }

  predicate HexText(b: Bytes) {
    forall i :: 0 <= i < |b| ==> Policy.IsHexDigit(b[i])
  }

  /** What the program ever signs or accepts a signature over. */
  predicate WellFormed(s: Signed) {
    match s
    case Message(channel, _) => ValidChannel(channel)
    case SyncAuth(_, channel, nonce, responder) => ValidChannel(channel) && HexText(nonce) && HexText(responder)
    case Discovery(_, nonce, responder) => HexText(nonce) && HexText(responder)
    case Challenge(target, nonce, responder, _) =>
      (target == Ascii("/sync") || target == Ascii("/status")) && HexText(nonce) && HexText(responder)
    case _ => true
  }

  /** The signed bytes of an envelope are those of the message payload. */
  lemma EnvelopePayload(c: Primitives, j: Json, channel: Bytes, msg: Proto.Message)
    requires j.message == c.json
    ensures SignedBytes(c, channel, msg) == Text(j, Signed.Message(channel, msg))
  {
  }

  // ---------------------------------------------------------------- splitting

  ghost predicate OneLine(b: Bytes) {
    NEWLINE !in b
  }

  /** The first newline divides a text in one way only. */
  lemma SplitOnce(a: Bytes, x: Bytes, b: Bytes, y: Bytes)
    requires OneLine(a) && OneLine(b) && a + [NEWLINE] + x == b + [NEWLINE] + y
    ensures a == b && x == y
  {
    var s, t := a + [NEWLINE] + x, b + [NEWLINE] + y;
    assert s[|a|] == NEWLINE && t[|b|] == NEWLINE;
    assert forall i :: 0 <= i < |a| ==> s[i] == a[i] != NEWLINE;
    assert forall i :: 0 <= i < |b| ==> t[i] == b[i] != NEWLINE;
    assert |a| == |b|;
    assert a == s[..|a|] && b == t[..|b|];
    assert x == s[|a| + 1..] && y == t[|b| + 1..];
  }

  ghost predicate Lines(fields: seq<Bytes>) {
    forall i :: 0 <= i < |fields| ==> OneLine(fields[i])
  }

  lemma {:induction false} JoinInjective(a: seq<Bytes>, b: seq<Bytes>)
    requires a != [] && b != [] && Lines(a) && Lines(b) && Join(a) == Join(b)
    ensures a == b
    decreases |a|
  {
    if |a| > 1 {
      SplitOnce(a[0], Join(a[1..]), b[0], Join(b[1..]));
      JoinInjective(a[1..], b[1..]);
      assert a == [a[0]] + a[1..] && b == [b[0]] + b[1..];
    }
  }

  lemma {:induction false} DigitsAreDigits(n: nat)
    ensures Digits(n) != [] && forall i :: 0 <= i < |Digits(n)| ==> 48 <= Digits(n)[i] <= 57
  {
    if n >= 10 { DigitsAreDigits(n / 10); }
  }

  lemma {:induction false} DigitsInjective(a: nat, b: nat)
    requires Digits(a) == Digits(b)
    ensures a == b
  {
    DigitsAreDigits(a / 10);
    DigitsAreDigits(b / 10);
    var s, t := Digits(a), Digits(b);
    assert s[|s| - 1] == (48 + a % 10) as byte && t[|t| - 1] == (48 + b % 10) as byte;
    if a >= 10 && b >= 10 {
      assert Digits(a / 10) == s[..|s| - 1] && Digits(b / 10) == t[..|t| - 1];
      DigitsInjective(a / 10, b / 10);
    }
  }

  lemma DecimalInjective(a: int, b: int)
    requires Decimal(a) == Decimal(b)
    ensures a == b
  {
    DecimalStart(a);
    DecimalStart(b);
    if a < 0 {
      assert Digits(-a) == Decimal(a)[1..] && Digits(-b) == Decimal(b)[1..];
      DigitsInjective(-a, -b);
    } else {
      DigitsInjective(a, b);
    }
  }

  lemma DecimalStart(n: int)
    ensures OneLine(Decimal(n)) && Decimal(n) != [] && (Decimal(n)[0] == MINUS || 48 <= Decimal(n)[0] <= 57)
    ensures Decimal(n)[0] == MINUS <==> n < 0
  {
    DigitsAreDigits(if n < 0 then -n else n);
  }

  lemma SessionTagsAreLines()
    ensures OneLine(SYNC_TAG) && OneLine(DISCOVERY_TAG) && OneLine(CHALLENGE_TAG)
  {
  }

  lemma FirstIsOneLine(s: Signed)
    requires WellFormed(s)
    ensures OneLine(First(s))
  {
    SessionTagsAreLines();
  }

  /** The tags differ in their tenth letter. */
  function TagLetter(s: Signed): byte
    requires !s.Message?
  {
    match s
    case PolicyEvent(_) => 112
    case ModerationEvent(_) => 109
    case KeyOffer(_) => 107
    case SyncAuth(_, _, _, _) => 115
    case Discovery(_, _, _) => 100
    case Challenge(_, _, _, _) => 114
  }

  lemma TagHasLetter(s: Signed)
    requires !s.Message?
    ensures |First(s)| > 9 && First(s)[9] == TagLetter(s)
  {
  }

  /** What follows the first newline of a message is unlike what follows any tag. */
  lemma MessageRestDiffers(j: Json, s: Signed, m: Proto.Message)
    requires JsonOk(j) && WellFormed(s) && !s.Message?
    ensures Rest(j, s) != j.message(m)
  {
    assert Opens(j.message(m), 116);
    match s
    case PolicyEvent(p) => assert Opens(j.policy(p), 99);
    case ModerationEvent(p) => assert Opens(j.moderation(p), 99);
    case KeyOffer(p) => assert Opens(j.offer(p), 99);
    case SyncAuth(ts, channel, nonce, responder) =>
      DecimalStart(ts);
      assert Rest(j, s)[0] == Decimal(ts)[0];
    case Discovery(ts, nonce, responder) =>
      DecimalStart(ts);
      assert Rest(j, s)[0] == Decimal(ts)[0];
    case Challenge(target, _, _, _) =>
      assert Rest(j, s)[0] == target[0] == SLASH;
  }

  lemma SyncAuthInjective(j: Json, a: Signed, b: Signed)
    requires a.SyncAuth? && b.SyncAuth? && WellFormed(a) && WellFormed(b) && Rest(j, a) == Rest(j, b)
    ensures a == b
  {
    DecimalStart(a.ts);
    DecimalStart(b.ts);
    var x, y := [Decimal(a.ts), a.channel, a.nonce, a.responder], [Decimal(b.ts), b.channel, b.nonce, b.responder];
    JoinInjective(x, y);
    assert x[0] == y[0] && x[1] == y[1] && x[2] == y[2] && x[3] == y[3];
    DecimalInjective(a.ts, b.ts);
  }

  lemma DiscoveryInjective(j: Json, a: Signed, b: Signed)
    requires a.Discovery? && b.Discovery? && WellFormed(a) && WellFormed(b) && Rest(j, a) == Rest(j, b)
    ensures a == b
  {
    DecimalStart(a.ts);
    DecimalStart(b.ts);
    var x := [Decimal(a.ts), Ascii("/status"), a.nonce, a.responder];
    var y := [Decimal(b.ts), Ascii("/status"), b.nonce, b.responder];
    JoinInjective(x, y);
    assert x[0] == y[0] && x[2] == y[2] && x[3] == y[3];
    DecimalInjective(a.ts, b.ts);
  }

  lemma ChallengeInjective(j: Json, a: Signed, b: Signed)
    requires a.Challenge? && b.Challenge? && WellFormed(a) && WellFormed(b) && Rest(j, a) == Rest(j, b)
    ensures a == b
  {
    DecimalStart(a.expires);
    DecimalStart(b.expires);
    var x := [a.target, a.nonce, a.responder, Decimal(a.expires)];
    var y := [b.target, b.nonce, b.responder, Decimal(b.expires)];
    JoinInjective(x, y);
    assert x[0] == y[0] && x[1] == y[1] && x[2] == y[2] && x[3] == y[3];
    DecimalInjective(a.expires, b.expires);
  }

  lemma SameKindInjective(j: Json, a: Signed, b: Signed)
    requires JsonOk(j) && WellFormed(a) && WellFormed(b) && First(a) == First(b) && Rest(j, a) == Rest(j, b)
    requires a.Message? <==> b.Message?
    ensures a == b
  {
    if !a.Message? {
      TagHasLetter(a);
      TagHasLetter(b);
      assert TagLetter(a) == TagLetter(b);
    }
    match a
    case SyncAuth(_, _, _, _) => SyncAuthInjective(j, a, b);
    case Discovery(_, _, _) => DiscoveryInjective(j, a, b);
    case Challenge(_, _, _, _) => ChallengeInjective(j, a, b);
    case _ =>
  }

  /** The signed bytes determine the kind of statement and every field of it, even for a channel that is named
      like one of the tags: a signature given for one statement is good for no other. */
  lemma SignedTextsInjective(j: Json, a: Signed, b: Signed)
    requires JsonOk(j) && WellFormed(a) && WellFormed(b) && Text(j, a) == Text(j, b)
    ensures a == b
  {
    FirstIsOneLine(a);
    FirstIsOneLine(b);
    SplitOnce(First(a), Rest(j, a), First(b), Rest(j, b));
    if a.Message? && !b.Message? {
      MessageRestDiffers(j, b, a.msg);
    } else if b.Message? && !a.Message? {
      MessageRestDiffers(j, a, b.msg);
    } else {
      SameKindInjective(j, a, b);
    }
  }

  /** The signature of an envelope is good for no other statement, and for no other message or channel. */
  lemma EnvelopeMeansMessage(c: Primitives, j: Json, channel: Bytes, msg: Proto.Message, s: Signed)
    requires JsonOk(j) && j.message == c.json && ValidChannel(channel) && WellFormed(s)
    requires SignedBytes(c, channel, msg) == Text(j, s)
    ensures s == Signed.Message(channel, msg)
  {
    EnvelopePayload(c, j, channel, msg);
    SignedTextsInjective(j, Signed.Message(channel, msg), s);
  }

  /** Without the rule for channel names it would fail: if a channel could contain a newline, two different
      sync requests would sign the same bytes. */
  lemma ChannelRuleIsNeeded(j: Json, x: Bytes, y: Bytes, z: Bytes, responder: Key)
    requires HexText(x) && HexText(y) && HexText(z)
    ensures var a, b := SyncAuth(0, x + [NEWLINE] + y, z, responder), SyncAuth(0, x, y + [NEWLINE] + z, responder);
            a != b && Text(j, a) == Text(j, b)
  {
    var d := Decimal(0);
    JoinFour(d, x + [NEWLINE] + y, z, responder);
    JoinFour(d, x, y + [NEWLINE] + z, responder);
    Regroup(d, x, y, z);
    assert |x + [NEWLINE] + y| != |x|;
  }

  lemma Regroup(d: Bytes, x: Bytes, y: Bytes, z: Bytes)
    ensures d + [NEWLINE] + (x + [NEWLINE] + y) + [NEWLINE] + z == d + [NEWLINE] + x + [NEWLINE] + (y + [NEWLINE] + z)
  {
  }

  lemma JoinFour(p: Bytes, q: Bytes, r: Bytes, s: Bytes)
    ensures Join([p, q, r, s]) == p + [NEWLINE] + q + [NEWLINE] + r + [NEWLINE] + s
  {
    assert [p, q, r, s][1..] == [q, r, s] && [q, r, s][1..] == [r, s] && [r, s][1..] == [s];
    assert Join([r, s]) == r + [NEWLINE] + s;
    assert Join([q, r, s]) == q + [NEWLINE] + Join([r, s]);
  }

  // ---------------------------------------------------------------- the texts, written out

  /** Joins lines. */
  function Lined(a: Bytes, b: Bytes): Bytes {
    a + [NEWLINE] + b
  }

  lemma FourLines(p: Bytes, q: Bytes, r: Bytes, s: Bytes)
    ensures Join([p, q, r, s]) == Lined(p, Lined(q, Lined(r, s)))
  {
    assert [p, q, r, s][1..] == [q, r, s] && [q, r, s][1..] == [r, s] && [r, s][1..] == [s];
    assert Join([r, s]) == Lined(r, s);
    assert Join([q, r, s]) == Lined(q, Join([r, s]));
  }

  /** What is signed, line by line. */
  lemma TextsWrittenOut(j: Json, s: Signed)
    ensures Text(j, s) == match s
                          case Message(channel, msg) => Lined(channel, j.message(msg))
                          case PolicyEvent(p) => Lined(POLICY_TAG, j.policy(p))
                          case ModerationEvent(p) => Lined(MODERATION_TAG, j.moderation(p))
                          case KeyOffer(p) => Lined(OFFER_TAG, j.offer(p))
                          case SyncAuth(ts, channel, nonce, responder) =>
                            Lined(SYNC_TAG, Lined(Decimal(ts), Lined(channel, Lined(nonce, responder))))
                          case Discovery(ts, nonce, responder) =>
                            Lined(DISCOVERY_TAG, Lined(Decimal(ts), Lined(Ascii("/status"), Lined(nonce, responder))))
                          case Challenge(target, nonce, responder, expires) =>
                            Lined(CHALLENGE_TAG, Lined(target, Lined(nonce, Lined(responder, Decimal(expires)))))
  {
    match s
    case SyncAuth(ts, channel, nonce, responder) => FourLines(Decimal(ts), channel, nonce, responder);
    case Discovery(ts, nonce, responder) => FourLines(Decimal(ts), Ascii("/status"), nonce, responder);
    case Challenge(target, nonce, responder, expires) => FourLines(target, nonce, responder, Decimal(expires));
    case _ =>
  }

  /** The number that a text of digits stands for. */
  function Value(digits: Bytes): int {
    if digits == [] then 0 else 10 * Value(digits[..|digits| - 1]) + digits[|digits| - 1] as int - 48
  }

  lemma {:induction false} DigitsRead(n: nat)
    ensures Value(Digits(n)) == n && Digits(n) != [] && (n > 0 ==> Digits(n)[0] != 48)
    ensures forall i :: 0 <= i < |Digits(n)| ==> 48 <= Digits(n)[i] <= 57
  {
    if n >= 10 { DigitsRead(n / 10); }
    var d := Digits(n);
    assert d[..|d| - 1] == if n < 10 then [] else Digits(n / 10);
  }

  /** The text of a number reads back as that number. */
  lemma DecimalReads(n: int)
    ensures n >= 0 ==> Value(Decimal(n)) == n
    ensures n < 0 ==> Decimal(n)[0] == MINUS && Value(Decimal(n)[1..]) == -n
  {
    DigitsRead(if n < 0 then -n else n);
  }
}
