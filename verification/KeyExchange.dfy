/** What key exchange and rotation achieve together: two members end with the union of their keys, and a
    message stays readable through every later change of the ring.
 */
module KeyExchange {
  import opened Basics
  import opened Chain
  import opened Proto
  import opened Keyring

  const MAX_KEY_OFFERS: nat := 4096

  /** Both rings when the exchange ends, and whether it ran to its end. */
  datatype Outcome = Outcome(client: seq<ChannelKey>, server: seq<ChannelKey>, done: bool)

  /** One batch from `sender`: refused as a whole when it is too long or any offer is refused. */
  function TakeBatch(
    c: Crypto, chan: Bytes, sender: Key, me: Key, mine: seq<ChannelKey>, theirs: seq<ChannelKey>, nonces: nat -> Bytes)
    : Option<seq<ChannelKey>>
  {
    match MakeOffers(c, chan, sender, me, theirs, nonces)
    case None => None
    case Some(offers) => if |offers| > MAX_KEY_OFFERS then None else Accept(c, chan, me, mine, offers)
  }

  /** The server offers first; the client accepts and then offers its enlarged ring back. */
  function Exchange(
    c: Crypto, chan: Bytes, clientId: Key, serverId: Key, client: seq<ChannelKey>, server: seq<ChannelKey>,
    clientNonces: nat -> Bytes, serverNonces: nat -> Bytes): Outcome
  {
    match TakeBatch(c, chan, serverId, clientId, client, server, serverNonces)
    case None => Outcome(client, server, false)
    case Some(grown) =>
      match TakeBatch(c, chan, clientId, serverId, server, grown, clientNonces)
      case None => Outcome(grown, server, false)
      case Some(s) => Outcome(grown, s, true)
  }

  lemma {:induction false} MergeIds(c: Crypto, mine: seq<ChannelKey>, theirs: seq<ChannelKey>)
    requires RingOk(c, mine) && RingOk(c, theirs)
    ensures mine <= Merge(mine, theirs) && RingOk(c, Merge(mine, theirs))
    ensures forall id :: id in KeyIds(Merge(mine, theirs)) <==> id in KeyIds(mine) || id in KeyIds(theirs)
    ensures forall k :: k in Merge(mine, theirs) ==> k in mine || k in theirs
    decreases |theirs|
  {
    if theirs != [] {
      var init, last := theirs[..|theirs| - 1], theirs[|theirs| - 1];
      assert theirs == init + [last];
      MergeIds(c, mine, init);
      AddIds(c, Merge(mine, init), last);
      KeyIdsPush(init, last);
    }
  }

  /** Merging keys that are all known changes nothing. */
  lemma {:induction false} MergeAbsorbs(mine: seq<ChannelKey>, theirs: seq<ChannelKey>)
    requires forall id :: id in KeyIds(theirs) ==> id in KeyIds(mine)
    ensures Merge(mine, theirs) == mine
    decreases |theirs|
  {
    if theirs != [] {
      var init, last := theirs[..|theirs| - 1], theirs[|theirs| - 1];
      assert theirs == init + [last];
      KeyIdsPush(init, last);
      assert last.id in KeyIds(theirs);
      MergeAbsorbs(mine, init);
    }
  }

  /** Merging an extension of one's own ring gives that extension. */
  lemma {:induction false} MergeExtension(c: Crypto, mine: seq<ChannelKey>, theirs: seq<ChannelKey>)
    requires RingOk(c, theirs) && mine <= theirs
    ensures Merge(mine, theirs) == theirs
    decreases |theirs|
  {
    if |mine| == |theirs| {
      MergeAbsorbs(mine, theirs);
    } else {
      var n := |theirs| - 1;
      var init, last := theirs[..n], theirs[n];
      assert theirs == init + [last];
      MergeExtension(c, mine, init);
      KeyIdsPush(init, last);
      assert KeyIds(theirs)[n] == last.id;
      assert forall i :: 0 <= i < n ==> KeyIds(theirs)[i] == KeyIds(init)[i];
    }
  }

  lemma BatchMerges(
    c: Crypto, chan: Bytes, sender: Key, me: Key, mine: seq<ChannelKey>, theirs: seq<ChannelKey>, nonces: nat -> Bytes)
    requires CryptoOk(c) && NoncesOk(nonces) && RingOk(c, theirs) && c.shared(sender, me).Some?
    ensures TakeBatch(c, chan, sender, me, mine, theirs, nonces)
         == if |theirs| <= MAX_KEY_OFFERS then Some(Merge(mine, theirs)) else None
  {
    OffersMerge(c, chan, sender, me, mine, theirs, nonces, |theirs|);
    assert theirs[..|theirs|] == theirs;
  }

  /** Between two identities with a shared secret the exchange runs to its end exactly when neither batch is
      too long, and then merges each ring behind the other. */
  lemma ExchangeMerges(
    c: Crypto, chan: Bytes, clientId: Key, serverId: Key, client: seq<ChannelKey>, server: seq<ChannelKey>,
    clientNonces: nat -> Bytes, serverNonces: nat -> Bytes)
    requires CryptoOk(c) && NoncesOk(clientNonces) && NoncesOk(serverNonces)
    requires RingOk(c, client) && RingOk(c, server) && c.shared(clientId, serverId).Some?
    ensures var o := Exchange(c, chan, clientId, serverId, client, server, clientNonces, serverNonces);
            && (o.done <==> |server| <= MAX_KEY_OFFERS && |Merge(client, server)| <= MAX_KEY_OFFERS)
            && o.client == (if |server| <= MAX_KEY_OFFERS then Merge(client, server) else client)
            && o.server == if o.done then Merge(server, o.client) else server
  {
    assert c.shared(serverId, clientId) == c.shared(clientId, serverId);
    BatchMerges(c, chan, serverId, clientId, client, server, serverNonces);
    MergeIds(c, client, server);
    BatchMerges(c, chan, clientId, serverId, server, Merge(client, server), clientNonces);
  }

  /** After a complete exchange each ring starts with its old keys in their old order, no id repeats, and
      both hold exactly the keys of the two together. */
  lemma ExchangeUnites(
    c: Crypto, u: set<Bytes>, chan: Bytes, clientId: Key, serverId: Key, client: seq<ChannelKey>,
    server: seq<ChannelKey>, clientNonces: nat -> Bytes, serverNonces: nat -> Bytes)
    requires CryptoOk(c) && NoncesOk(clientNonces) && NoncesOk(serverNonces) && NoKeyCollision(c, u)
    requires RingOk(c, client) && RingOk(c, server) && RawsIn(client, u) && RawsIn(server, u)
    requires c.shared(clientId, serverId).Some?
    requires |server| <= MAX_KEY_OFFERS && |Merge(client, server)| <= MAX_KEY_OFFERS
    ensures var o := Exchange(c, chan, clientId, serverId, client, server, clientNonces, serverNonces);
            && o.done && client <= o.client && server <= o.server && RingOk(c, o.client) && RingOk(c, o.server)
            && (forall k :: k in o.client <==> k in client || k in server)
            && (forall k :: k in o.server <==> k in client || k in server)
  {
    ExchangeMerges(c, chan, clientId, serverId, client, server, clientNonces, serverNonces);
    MergeIds(c, client, server);
    MergeIds(c, server, Merge(client, server));
    MergedKeys(c, u, client, server);
  }

  lemma MergedKeys(c: Crypto, u: set<Bytes>, client: seq<ChannelKey>, server: seq<ChannelKey>)
    requires RingOk(c, client) && RingOk(c, server) && RawsIn(client, u) && RawsIn(server, u) && NoKeyCollision(c, u)
    ensures forall k :: k in Merge(client, server) <==> k in client || k in server
    ensures forall k :: k in Merge(server, Merge(client, server)) <==> k in client || k in server
  {
    var grown := Merge(client, server);
    MergeIds(c, client, server);
    MergeIds(c, server, grown);
    forall k | k in client || k in server ensures k in grown && k in Merge(server, grown) {
      SameKey(c, u, client, server, grown, k);
      SameKey(c, u, client, server, Merge(server, grown), k);
    }
  }

  /** A ring that knows every id of the two rings and holds only their keys holds each of their keys. */
  lemma SameKey(
    c: Crypto, u: set<Bytes>, a: seq<ChannelKey>, b: seq<ChannelKey>, r: seq<ChannelKey>, k: ChannelKey)
    requires NoKeyCollision(c, u) && RingOk(c, a) && RingOk(c, b) && RawsIn(a, u) && RawsIn(b, u)
    requires forall id :: id in KeyIds(a) || id in KeyIds(b) ==> id in KeyIds(r)
    requires forall x :: x in r ==> x in a || x in b
    requires k in a || k in b
    ensures k in r
  {
    KeyIdsHas(a, k.id);
    KeyIdsHas(b, k.id);
    KeyIdsHas(r, k.id);
    var x :| x in r && x.id == k.id;
    assert c.keyId(x.raw) == c.keyId(k.raw);
  }

  /** The two rings become identical exactly when one was the beginning of the other; otherwise they hold the
      same keys in different orders, so the key each side would write with may differ. */
  lemma IdenticalIffPrefixRelated(
    c: Crypto, chan: Bytes, clientId: Key, serverId: Key, client: seq<ChannelKey>, server: seq<ChannelKey>,
    clientNonces: nat -> Bytes, serverNonces: nat -> Bytes)
    requires CryptoOk(c) && NoncesOk(clientNonces) && NoncesOk(serverNonces)
    requires RingOk(c, client) && RingOk(c, server) && c.shared(clientId, serverId).Some?
    requires |server| <= MAX_KEY_OFFERS && |Merge(client, server)| <= MAX_KEY_OFFERS
    ensures var o := Exchange(c, chan, clientId, serverId, client, server, clientNonces, serverNonces);
            o.client == o.server <==> client <= server || server <= client
  {
    ExchangeMerges(c, chan, clientId, serverId, client, server, clientNonces, serverNonces);
    MergedIdentical(c, client, server);
  }

  lemma MergedIdentical(c: Crypto, client: seq<ChannelKey>, server: seq<ChannelKey>)
    requires RingOk(c, client) && RingOk(c, server)
    ensures Merge(client, server) == Merge(server, Merge(client, server)) <==> client <= server || server <= client
  {
    var grown := Merge(client, server);
    MergeIds(c, client, server);
    MergeIds(c, server, grown);
    if client <= server {
      MergeExtension(c, client, server);
      MergeAbsorbs(server, server);
    } else if server <= client {
      assert forall i :: 0 <= i < |server| ==> KeyIds(client)[i] == KeyIds(server)[i];
      MergeAbsorbs(client, server);
      MergeExtension(c, server, client);
    }
  }

  /** The last key of `theirs` that `mine` lacks. */
  function LastLacking(mine: seq<ChannelKey>, theirs: seq<ChannelKey>): Option<ChannelKey>
    decreases |theirs|
  {
    if theirs == [] then None
    else if theirs[|theirs| - 1].id !in KeyIds(mine) then Some(theirs[|theirs| - 1])
    else LastLacking(mine, theirs[..|theirs| - 1])
  }

  /** The key a node writes with once it has got another ring. */
  function WriteKey(mine: seq<ChannelKey>, theirs: seq<ChannelKey>): Option<ChannelKey> {
    var k := LastLacking(mine, theirs);
    if k.Some? then k else Current(mine)
  }

  lemma {:induction false} LackingIff(mine: seq<ChannelKey>, theirs: seq<ChannelKey>)
    ensures LastLacking(mine, theirs).None? <==> forall id :: id in KeyIds(theirs) ==> id in KeyIds(mine)
    ensures var k := LastLacking(mine, theirs); k.Some? ==> k.value in theirs && k.value.id !in KeyIds(mine)
    decreases |theirs|
  {
    if theirs != [] {
      var init, last := theirs[..|theirs| - 1], theirs[|theirs| - 1];
      assert theirs == init + [last];
      LackingIff(mine, init);
      KeyIdsPush(init, last);
    }
  }

  /** Accepting keys makes the last one that was lacking the write key, and keeps the write key exactly if none
      was. */
  lemma {:induction false} WriteKeyAfterMerge(c: Crypto, mine: seq<ChannelKey>, theirs: seq<ChannelKey>)
    requires RingOk(c, mine) && RingOk(c, theirs)
    ensures Current(Merge(mine, theirs)) == WriteKey(mine, theirs)
    decreases |theirs|
  {
    if theirs != [] {
      var init, last := theirs[..|theirs| - 1], theirs[|theirs| - 1];
      assert theirs == init + [last];
      WriteKeyAfterMerge(c, mine, init);
      MergeIds(c, mine, init);
      KeyIdsPush(init, last);
      assert KeyIds(theirs)[|init|] == last.id;
      assert last.id !in KeyIds(init);
    }
  }

  lemma WriteKeyStaysIff(mine: seq<ChannelKey>, theirs: seq<ChannelKey>)
    ensures WriteKey(mine, theirs) == Current(mine) <==> forall id :: id in KeyIds(theirs) ==> id in KeyIds(mine)
  {
    LackingIff(mine, theirs);
    if mine != [] { assert KeyIds(mine)[|mine| - 1] == mine[|mine| - 1].id; }
  }

  lemma LackingPush(mine: seq<ChannelKey>, theirs: seq<ChannelKey>, known: ChannelKey)
    requires known.id in KeyIds(mine)
    ensures LastLacking(mine, Add(theirs, known)) == LastLacking(mine, theirs)
  {
    assert (theirs + [known])[..|theirs|] == theirs;
  }

  /** Giving a peer one's own keys first does not change which of its keys is lacking. */
  lemma {:induction false} LackingAfterMerge(mine: seq<ChannelKey>, theirs: seq<ChannelKey>, given: seq<ChannelKey>)
    requires forall id :: id in KeyIds(given) ==> id in KeyIds(mine)
    ensures LastLacking(mine, Merge(theirs, given)) == LastLacking(mine, theirs)
    decreases |given|
  {
    if given != [] {
      var init, last := given[..|given| - 1], given[|given| - 1];
      assert given == init + [last];
      KeyIdsPush(init, last);
      assert last.id in KeyIds(given);
      LackingAfterMerge(mine, theirs, init);
      LackingPush(mine, Merge(theirs, init), last);
    }
  }

  // ---------------------------------------------------------------- messages

  /** Encrypts a text under the newest key. */
  function Encrypt(c: Crypto, chan: Bytes, ring: seq<ChannelKey>, nonce: Bytes, msg: Message): Option<Message> {
    match Current(ring)
    case None => None
    case Some(key) =>
      if |key.raw| != KEY_LENGTH || msg.body.Encrypted? then None else
      var sealed := c.seal(key.raw, nonce, c.messageAad(chan, key.id), msg.body.text);
      Some(msg.(body := Encrypted(key.id, nonce, sealed)))
  }

  /** Decrypts with the key the body names; a plain body is returned as it is. */
  function Decrypt(c: Crypto, ring: seq<ChannelKey>, e: Envelope): Option<Envelope> {
    match e.msg.body
    case Text(_) => Some(e)
    case Encrypted(keyId, nonce, sealed) =>
      match Find(ring, keyId)
      case None => None
      case Some(key) =>
        if |key.raw| != KEY_LENGTH || |nonce| != NONCE_LENGTH then None else
        match c.open(key.raw, nonce, c.messageAad(e.channel, keyId), sealed)
        case None => None
        case Some(text) => if c.utf8(text) then Some(e.(msg := e.msg.(body := Text(text)))) else None
  }

  /** What is stored is the text sealed under the current key, bound to the channel and the key's id: it opens
      under that key, and nothing else of the message is changed. */
  lemma EncryptedOpens(c: Crypto, chan: Bytes, ring: seq<ChannelKey>, nonce: Bytes, msg: Message)
    requires SealOpens(c)
    ensures var m := Encrypt(c, chan, ring, nonce, msg);
            && (m.Some? <==> ring != [] && |ring[|ring| - 1].raw| == KEY_LENGTH && msg.body.Text?)
            && (m.Some? ==>
                  var k, b := ring[|ring| - 1], m.value.body;
                  && m.value == msg.(body := b) && b.Encrypted? && b.keyId == k.id && b.nonce == nonce
                  && b.ciphertext == c.seal(k.raw, nonce, c.messageAad(chan, k.id), msg.body.text)
                  && c.open(k.raw, nonce, c.messageAad(chan, k.id), b.ciphertext) == Some(msg.body.text))
  {
  }

  /** The first key with an id. */
  ghost predicate IsKeyFor(ring: seq<ChannelKey>, id: Id, i: nat) {
    i < |ring| && ring[i].id == id && forall j :: 0 <= j < i ==> ring[j].id != id
  }

  lemma {:induction false} FindFirst(ring: seq<ChannelKey>, id: Id, i: nat)
    requires IsKeyFor(ring, id, i)
    ensures Find(ring, id) == Some(ring[i])
    decreases |ring|
  {
    if i > 0 { FindFirst(ring[1..], id, i - 1); }
  }

  /** An encrypted body yields a text exactly if the ring has its key and the ciphertext opens under that key to
      that text, bound to the envelope's own channel and the key's id. So what opening refuses, be it changed or
      moved to another channel, is refused; nothing else of the envelope is changed. */
  lemma DecryptsIff(c: Crypto, ring: seq<ChannelKey>, e: Envelope, text: Bytes, i: nat)
    requires e.msg.body.Encrypted? && IsKeyFor(ring, e.msg.body.keyId, i)
    ensures var b, d := e.msg.body, Decrypt(c, ring, e);
            && (d == Some(e.(msg := e.msg.(body := Body.Text(text)))) <==>
                && |ring[i].raw| == KEY_LENGTH && |b.nonce| == NONCE_LENGTH && c.utf8(text)
                && c.open(ring[i].raw, b.nonce, c.messageAad(e.channel, b.keyId), b.ciphertext) == Some(text))
            && (d.Some? ==> d.value == e.(msg := e.msg.(body := d.value.msg.body)) && d.value.msg.body.Text?)
  {
    FindFirst(ring, e.msg.body.keyId, i);
  }

  /** Without the key nothing is read, and a plain body is returned as it is. */
  lemma ReadsNothingElse(c: Crypto, ring: seq<ChannelKey>, e: Envelope)
    ensures e.msg.body.Text? ==> Decrypt(c, ring, e) == Some(e)
    ensures e.msg.body.Encrypted? && e.msg.body.keyId !in KeyIds(ring) ==> Decrypt(c, ring, e) == None
  {
  }

  datatype KeyOp = Rotate(raw: Bytes) | Receive(me: Key, offers: seq<Offer>)

  function Evolve(c: Crypto, chan: Bytes, ring: seq<ChannelKey>, op: KeyOp): seq<ChannelKey> {
    match op
    case Rotate(raw) => Rotated(c, ring, raw)
    case Receive(me, offers) =>
      match Accept(c, chan, me, ring, offers)
      case None => ring
      case Some(r) => r
  }

  function EvolveAll(c: Crypto, chan: Bytes, ring: seq<ChannelKey>, ops: seq<KeyOp>): seq<ChannelKey>
    decreases |ops|
  {
    if ops == [] then ring else EvolveAll(c, chan, Evolve(c, chan, ring, ops[0]), ops[1..])
  }

  /** The raw keys an operation brings in belong to the run's keys. */
  ghost predicate OpIn(c: Crypto, chan: Bytes, op: KeyOp, u: set<Bytes>) {
    match op
    case Rotate(raw) => |raw| == KEY_LENGTH && raw in u
    case Receive(me, offers) =>
      forall i :: 0 <= i < |offers| && Unwrap(c, chan, me, offers[i]).Some? ==>
                    Unwrap(c, chan, me, offers[i]).value in u
  }

  lemma {:induction false} AcceptedRaws(
    c: Crypto, chan: Bytes, me: Key, ring: seq<ChannelKey>, offers: seq<Offer>, n: nat, u: set<Bytes>)
    requires n <= |offers| && AcceptFirst(c, chan, me, ring, offers, n).Some?
    requires RawsIn(ring, u) && OpIn(c, chan, Receive(me, offers), u)
    ensures RawsIn(AcceptFirst(c, chan, me, ring, offers, n).value, u)
  {
    if n > 0 { AcceptedRaws(c, chan, me, ring, offers, n - 1, u); }
  }

  /** No operation loses a key. */
  lemma EvolveKeeps(c: Crypto, u: set<Bytes>, chan: Bytes, ring: seq<ChannelKey>, op: KeyOp, k: ChannelKey)
    requires RingOk(c, ring) && RawsIn(ring, u) && NoKeyCollision(c, u) && OpIn(c, chan, op, u) && k in ring
    ensures var r := Evolve(c, chan, ring, op); RingOk(c, r) && RawsIn(r, u) && k in r
  {
    match op
    case Rotate(raw) =>
      RotationKeeps(c, ring, raw);
      var r := Rotated(c, ring, raw);
      forall i | 0 <= i < |r| ensures r[i].raw in u { assert r[i] in r; }
      assert k.id == c.keyId(raw) ==> k.raw == raw;
    case Receive(me, offers) =>
      if Accept(c, chan, me, ring, offers).Some? {
        AcceptingExtends(c, chan, me, ring, offers, |offers|);
        AcceptedRaws(c, chan, me, ring, offers, |offers|, u);
      }
  }

  lemma {:induction false} EvolveAllKeeps(
    c: Crypto, u: set<Bytes>, chan: Bytes, ring: seq<ChannelKey>, ops: seq<KeyOp>, k: ChannelKey)
    requires RingOk(c, ring) && RawsIn(ring, u) && NoKeyCollision(c, u) && k in ring
    requires forall i :: 0 <= i < |ops| ==> OpIn(c, chan, ops[i], u)
    ensures var r := EvolveAll(c, chan, ring, ops); RingOk(c, r) && RawsIn(r, u) && k in r
    decreases |ops|
  {
    if ops != [] {
      EvolveKeeps(c, u, chan, ring, ops[0], k);
      EvolveAllKeeps(c, u, chan, Evolve(c, chan, ring, ops[0]), ops[1..], k);
    }
  }

  /** A message encrypted at any time decrypts to the same text after any later rotations and accepted
      offers. */
  lemma DecryptsForever(
    c: Crypto, u: set<Bytes>, ring: seq<ChannelKey>, nonce: Bytes, msg: Message, e: Envelope, ops: seq<KeyOp>)
    requires CryptoOk(c) && RingOk(c, ring) && RawsIn(ring, u) && NoKeyCollision(c, u)
    requires msg.body.Text? && c.utf8(msg.body.text) && |nonce| == NONCE_LENGTH
    requires Encrypt(c, e.channel, ring, nonce, msg) == Some(e.msg)
    requires forall i :: 0 <= i < |ops| ==> OpIn(c, e.channel, ops[i], u)
    ensures Decrypt(c, EvolveAll(c, e.channel, ring, ops), e) == Some(e.(msg := msg))
  {
    var k := ring[|ring| - 1];
    EvolveAllKeeps(c, u, e.channel, ring, ops, k);
    var aad := c.messageAad(e.channel, k.id);
    assert c.open(k.raw, nonce, aad, c.seal(k.raw, nonce, aad, msg.body.text)) == Some(msg.body.text);
  }

  /** After a rotation new messages use the new key only. */
  lemma RotationSwitchesKey(c: Crypto, chan: Bytes, ring: seq<ChannelKey>, raw: Bytes, nonce: Bytes, msg: Message)
    requires RingOk(c, ring) && |raw| == KEY_LENGTH && msg.body.Text?
    ensures var m := Encrypt(c, chan, Rotated(c, ring, raw), nonce, msg);
            && m.Some? && m.value.body.Encrypted? && m.value.body.keyId == c.keyId(raw)
            && (c.keyId(raw) !in KeyIds(ring) ==> forall e: Envelope :: e.msg == m.value ==> Decrypt(c, ring, e).None?)
  {
    RotationKeeps(c, ring, raw);
  }

  /** Whoever holds the key a node writes with, a removed member for one, reads what it writes. */
  lemma HolderReads(
    c: Crypto, ring: seq<ChannelKey>, outsider: seq<ChannelKey>, nonce: Bytes, msg: Message, e: Envelope)
    requires CryptoOk(c) && RingOk(c, outsider) && Current(ring).Some? && Current(ring).value in outsider
    requires |Current(ring).value.raw| == KEY_LENGTH && |nonce| == NONCE_LENGTH
    requires msg.body.Text? && c.utf8(msg.body.text) && Encrypt(c, e.channel, ring, nonce, msg) == Some(e.msg)
    ensures Decrypt(c, outsider, e) == Some(e.(msg := msg))
  {
    var k := Current(ring).value;
    var aad := c.messageAad(e.channel, k.id);
    assert c.open(k.raw, nonce, aad, c.seal(k.raw, nonce, aad, msg.body.text)) == Some(msg.body.text);
  }

  /** Without key collisions an outsider reads what a node writes exactly if its ring has the id of the key the
      node writes with. */
  lemma OutsiderReadsIff(
    c: Crypto, u: set<Bytes>, ring: seq<ChannelKey>, outsider: seq<ChannelKey>, nonce: Bytes, msg: Message, e: Envelope)
    requires CryptoOk(c) && NoKeyCollision(c, u)
    requires RingOk(c, ring) && RingOk(c, outsider) && RawsIn(ring, u) && RawsIn(outsider, u)
    requires msg.body.Text? && c.utf8(msg.body.text) && |nonce| == NONCE_LENGTH
    requires Encrypt(c, e.channel, ring, nonce, msg) == Some(e.msg)
    ensures Decrypt(c, outsider, e) == Some(e.(msg := msg)) <==> Current(ring).value.id in KeyIds(outsider)
    ensures Decrypt(c, outsider, e).None? <==> Current(ring).value.id !in KeyIds(outsider)
  {
    var k := ring[|ring| - 1];
    if k.id in KeyIds(outsider) {
      var found := Find(outsider, k.id).value;
      var i :| 0 <= i < |outsider| && outsider[i] == found;
      assert KeyOk(c, outsider[i]) && KeyOk(c, ring[|ring| - 1]);
      var aad := c.messageAad(e.channel, k.id);
      assert c.open(k.raw, nonce, aad, c.seal(k.raw, nonce, aad, msg.body.text)) == Some(msg.body.text);
    }
  }
}
