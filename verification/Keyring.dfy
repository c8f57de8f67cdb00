/** Channel keyrings: rotation, offers wrapped for one recipient, acceptance of a batch, and the encryption
    of messages under the newest key.
 */
module Keyring {
  import opened Basics
  import opened Chain
  import opened Proto

  const KEY_LENGTH: nat := 32
  const NONCE_LENGTH: nat := 24

  datatype ChannelKey = ChannelKey(id: Id, raw: Bytes)

  datatype OfferPayload = OfferPayload(
    channel: Bytes, keyId: Id, sender: Key, recipient: Key, nonce: Bytes, ciphertext: Bytes)

  datatype Offer = Offer(payload: OfferPayload, sig: Bytes)

  /** Hashing of raw keys, authenticated encryption under (key, nonce, associated data), the shared secret of
      two identities where there is a usable one, the key that wraps a channel key, and signatures. */
  datatype Crypto = Crypto(
    keyId: Bytes -> Id,
    seal: (Bytes, Bytes, Bytes, Bytes) -> Bytes,
    open: (Bytes, Bytes, Bytes, Bytes) -> Option<Bytes>,
    shared: (Key, Key) -> Option<Bytes>,
    wrapKey: (Bytes, Bytes, Id) -> Bytes,
    offerAad: (Bytes, Id, Key, Key) -> Bytes,
    messageAad: (Bytes, Id) -> Bytes,
    sign: (Key, OfferPayload) -> Bytes,
    verify: (Key, Bytes, OfferPayload) -> bool,
    utf8: Bytes -> bool)

  /** What was sealed opens again under the same key, nonce and associated data. */
  ghost predicate SealOpens(c: Crypto) {
    forall key, nonce, aad, plain :: c.open(key, nonce, aad, c.seal(key, nonce, aad, plain)) == Some(plain)
  }

  /** Both ends of a key exchange compute the same secret. */
  ghost predicate SharedIsSymmetric(c: Crypto) {
    forall a, b :: c.shared(a, b) == c.shared(b, a)
  }

  ghost predicate SignaturesVerify(c: Crypto) {
    forall k, p :: c.verify(k, c.sign(k, p), p)
  }

  ghost predicate CryptoOk(c: Crypto) {
    SealOpens(c) && SharedIsSymmetric(c) && SignaturesVerify(c)
  }

  /** The raw keys of some run have different ids; the set is finite. */
  ghost predicate NoKeyCollision(c: Crypto, u: set<Bytes>) {
    forall a, b :: a in u && b in u && c.keyId(a) == c.keyId(b) ==> a == b
  }

  function KeyIds(ring: seq<ChannelKey>): (ids: seq<Id>)
    ensures |ids| == |ring| && forall i :: 0 <= i < |ring| ==> ids[i] == ring[i].id
  {
    seq(|ring|, i requires 0 <= i < |ring| => ring[i].id)
  }

  ghost predicate KeyOk(c: Crypto, k: ChannelKey) {
    |k.raw| == KEY_LENGTH && k.id == c.keyId(k.raw)
  }

  /** Every key is named by its hash and no name repeats. */
  ghost predicate RingOk(c: Crypto, ring: seq<ChannelKey>) {
    Distinct(KeyIds(ring)) && forall i :: 0 <= i < |ring| ==> KeyOk(c, ring[i])
  }

  ghost predicate RawsIn(ring: seq<ChannelKey>, u: set<Bytes>) {
    forall i :: 0 <= i < |ring| ==> ring[i].raw in u
  }

  // ---------------------------------------------------------------- rotation

  function Retained(ring: seq<ChannelKey>, id: Id): seq<ChannelKey> {
    if ring == [] then [] else
    var n := |ring| - 1;
    Retained(ring[..n], id) + if ring[n].id == id then [] else [ring[n]]
  }

  /** A new key becomes the last one; an equal id is dropped first. */
  function Rotated(c: Crypto, ring: seq<ChannelKey>, raw: Bytes): seq<ChannelKey> {
    Retained(ring, c.keyId(raw)) + [ChannelKey(c.keyId(raw), raw)]
  }

  lemma {:induction false} RetainedHas(ring: seq<ChannelKey>, id: Id)
    ensures forall k :: k in Retained(ring, id) <==> k in ring && k.id != id
    ensures id !in KeyIds(ring) ==> Retained(ring, id) == ring
  {
    if ring != [] {
      var init, last := ring[..|ring| - 1], ring[|ring| - 1];
      assert ring == init + [last];
      RetainedHas(init, id);
      KeyIdsPush(init, last);
    }
  }

  lemma KeyIdsPush(ring: seq<ChannelKey>, key: ChannelKey)
    ensures KeyIds(ring + [key]) == KeyIds(ring) + [key.id]
  {
  }

  lemma KeyIdsHas(ring: seq<ChannelKey>, id: Id)
    ensures id in KeyIds(ring) <==> exists k :: k in ring && k.id == id
  {
  }

  lemma {:induction false} RetainedOk(c: Crypto, ring: seq<ChannelKey>, id: Id)
    requires RingOk(c, ring)
    ensures RingOk(c, Retained(ring, id))
  {
    if ring != [] {
      var init, last := ring[..|ring| - 1], ring[|ring| - 1];
      assert ring == init + [last];
      RetainedOk(c, init, id);
      if last.id != id {
        RetainedHas(init, id);
        KeyIdsHas(init, last.id);
        KeyIdsHas(Retained(init, id), last.id);
        KeyIdsPush(init, last);
        assert last.id !in KeyIds(init);
      }
    }
  }

  lemma PushDistinct(r: seq<ChannelKey>, k: ChannelKey)
    requires Distinct(KeyIds(r)) && k.id !in KeyIds(r)
    ensures Distinct(KeyIds(r + [k]))
  {
    KeyIdsPush(r, k);
  }

  /** Rotation keeps every other key and the ring's shape, makes the new key current, and for a new key
      leaves the old ring as it was in front. */
  lemma RotationKeeps(c: Crypto, ring: seq<ChannelKey>, raw: Bytes)
    requires RingOk(c, ring) && |raw| == KEY_LENGTH
    ensures RingOk(c, Rotated(c, ring, raw)) && Current(Rotated(c, ring, raw)) == Some(ChannelKey(c.keyId(raw), raw))
    ensures forall k :: k in Rotated(c, ring, raw) <==>
                        (k in ring && k.id != c.keyId(raw)) || k == ChannelKey(c.keyId(raw), raw)
    ensures c.keyId(raw) !in KeyIds(ring) ==> ring <= Rotated(c, ring, raw)
  {
    RetainedHas(ring, c.keyId(raw));
    RetainedOk(c, ring, c.keyId(raw));
    var r, key := Retained(ring, c.keyId(raw)), ChannelKey(c.keyId(raw), raw);
    KeyIdsHas(r, key.id);
    PushDistinct(r, key);
  }

  function Current(ring: seq<ChannelKey>): Option<ChannelKey> {
    if ring == [] then None else Some(ring[|ring| - 1])
  }

  /** The first key with this id. */
  function Find(ring: seq<ChannelKey>, id: Id): (r: Option<ChannelKey>)
    ensures r.Some? ==> r.value in ring && r.value.id == id
    ensures r.None? <==> id !in KeyIds(ring)
  {
    if ring == [] then None
    else if ring[0].id == id then assert KeyIds(ring)[0] == id; Some(ring[0])
    else
      assert forall i :: 1 <= i < |ring| ==> KeyIds(ring)[i] == KeyIds(ring[1..])[i - 1];
      Find(ring[1..], id)
  }

  // ---------------------------------------------------------------- offers

  /** The offer of one key; there is none when the two identities share no usable secret. */
  function MakeOffer(c: Crypto, chan: Bytes, sender: Key, recipient: Key, key: ChannelKey, nonce: Bytes)
    : Option<Offer>
  {
    if |key.raw| != KEY_LENGTH then None else
    match c.shared(sender, recipient)
    case None => None
    case Some(secret) =>
      var wrap, aad := c.wrapKey(secret, chan, key.id), c.offerAad(chan, key.id, sender, recipient);
      var sealed := c.seal(wrap, nonce, aad, key.raw);
      var payload := OfferPayload(chan, key.id, sender, recipient, nonce, sealed);
      Some(Offer(payload, c.sign(sender, payload)))
  }

  /** One offer for each key of the ring, in order; `nonces` stands for the random generator. */
  function MakeOffers(
    c: Crypto, chan: Bytes, sender: Key, recipient: Key, ring: seq<ChannelKey>, nonces: nat -> Bytes)
    : Option<seq<Offer>>
  {
    if ring == [] then Some([]) else
    var n := |ring| - 1;
    match MakeOffers(c, chan, sender, recipient, ring[..n], nonces)
    case None => None
    case Some(offers) =>
      match MakeOffer(c, chan, sender, recipient, ring[n], nonces(n))
      case None => None
      case Some(offer) => Some(offers + [offer])
  }

  /** The raw key inside an offer, if the offer is addressed to `me` on this channel, is signed by its sender,
      opens, and names the key it carries. */
  function Unwrap(c: Crypto, chan: Bytes, me: Key, offer: Offer): Option<Bytes> {
    var p := offer.payload;
    if p.channel != chan || p.recipient != me || !c.verify(p.sender, offer.sig, p) then None else
    match c.shared(me, p.sender)
    case None => None
    case Some(secret) =>
      if |p.nonce| != NONCE_LENGTH then None else
      match c.open(c.wrapKey(secret, chan, p.keyId), p.nonce, c.offerAad(chan, p.keyId, p.sender, p.recipient),
                   p.ciphertext)
      case None => None
      case Some(raw) => if |raw| == KEY_LENGTH && c.keyId(raw) == p.keyId then Some(raw) else None
  }

  /** Adds a key unless its id is known. */
  function Add(ring: seq<ChannelKey>, key: ChannelKey): seq<ChannelKey> {
    if key.id in KeyIds(ring) then ring else ring + [key]
  }

  /** The ring after the first `n` offers of a batch, or `None` if one of them is refused. */
  function AcceptFirst(c: Crypto, chan: Bytes, me: Key, ring: seq<ChannelKey>, offers: seq<Offer>, n: nat)
    : Option<seq<ChannelKey>>
    requires n <= |offers|
  {
    if n == 0 then Some(ring) else
    match AcceptFirst(c, chan, me, ring, offers, n - 1)
    case None => None
    case Some(before) =>
      match Unwrap(c, chan, me, offers[n - 1])
      case None => None
      case Some(raw) => Some(Add(before, ChannelKey(offers[n - 1].payload.keyId, raw)))
  }

  function Accept(c: Crypto, chan: Bytes, me: Key, ring: seq<ChannelKey>, offers: seq<Offer>): Option<seq<ChannelKey>> {
    AcceptFirst(c, chan, me, ring, offers, |offers|)
  }

  lemma {:induction false} RefusedStaysRefused(
    c: Crypto, chan: Bytes, me: Key, ring: seq<ChannelKey>, offers: seq<Offer>, k: nat, n: nat)
    requires k <= n <= |offers| && AcceptFirst(c, chan, me, ring, offers, k).None?
    ensures AcceptFirst(c, chan, me, ring, offers, n).None?
    decreases n
  {
    if k < n { RefusedStaysRefused(c, chan, me, ring, offers, k, n - 1); }
  }

  /** The keyring file of one channel. */
  class KeyringFile {
    const c: Crypto
    const chan: Bytes
    var keys: seq<ChannelKey>

    constructor (c: Crypto, chan: Bytes)
      ensures this.c == c && this.chan == chan && keys == []
    {
      this.c, this.chan, keys := c, chan, [];
    }

    /** Drops an equal id and pushes the new key. */
    method Generate(raw: Bytes) returns (key: ChannelKey)
      modifies this
      ensures keys == Rotated(c, old(keys), raw) && key == ChannelKey(c.keyId(raw), raw)
    {
      key := ChannelKey(c.keyId(raw), raw);
      var kept: seq<ChannelKey> := [];
      for i := 0 to |keys|
        invariant kept == Retained(keys[..i], key.id)
      {
        assert keys[..i + 1][..i] == keys[..i];
        if keys[i].id != key.id { kept := kept + [keys[i]]; }
      }
      assert keys[..|keys|] == keys;
      keys := kept + [key];
    }

    /** Accepts a whole batch or changes nothing; counts the keys that were new. */
    method AcceptOffers(me: Key, offers: seq<Offer>) returns (accepted: Option<nat>)
      modifies this
      ensures accepted.Some? <==> Accept(c, chan, me, old(keys), offers).Some?
      ensures accepted.None? ==> keys == old(keys)
      ensures accepted.Some? ==> Accept(c, chan, me, old(keys), offers) == Some(keys)
      ensures accepted.Some? ==> |keys| == |old(keys)| + accepted.value
    {
      var ring, count := keys, 0;
      for i := 0 to |offers|
        invariant keys == old(keys) && AcceptFirst(c, chan, me, keys, offers, i) == Some(ring)
        invariant |ring| == |keys| + count && (count == 0 ==> ring == keys)
      {
        var raw := Unwrap(c, chan, me, offers[i]);
        if raw.None? {
          RefusedStaysRefused(c, chan, me, keys, offers, i + 1, |offers|);
          return None;
        }
        if offers[i].payload.keyId !in KeyIds(ring) {
          ring := ring + [ChannelKey(offers[i].payload.keyId, raw.value)];
          count := count + 1;
        }
      }
      if count > 0 { keys := ring; }
      accepted := Some(count);
    }
  }

  // ---------------------------------------------------------------- what accepting does

  /** Accepting keeps the old keys in front and in order, adds exactly the offered ids, and keeps the shape. */
  lemma {:induction false} AcceptingExtends(
    c: Crypto, chan: Bytes, me: Key, ring: seq<ChannelKey>, offers: seq<Offer>, n: nat)
    requires RingOk(c, ring) && n <= |offers| && AcceptFirst(c, chan, me, ring, offers, n).Some?
    ensures var r := AcceptFirst(c, chan, me, ring, offers, n).value;
            && ring <= r && RingOk(c, r)
            && forall id :: id in KeyIds(r) <==>
                            id in KeyIds(ring) || exists i :: 0 <= i < n && offers[i].payload.keyId == id
  {
    if n > 0 {
      AcceptingExtends(c, chan, me, ring, offers, n - 1);
      var before := AcceptFirst(c, chan, me, ring, offers, n - 1).value;
      var key := ChannelKey(offers[n - 1].payload.keyId, Unwrap(c, chan, me, offers[n - 1]).value);
      AddIds(c, before, key);
    }
  }

  lemma AddIds(c: Crypto, ring: seq<ChannelKey>, key: ChannelKey)
    requires RingOk(c, ring) && KeyOk(c, key)
    ensures ring <= Add(ring, key) && RingOk(c, Add(ring, key))
    ensures forall id :: id in KeyIds(Add(ring, key)) <==> id in KeyIds(ring) || id == key.id
  {
    if key.id !in KeyIds(ring) {
      assert KeyIds(ring + [key]) == KeyIds(ring) + [key.id];
    }
  }

  /** The keys of `theirs` whose ids are new, added behind `mine`. */
  function Merge(mine: seq<ChannelKey>, theirs: seq<ChannelKey>): seq<ChannelKey>
    decreases |theirs|
  {
    if theirs == [] then mine else Add(Merge(mine, theirs[..|theirs| - 1]), theirs[|theirs| - 1])
  }

  /** The recipient recovers exactly the key that was wrapped for it. */
  lemma OfferUnwraps(c: Crypto, chan: Bytes, sender: Key, me: Key, key: ChannelKey, nonce: Bytes)
    requires CryptoOk(c) && KeyOk(c, key) && |nonce| == NONCE_LENGTH
    requires MakeOffer(c, chan, sender, me, key, nonce).Some?
    ensures Unwrap(c, chan, me, MakeOffer(c, chan, sender, me, key, nonce).value) == Some(key.raw)
  {
    assert c.shared(sender, me) == c.shared(me, sender);
    var offer := MakeOffer(c, chan, sender, me, key, nonce).value;
    assert c.verify(sender, offer.sig, offer.payload);
    var wrap := c.wrapKey(c.shared(me, sender).value, chan, key.id);
    assert c.open(wrap, nonce, c.offerAad(chan, key.id, sender, me), offer.payload.ciphertext) == Some(key.raw);
  }

  /** An offer is made exactly for a key of the right length, to someone with whom a secret is shared. It is
      addressed, names the key, is signed by its sender, and its ciphertext opens under the wrapping key of that
      secret, bound to channel, key and both identities, to the raw key. */
  lemma OfferSeals(c: Crypto, chan: Bytes, sender: Key, recipient: Key, key: ChannelKey, nonce: Bytes)
    requires SealOpens(c)
    ensures var o, secret := MakeOffer(c, chan, sender, recipient, key, nonce), c.shared(sender, recipient);
            && (o.Some? <==> |key.raw| == KEY_LENGTH && secret.Some?)
            && (o.Some? ==>
                  var p := o.value.payload;
                  && p.channel == chan && p.keyId == key.id && p.sender == sender && p.recipient == recipient
                  && p.nonce == nonce && o.value.sig == c.sign(sender, p)
                  && p.ciphertext == c.seal(c.wrapKey(secret.value, chan, key.id), nonce,
                                            c.offerAad(chan, key.id, sender, recipient), key.raw)
                  && c.open(c.wrapKey(secret.value, chan, key.id), nonce, c.offerAad(chan, key.id, sender, recipient),
                            p.ciphertext) == Some(key.raw))
  {
  }

  /** An offer yields a raw key exactly if it is addressed to this identity on this channel, is signed by its
      sender, a secret is shared with the sender, and under it the ciphertext opens to a key of the right length
      whose hash is the id that the offer names. Anything else, such as an offer for someone else or one for
      another channel, is refused. */
  lemma UnwrapsIff(c: Crypto, chan: Bytes, me: Key, o: Offer, raw: Bytes)
    ensures var p, secret := o.payload, c.shared(me, o.payload.sender);
            Unwrap(c, chan, me, o) == Some(raw) <==>
            && p.channel == chan && p.recipient == me && c.verify(p.sender, o.sig, p) && secret.Some?
            && |p.nonce| == NONCE_LENGTH && |raw| == KEY_LENGTH && c.keyId(raw) == p.keyId
            && c.open(c.wrapKey(secret.value, chan, p.keyId), p.nonce, c.offerAad(chan, p.keyId, p.sender, me),
                      p.ciphertext) == Some(raw)
  {
  }

  ghost predicate NoncesOk(nonces: nat -> Bytes) {
    forall i :: |nonces(i)| == NONCE_LENGTH
  }

  lemma {:induction false} OffersMade(
    c: Crypto, chan: Bytes, sender: Key, me: Key, ring: seq<ChannelKey>, nonces: nat -> Bytes)
    requires RingOk(c, ring) && c.shared(sender, me).Some?
    ensures var o := MakeOffers(c, chan, sender, me, ring, nonces);
            && o.Some? && |o.value| == |ring|
            && forall i: nat :: i < |ring| ==> Some(o.value[i]) == MakeOffer(c, chan, sender, me, ring[i], nonces(i))
  {
    if ring != [] {
      OffersMade(c, chan, sender, me, ring[..|ring| - 1], nonces);
    }
  }

  /** Offers made from a ring are all accepted, and accepting them merges that ring behind one's own. */
  lemma {:induction false} OffersMerge(
    c: Crypto, chan: Bytes, sender: Key, me: Key, mine: seq<ChannelKey>, theirs: seq<ChannelKey>, nonces: nat -> Bytes,
    n: nat)
    requires CryptoOk(c) && NoncesOk(nonces) && RingOk(c, theirs) && c.shared(sender, me).Some? && n <= |theirs|
    ensures MakeOffers(c, chan, sender, me, theirs, nonces).Some?
    ensures |MakeOffers(c, chan, sender, me, theirs, nonces).value| == |theirs|
    ensures AcceptFirst(c, chan, me, mine, MakeOffers(c, chan, sender, me, theirs, nonces).value, n)
         == Some(Merge(mine, theirs[..n]))
  {
    OffersMade(c, chan, sender, me, theirs, nonces);
    if n > 0 {
      OffersMerge(c, chan, sender, me, mine, theirs, nonces, n - 1);
      OfferUnwraps(c, chan, sender, me, theirs[n - 1], nonces(n - 1));
      assert theirs[..n][..n - 1] == theirs[..n - 1];
    }
  }
}
