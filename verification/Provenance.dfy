/** Which envelopes, not only which ids, a message sync leaves behind. */
module Provenance {
  import opened Basics
  import opened Chain
  import opened Proto
  import opened LogFormat
  import opened LogIndex
  import opened BucketSync
  import opened SyncResults

  /** Every envelope of `es` is in one of the two logs. */
  ghost predicate Sourced(es: seq<Envelope>, a: seq<Envelope>, b: seq<Envelope>) {
    forall e :: e in es ==> e in a || e in b
  }

  ghost predicate AllSourced(s: Session, a: seq<Envelope>, b: seq<Envelope>) {
    && Sourced(s.client.log, a, b) && Sourced(s.server.log, a, b)
    && (s.phase.Transfer? ==> Sourced(s.phase.down, a, b) && Sourced(s.phase.up, a, b))
  }

  lemma {:induction false} RunSourced(c: Codec, s: Session, steps: seq<Step>, a: seq<Envelope>, b: seq<Envelope>)
    requires AllSourced(s, a, b) && Quiet(steps)
    ensures AllSourced(Run(c, s, steps), a, b)
    decreases |steps|
  {
    if steps != [] {
      assert !steps[0].Interfere?;
      assert forall i :: 0 <= i < |steps[1..]| ==> steps[1..][i] == steps[i + 1];
      RunSourced(c, Act(c, s, steps[0]), steps[1..], a, b);
    }
  }

  /** Without other writers every envelope that is logged or on its way comes from one of the two logs. */
  lemma EnvelopesComeFromTheLogs(c: Codec, client: Side, server: Side, steps: seq<Step>)
    requires Quiet(steps)
    ensures AllSourced(Run(c, Begin(client, server), steps), client.log, server.log)
  {
    RunSourced(c, Begin(client, server), steps, client.log, server.log);
  }

  // ---------------------------------------------------------------- when the envelopes agree

  /** No id stands for different envelopes in the two logs. */
  ghost predicate OneEnvelopePerId(a: seq<Envelope>, b: seq<Envelope>) {
    forall x, y :: x in a && y in b && x.id == y.id ==> x == y
  }

  ghost predicate SameEnvelopes(a: seq<Envelope>, b: seq<Envelope>) {
    forall e :: e in a <==> e in b
  }

  /** In a log without repeated ids an id stands for one envelope. */
  lemma IdNamesOne(es: seq<Envelope>, x: Envelope, y: Envelope)
    requires Distinct(Ids(es)) && x in es && y in es && x.id == y.id
    ensures x == y
  {
    var i, j :| 0 <= i < |es| && 0 <= j < |es| && es[i] == x && es[j] == y;
    assert Ids(es)[i] == Ids(es)[j];
  }

  lemma HoldsId(es: seq<Envelope>, id: Id)
    requires id in IdSet(es)
    ensures exists e :: e in es && e.id == id
  {
    var i :| 0 <= i < |Ids(es)| && Ids(es)[i] == id;
    assert es[i] in es;
  }

  /** One direction for one envelope: it is the other log's, too. */
  lemma CarriedOver(
    x: Envelope, a: seq<Envelope>, b: seq<Envelope>, from: seq<Envelope>, to: seq<Envelope>)
    requires Distinct(Ids(a)) && Distinct(Ids(b)) && OneEnvelopePerId(a, b)
    requires Sourced(from, a, b) && Sourced(to, a, b) && x in from && IdSet(from) <= IdSet(to)
    ensures x in to
  {
    var i :| 0 <= i < |from| && from[i] == x;
    assert Ids(from)[i] == x.id;
    HoldsId(to, x.id);
    var y :| y in to && y.id == x.id;
  }

  lemma GrownLogHas(a: seq<Envelope>, b: seq<Envelope>, e: Envelope)
    requires a <= b && e in a
    ensures e in b
  {
    var i :| 0 <= i < |a| && a[i] == e;
    assert b[i] == e;
  }

  lemma AgreeIff(a: seq<Envelope>, b: seq<Envelope>, grownA: seq<Envelope>, grownB: seq<Envelope>)
    requires Distinct(Ids(a)) && Distinct(Ids(b)) && Distinct(Ids(grownA))
    requires a <= grownA && b <= grownB && IdSet(grownA) == IdSet(grownB)
    requires Sourced(grownA, a, b) && Sourced(grownB, a, b)
    ensures SameEnvelopes(grownA, grownB) <==> OneEnvelopePerId(a, b)
  {
    if OneEnvelopePerId(a, b) {
      forall e ensures e in grownA <==> e in grownB {
        if e in grownA { CarriedOver(e, a, b, grownA, grownB); }
        if e in grownB { CarriedOver(e, a, b, grownB, grownA); }
      }
    }
    if SameEnvelopes(grownA, grownB) {
      forall x, y | x in a && y in b && x.id == y.id ensures x == y {
        GrownLogHas(a, grownA, x);
        GrownLogHas(b, grownB, y);
        IdNamesOne(grownA, x, y);
      }
    }
  }

  /** A completed sync without other writers leaves both nodes with the same envelopes exactly if no id stood
      for different envelopes in the two logs before. */
  lemma SameEnvelopesIff(c: Codec, client: Side, server: Side, steps: seq<Step>)
    requires CodecOk(c) && SidesOk(c, client, server) && Quiet(steps)
    requires var s := Run(c, Begin(client, server), steps);
             s.phase.Complete? && NoBucketCollision(c, s.serverAt, s.clientAt)
    ensures var s := Run(c, Begin(client, server), steps);
            SameEnvelopes(s.client.log, s.server.log) <==> OneEnvelopePerId(client.log, server.log)
  {
    var s := Run(c, Begin(client, server), steps);
    QuietSync(c, client, server, steps);
    RunKeeps(c, Begin(client, server), steps);
    EnvelopesComeFromTheLogs(c, client, server, steps);
    AgreeIff(client.log, server.log, s.client.log, s.server.log);
  }

  // ---------------------------------------------------------------- one id, two envelopes

  /** The envelope a signer makes of a message. */
  function Signed(c: Primitives, signer: Key, channel: Bytes, msg: Message): Envelope {
    Envelope(MessageId(c, msg), channel, signer, None, msg.ts, c.sign(signer, SignedBytes(c, channel, msg)), msg)
  }

  /** Two identities that sign the same message make two genuine envelopes with one id. */
  lemma TwoSignersOneId(c: Primitives, a: Key, b: Key, channel: Bytes, msg: Message)
    requires PrimitivesOk(c) && a != b
    ensures var x, y := Signed(c, a, channel, msg), Signed(c, b, channel, msg);
            Genuine(c, x) && Genuine(c, y) && x.id == y.id && x != y
  {
    assert c.verify(a, c.sign(a, SignedBytes(c, channel, msg)), SignedBytes(c, channel, msg));
    assert c.verify(b, c.sign(b, SignedBytes(c, channel, msg)), SignedBytes(c, channel, msg));
  }
}
