/** Which key a node writes with after it synchronised: a peer that brings an older key makes that key current. */
module WriteKeys {
  import opened Basics
  import opened Chain
  import opened Proto
  import opened Keyring
  import opened KeyExchange
  import opened Federation
  import opened Sessions
  import M = Moderation

  lemma WriteKeyOfUnion(y: Crypto, mine: seq<ChannelKey>, theirs: seq<ChannelKey>)
    requires RingOk(y, mine) && RingOk(y, theirs)
    ensures Current(Merge(mine, Merge(theirs, mine))) == WriteKey(mine, theirs)
  {
    MergeIds(y, theirs, mine);
    WriteKeyAfterMerge(y, mine, Merge(theirs, mine));
    LackingAfterMerge(mine, theirs, mine);
  }

  /** After all key turns of a session each node writes with the last key of the other that it lacked, however
      old that is, and with the key it wrote with before exactly if it lacked none. */
  lemma WriteKeyAfterSession(c: M.Context, y: Crypto, w: World, k: nat, sn: nat -> Bytes, cn: nat -> Bytes)
    requires Passing(c, y, w, k, sn, cn)
    ensures var i, j := w.sessions[k].client, w.sessions[k].server;
            var a, b := w.nodes[i].ring, w.nodes[j].ring;
            var e := Run(c, y, w, KeyTurns(k, sn, ReturnTurns(k, cn, [])));
            && |e.nodes| == |w.nodes|
            && Current(e.nodes[i].ring) == WriteKey(a, b) && Current(e.nodes[j].ring) == WriteKey(b, a)
            && (WriteKey(a, b) == Current(a) <==> forall id :: id in KeyIds(b) ==> id in KeyIds(a))
            && (WriteKey(b, a) == Current(b) <==> forall id :: id in KeyIds(a) ==> id in KeyIds(b))
  {
    var a, b := w.nodes[w.sessions[k].client].ring, w.nodes[w.sessions[k].server].ring;
    KeyTurnsMerge(c, y, w, k, sn, cn);
    WriteKeyAfterMerge(y, a, b);
    WriteKeyOfUnion(y, b, a);
    WriteKeyStaysIff(a, b);
    WriteKeyStaysIff(b, a);
  }
}
