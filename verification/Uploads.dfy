/** The server's receive loop: it takes requested envelopes, each once, until nothing is wanted any more. */
module Uploads {
  import opened Basics
  import opened Chain
  import opened Proto
  import opened LogFormat
  import opened LogIndex
  import opened ChannelLog
  import Policy

  /** What arrives on the socket: an envelope, a text that is none, or another kind of frame. */
  datatype Frame = Upload(env: Envelope) | Malformed | Control

  /** The envelopes among the first `k` frames. */
  function Sent(frames: seq<Frame>, k: nat): seq<Envelope>
    requires k <= |frames|
  {
    if k == 0 then [] else
    Sent(frames, k - 1) + if frames[k - 1].Upload? then [frames[k - 1].env] else []
  }

  /** An envelope the channel can take, or a frame to skip. */
  predicate Passes(c: Codec, chan: Bytes, policy: Policy.ChannelPolicy, f: Frame) {
    match f
    case Upload(e) => e.channel == chan && Genuine(c.prims, e) && Policy.AllowsAppend(policy, e.from)
    case Malformed => false
    case Control => true
  }

  /** The first `k` frames hold nothing unacceptable and every wanted id exactly once. */
  ghost predicate Delivers(
    c: Codec, chan: Bytes, policy: Policy.ChannelPolicy, frames: seq<Frame>, k: nat, wanted: set<Id>)
    requires k <= |frames|
  {
    && (forall i :: 0 <= i < k ==> Passes(c, chan, policy, frames[i]))
    && multiset(Ids(Sent(frames, k))) == multiset(wanted)
  }

  /** The log after one more envelope was offered. */
  function Offered(es: seq<Envelope>, e: Envelope): seq<Envelope> {
    if e.id in Ids(es) then es else es + [e]
  }

  /** The log after these envelopes were offered one by one: a known id changes nothing. */
  function Merged(es: seq<Envelope>, more: seq<Envelope>): seq<Envelope>
    decreases |more|
  {
    if more == [] then es else
    Offered(Merged(es, more[..|more| - 1]), more[|more| - 1])
  }

  lemma IdsSnoc(es: seq<Envelope>, e: Envelope)
    ensures Ids(es + [e]) == Ids(es) + [e.id]
  {
  }

  /** Merging keeps the old log as a prefix and adds exactly the offered ids. */
  lemma {:induction false} MergedIds(es: seq<Envelope>, more: seq<Envelope>)
    ensures es <= Merged(es, more)
    ensures forall id :: id in Ids(Merged(es, more)) <==> id in Ids(es) || id in Ids(more)
    decreases |more|
  {
    if more != [] {
      var init, e := more[..|more| - 1], more[|more| - 1];
      MergedIds(es, init);
      assert more == init + [e];
      IdsSnoc(init, e);
      IdsSnoc(Merged(es, init), e);
    }
  }

  lemma {:induction false} SentGrows(frames: seq<Frame>, k: nat, n: nat)
    requires k <= n <= |frames|
    ensures multiset(Ids(Sent(frames, k))) <= multiset(Ids(Sent(frames, n)))
    decreases n
  {
    if k < n {
      SentGrows(frames, k, n - 1);
      SentStep(frames, n - 1);
    }
  }

  lemma SentStep(frames: seq<Frame>, k: nat)
    requires k < |frames|
    ensures multiset(Ids(Sent(frames, k + 1))) ==
            multiset(Ids(Sent(frames, k))) + if frames[k].Upload? then multiset{frames[k].env.id} else multiset{}
  {
    if frames[k].Upload? {
      IdsSnoc(Sent(frames, k), frames[k].env);
    } else {
      assert Sent(frames, k) + [] == Sent(frames, k);
    }
  }

  /** While something is still wanted the frames read so far are not yet a delivery, nor is any part. */
  lemma TooEarly(
    c: Codec, chan: Bytes, policy: Policy.ChannelPolicy, frames: seq<Frame>, k: nat, n: nat, ids: set<Id>,
    wanted: set<Id>)
    requires k <= n <= |frames| && wanted != {}
    requires multiset(Ids(Sent(frames, n))) + multiset(wanted) == multiset(ids)
    ensures !Delivers(c, chan, policy, frames, k, ids)
  {
    SentGrows(frames, k, n);
    var id :| id in wanted;
    assert multiset(wanted)[id] == 1 && multiset(ids)[id] <= 1;
    assert multiset(Ids(Sent(frames, n)))[id] == 0;
  }

  /** An envelope that was not wanted at its turn spoils every longer stretch. */
  lemma Unrequested(
    c: Codec, chan: Bytes, policy: Policy.ChannelPolicy, frames: seq<Frame>, k: nat, n: nat, ids: set<Id>,
    wanted: set<Id>)
    requires n < k <= |frames| && frames[n].Upload? && frames[n].env.id !in wanted
    requires multiset(Ids(Sent(frames, n))) + multiset(wanted) == multiset(ids)
    ensures !Delivers(c, chan, policy, frames, k, ids)
  {
    var id := frames[n].env.id;
    SentStep(frames, n);
    SentGrows(frames, n + 1, k);
    assert multiset(Ids(Sent(frames, n)))[id] == multiset(ids)[id];
    assert multiset(Ids(Sent(frames, k)))[id] > multiset(ids)[id];
  }

  /** No first part of the stream is a delivery. */
  ghost predicate Undeliverable(
    c: Codec, chan: Bytes, policy: Policy.ChannelPolicy, frames: seq<Frame>, wanted: set<Id>)
  {
    forall k: nat :: k <= |frames| ==> !Delivers(c, chan, policy, frames, k, wanted)
  }

  /** Failing at frame `n` means that no stretch of the stream is a delivery. */
  lemma NoDelivery(
    c: Codec, chan: Bytes, policy: Policy.ChannelPolicy, frames: seq<Frame>, n: nat, ids: set<Id>, wanted: set<Id>)
    requires n <= |frames| && wanted != {}
    requires multiset(Ids(Sent(frames, n))) + multiset(wanted) == multiset(ids)
    requires n < |frames| ==>
               !Passes(c, chan, policy, frames[n]) || (frames[n].Upload? && frames[n].env.id !in wanted)
    ensures Undeliverable(c, chan, policy, frames, ids)
  {
    forall k: nat | k <= |frames| ensures !Delivers(c, chan, policy, frames, k, ids) {
      if k <= n {
        TooEarly(c, chan, policy, frames, k, n, ids, wanted);
      } else if Passes(c, chan, policy, frames[n]) {
        Unrequested(c, chan, policy, frames, k, n, ids, wanted);
      }
    }
  }

  /** The state of the loop after `n` frames, none of which stopped it. */
  ghost predicate Progress(
    c: Codec, chan: Bytes, policy: Policy.ChannelPolicy, frames: seq<Frame>, n: nat, ids: set<Id>, wanted: set<Id>,
    received: nat)
  {
    && n <= |frames| && received == |Sent(frames, n)| && received + |wanted| == |ids|
    && (forall i :: 0 <= i < n ==> Passes(c, chan, policy, frames[i]))
    && multiset(Ids(Sent(frames, n))) + multiset(wanted) == multiset(ids)
  }

  lemma ProgressSkips(
    c: Codec, chan: Bytes, policy: Policy.ChannelPolicy, frames: seq<Frame>, n: nat, ids: set<Id>, wanted: set<Id>,
    received: nat)
    requires Progress(c, chan, policy, frames, n, ids, wanted, received) && n < |frames| && frames[n].Control?
    ensures Progress(c, chan, policy, frames, n + 1, ids, wanted, received)
    ensures Sent(frames, n + 1) == Sent(frames, n)
  {
    SentStep(frames, n);
  }

  lemma ProgressTakes(
    c: Codec, chan: Bytes, policy: Policy.ChannelPolicy, frames: seq<Frame>, n: nat, ids: set<Id>, wanted: set<Id>,
    received: nat)
    requires Progress(c, chan, policy, frames, n, ids, wanted, received) && n < |frames| && frames[n].Upload?
    requires Passes(c, chan, policy, frames[n]) && frames[n].env.id in wanted
    ensures Progress(c, chan, policy, frames, n + 1, ids, wanted - {frames[n].env.id}, received + 1)
    ensures Sent(frames, n + 1) == Sent(frames, n) + [frames[n].env]
  {
    SentStep(frames, n);
    var id := frames[n].env.id;
    assert multiset(wanted) == multiset{id} + multiset(wanted - {id});
  }

  ghost predicate Requested(es: seq<Envelope>, ids: set<Id>) {
    forall id :: id in Ids(es) ==> id in ids
  }

  lemma ProgressMeans(
    c: Codec, chan: Bytes, policy: Policy.ChannelPolicy, frames: seq<Frame>, n: nat, ids: set<Id>, wanted: set<Id>,
    received: nat)
    requires Progress(c, chan, policy, frames, n, ids, wanted, received)
    ensures Requested(Sent(frames, n), ids)
    ensures received == |Sent(frames, n)| <= |ids|
    ensures wanted == {} ==> Delivers(c, chan, policy, frames, n, ids) && received == |ids|
  {
    forall id | id in Ids(Sent(frames, n)) ensures id in ids {
      assert id in multiset(Ids(Sent(frames, n)));
      assert id in multiset(ids);
    }
  }

  /** Takes one uploaded envelope off the wanted ids and appends it. */
  method TakeUpload(file: ChannelFile, policy: Policy.ChannelPolicy, e: Envelope, wanted: set<Id>)
    returns (ok: bool, left: set<Id>)
    requires file.Valid()
    modifies file
    ensures file.Valid() && file.torn == old(file.torn)
    ensures ok ==> e.id in wanted && left == wanted - {e.id} && Passes(file.c, file.chan, policy, Upload(e))
    ensures file.envelopes == if ok then Offered(old(file.envelopes), e) else old(file.envelopes)
    ensures !ok && file.torn == [] ==> e.id !in wanted || !Passes(file.c, file.chan, policy, Upload(e))
  {
    if e.id !in wanted { return false, wanted; }
    left := wanted - {e.id};
    ok := file.AppendMessage(policy, e);
  }

  /** One turn of the loop. */
  method TakeFrame(
    file: ChannelFile, policy: Policy.ChannelPolicy, ghost start: seq<Envelope>, frames: seq<Frame>, used: nat,
    ghost ids: set<Id>, wanted: set<Id>, received: nat)
    returns (ok: bool, left: set<Id>, count: nat)
    requires file.Valid() && wanted != {} && Progress(file.c, file.chan, policy, frames, used, ids, wanted, received)
    requires file.envelopes == Merged(start, Sent(frames, used))
    modifies file
    ensures file.Valid() && file.torn == old(file.torn)
    ensures ok ==> Progress(file.c, file.chan, policy, frames, used + 1, ids, left, count)
    ensures !ok ==> count == received
    ensures file.envelopes == Merged(start, Sent(frames, if ok then used + 1 else used))
    ensures !ok && file.torn == [] ==> Undeliverable(file.c, file.chan, policy, frames, ids)
  {
    ok, left, count := false, wanted, received;
    if used < |frames| && frames[used].Control? {
      ProgressSkips(file.c, file.chan, policy, frames, used, ids, wanted, received);
      return true, wanted, received;
    }
    if used < |frames| && frames[used].Upload? {
      ok, left := TakeUpload(file, policy, frames[used].env, wanted);
    }
    if ok {
      ProgressTakes(file.c, file.chan, policy, frames, used, ids, wanted, received);
      count := received + 1;
    } else if file.torn == [] {
      NoDelivery(file.c, file.chan, policy, frames, used, ids, wanted);
    }
  }

  /** Reads frames until every requested id has come. It succeeds exactly when some first part of the stream
      is a delivery, counts as many envelopes as were requested, and appends only requested ones. */
  method ReceiveUploads(file: ChannelFile, policy: Policy.ChannelPolicy, ids: set<Id>, frames: seq<Frame>)
    returns (ok: bool, received: nat, used: nat)
    requires file.Valid()
    modifies file
    ensures file.Valid() && used <= |frames| && file.torn == old(file.torn)
    ensures file.envelopes == Merged(old(file.envelopes), Sent(frames, used))
    ensures Requested(Sent(frames, used), ids)
    ensures received == |Sent(frames, used)| <= |ids|
    ensures ok ==> Delivers(file.c, file.chan, policy, frames, used, ids) && received == |ids|
    ensures !ok && file.torn == [] ==> Undeliverable(file.c, file.chan, policy, frames, ids)
  {
    var wanted := ids;
    received, used := 0, 0;
    ghost var start := file.envelopes;
    while wanted != {}
      invariant file.Valid() && file.torn == old(file.torn)
      invariant Progress(file.c, file.chan, policy, frames, used, ids, wanted, received)
      invariant file.envelopes == Merged(start, Sent(frames, used))
      decreases |frames| - used
    {
      ghost var before := wanted;
      ok, wanted, received := TakeFrame(file, policy, start, frames, used, ids, wanted, received);
      if !ok {
        ProgressMeans(file.c, file.chan, policy, frames, used, ids, before, received);
        return false, received, used;
      }
      used := used + 1;
    }
    ProgressMeans(file.c, file.chan, policy, frames, used, ids, wanted, received);
    ok := true;
  }
}
