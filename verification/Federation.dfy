/** Any number of nodes that change policy, rotate keys and synchronise. Every turn of a session and each half
    of a key rotation is a step of its own, so other processes and other sessions may come in between.
 */
module Federation {
  import opened Basics
  import opened Chain
  import opened Policy
  import opened Admin
  import opened Keyring
  import opened KeyExchange
  import opened Reconcile
  import M = Moderation

  datatype Node = Node(me: Key, policy: Ledger<PolicyBody>, ring: seq<ChannelKey>)

  /** A rotation whose key exists and whose policy action is still to be appended. */
  datatype Pending = Pending(node: nat, action: Policy.Action)

  /** A session as far as it has come. `sent` and `reply` are the histories the two sides have put on the wire;
      `clientHad` and `serverHad` record which keys each side had when it did so, leaving out keys of
      unfinished rotations. `judged` is the policy under which the server lets keys pass. */
  datatype Session = Session(
    client: nat, server: nat,
    sent: seq<PolicyEvent>, clientHad: set<Id>,
    answered: bool, reply: Reply<PolicyBody>, serverHad: set<Id>,
    followed: bool,
    judged: Option<seq<PolicyEvent>>,
    offered: Option<seq<ChannelKey>>,
    taken: bool,
    back: Option<seq<ChannelKey>>)

  /** `born` records, for every key whose generation is finished, the policy history of its maker at that
      moment; `half` holds the keys of unfinished rotations. */
  datatype World = World(
    nodes: seq<Node>, sessions: seq<Session>,
    born: map<Id, seq<PolicyEvent>>, maker: map<Id, Key>, half: map<Id, Pending>)

  datatype Step =
    | Append(node: nat, ts: int, action: Policy.Action)
    | BeginRotation(node: nat, action: Policy.Action, raw: Bytes)
    | EndRotation(key: Id, ts: int)
    | DropRotation(key: Id)
    | FirstKey(node: nat, raw: Bytes)
    | Report(client: nat, server: nat)
    | Answer(session: nat)
    | Follow(session: nat)
    | Judge(session: nat)
    | OfferKeys(session: nat)
    | Accept(session: nat, nonces: nat -> Bytes)
    | OfferBack(session: nat)
    | AcceptBack(session: nat, nonces: nat -> Bytes)

  function RingIds(ring: seq<ChannelKey>): set<Id> {
    set id | id in KeyIds(ring)
  }

  /** The keys of a node that do not belong to an unfinished rotation. */
  function Settled(w: World, i: nat): set<Id>
    requires i < |w.nodes|
  {
    RingIds(w.nodes[i].ring) - w.half.Keys
  }

  // ---------------------------------------------------------------- local steps

  /** What is checked before a key is generated for the action. */
  predicate Checked(p: ChannelPolicy, me: Key, action: Policy.Action) {
    match action
    case Revoke(role, key) => ValidKey(key) && MayManage(p, me, role)
    case TransferOwner(newOwner) => ValidKey(newOwner) && IsOwner(p, me)
    case SetVisibility(_) => p.mode == Restricted && IsOwner(p, me)
    case _ => false
  }

  /** The action is preceded by a new channel key. */
  predicate Rotates(p: ChannelPolicy, action: Policy.Action) {
    match action
    case Revoke(_, _) => p.visibility == Private
    case TransferOwner(_) => p.visibility == Private
    case SetVisibility(v) => v == Private
    case _ => false
  }

  predicate Fresh(w: World, id: Id) {
    id !in w.born && id !in w.maker && id !in w.half
  }

  function DoAppend(c: M.Context, w: World, i: nat, ts: int, action: Policy.Action): World
    requires i < |w.nodes|
  {
    var n := w.nodes[i];
    w.(nodes := w.nodes[i := Node(n.me, PolicyOp(c, n.policy, PolicyLocal(n.me, ts, action)), n.ring)])
  }

  /** The first half of a rotation: the checks and the new key. A random key never repeats. */
  function DoBegin(c: M.Context, y: Crypto, w: World, i: nat, action: Policy.Action, raw: Bytes): World
    requires i < |w.nodes|
  {
    var n, id := w.nodes[i], y.keyId(raw);
    match Replay(c.policy, c.chan, n.policy.active)
    case None => w
    case Some(p) =>
      if Checked(p, n.me, action) && Rotates(p, action) && Fresh(w, id) then
        World(w.nodes[i := Node(n.me, n.policy, Rotated(y, n.ring, raw))], w.sessions,
              w.born, w.maker[id := n.me], w.half[id := Pending(i, action)])
      else w
  }

  /** The second half: the policy action, if the policy at that moment still allows it. */
  function DoEnd(c: M.Context, w: World, id: Id, ts: int): World
    requires id in w.half && w.half[id].node < |w.nodes|
  {
    var i := w.half[id].node;
    var n := w.nodes[i];
    var next := PolicyOp(c, n.policy, PolicyLocal(n.me, ts, w.half[id].action));
    World(w.nodes[i := Node(n.me, next, n.ring)], w.sessions,
          w.born[id := next.active], w.maker, w.half - {id})
  }

  /** The process dies between the two halves. */
  function DoDrop(w: World, id: Id): World
    requires id in w.half && w.half[id].node < |w.nodes|
  {
    World(w.nodes, w.sessions, w.born[id := w.nodes[w.half[id].node].policy.active], w.maker, w.half - {id})
  }

  /** The owner of a private channel without keys makes the first one. */
  function DoFirstKey(c: M.Context, y: Crypto, w: World, i: nat, raw: Bytes): World
    requires i < |w.nodes|
  {
    var n, id := w.nodes[i], y.keyId(raw);
    if IsPrivate(c, n.policy.active) && OwnedBy(c, n.policy.active, n.me) && n.ring == [] && Fresh(w, id) then
      World(w.nodes[i := Node(n.me, n.policy, Rotated(y, n.ring, raw))], w.sessions,
            w.born[id := n.policy.active], w.maker[id := n.me], w.half)
    else w
  }

  predicate IsPrivate(c: M.Context, es: seq<PolicyEvent>) {
    match Replay(c.policy, c.chan, es)
    case None => false
    case Some(p) => p.visibility == Private
  }

  predicate OwnedBy(c: M.Context, es: seq<PolicyEvent>, key: Key) {
    match Replay(c.policy, c.chan, es)
    case None => false
    case Some(p) => IsOwner(p, key)
  }

  // ---------------------------------------------------------------- turns of a session

  predicate Sides(w: World, x: Session) {
    x.client < |w.nodes| && x.server < |w.nodes| && x.client != x.server
  }

  /** The client reads its history and reports it. */
  function DoReport(w: World, i: nat, j: nat): World
    requires i < |w.nodes|
  {
    w.(sessions := w.sessions
    + [Session(i, j, w.nodes[i].policy.active, Settled(w, i), false, Silence, {}, false, None, None, false, None)])
  }

  /** The server takes in the client's history and answers with its own. */
  function DoAnswer(c: M.Context, w: World, k: nat): World
    requires k < |w.sessions| && Sides(w, w.sessions[k])
  {
    var x := w.sessions[k];
    var n := w.nodes[x.server];
    var (l, reply) := ServePolicy(c, n.policy, w.nodes[x.client].me, x.sent);
    if x.answered then w else
    w.(nodes := w.nodes[x.server := Node(n.me, l, n.ring)],
    sessions := w.sessions[k := x.(answered := true, reply := reply, serverHad := Settled(w, x.server))])
  }

  /** The client takes in the answer. */
  function DoFollow(c: M.Context, w: World, k: nat): World
    requires k < |w.sessions| && Sides(w, w.sessions[k])
  {
    var x := w.sessions[k];
    var n := w.nodes[x.client];
    var (l, goesOn) := FollowPolicy(c, n.policy, x.reply);
    if x.followed || !x.answered then w else
    w.(nodes := w.nodes[x.client := Node(n.me, l, n.ring)], sessions := w.sessions[k := x.(followed := goesOn)])
  }

  /** The server reads its policy again and decides whether keys may pass. */
  function DoJudge(c: M.Context, w: World, k: nat): World
    requires k < |w.sessions| && Sides(w, w.sessions[k])
  {
    var x := w.sessions[k];
    var es := w.nodes[x.server].policy.active;
    if x.reply.Update? && x.judged == None && IsPrivate(c, es)
       && MayRead(c, es, w.nodes[x.client].me) && MayRead(c, es, w.nodes[x.server].me)
    then w.(sessions := w.sessions[k := x.(judged := Some(es))]) else w
  }

  /** The server reads its keys and offers them. */
  function DoOffer(w: World, k: nat): World
    requires k < |w.sessions| && Sides(w, w.sessions[k])
  {
    var x := w.sessions[k];
    if x.judged.Some? && x.offered == None
    then w.(sessions := w.sessions[k := x.(offered := Some(w.nodes[x.server].ring))]) else w
  }

  /** The client judges by its own policy of the moment. */
  predicate ClientTakes(c: M.Context, w: World, x: Session)
    requires Sides(w, x)
  {
    && x.followed && x.offered.Some?
    && IsPrivate(c, w.nodes[x.client].policy.active)
    && MayRead(c, w.nodes[x.client].policy.active, w.nodes[x.server].me)
  }

  /** The client takes over the offered keys. */
  function DoAccept(c: M.Context, y: Crypto, w: World, k: nat, nonces: nat -> Bytes): World
    requires k < |w.sessions| && Sides(w, w.sessions[k])
  {
    var x := w.sessions[k];
    var n, s := w.nodes[x.client], w.nodes[x.server];
    if !ClientTakes(c, w, x) then w else
    match TakeBatch(y, c.chan, s.me, n.me, n.ring, x.offered.value, nonces)
    case None => w
    case Some(r) =>
      w.(nodes := w.nodes[x.client := Node(n.me, n.policy, r)], sessions := w.sessions[k := x.(taken := true)])
  }

  /** Having taken the server's keys, the client reads its own again and offers them back. It does not judge
      again. */
  function DoOfferBack(w: World, k: nat): World
    requires k < |w.sessions| && Sides(w, w.sessions[k])
  {
    var x := w.sessions[k];
    if x.taken && x.back == None
    then w.(sessions := w.sessions[k := x.(back := Some(w.nodes[x.client].ring))]) else w
  }

  /** The server takes over the client's keys. */
  function DoAcceptBack(c: M.Context, y: Crypto, w: World, k: nat, nonces: nat -> Bytes): World
    requires k < |w.sessions| && Sides(w, w.sessions[k])
  {
    var x := w.sessions[k];
    var n, s := w.nodes[x.client], w.nodes[x.server];
    if x.back == None then w else
    match TakeBatch(y, c.chan, n.me, s.me, s.ring, x.back.value, nonces)
    case None => w
    case Some(r) => w.(nodes := w.nodes[x.server := Node(s.me, s.policy, r)])
  }

  predicate Known(w: World, k: nat) {
    k < |w.sessions| && Sides(w, w.sessions[k])
  }

  predicate IsHalf(w: World, id: Id) {
    id in w.half && w.half[id].node < |w.nodes|
  }

  function Act(c: M.Context, y: Crypto, w: World, step: Step): World {
    match step
    case Append(i, ts, action) => if i < |w.nodes| then DoAppend(c, w, i, ts, action) else w
    case BeginRotation(i, action, raw) => if i < |w.nodes| then DoBegin(c, y, w, i, action, raw) else w
    case EndRotation(id, ts) => if IsHalf(w, id) then DoEnd(c, w, id, ts) else w
    case DropRotation(id) => if IsHalf(w, id) then DoDrop(w, id) else w
    case FirstKey(i, raw) => if i < |w.nodes| then DoFirstKey(c, y, w, i, raw) else w
    case Report(i, j) => if i < |w.nodes| && j < |w.nodes| && i != j then DoReport(w, i, j) else w
    case Answer(k) => if Known(w, k) then DoAnswer(c, w, k) else w
    case Follow(k) => if Known(w, k) then DoFollow(c, w, k) else w
    case Judge(k) => if Known(w, k) then DoJudge(c, w, k) else w
    case OfferKeys(k) => if Known(w, k) then DoOffer(w, k) else w
    case Accept(k, nonces) => if Known(w, k) then DoAccept(c, y, w, k, nonces) else w
    case OfferBack(k) => if Known(w, k) then DoOfferBack(w, k) else w
    case AcceptBack(k, nonces) => if Known(w, k) then DoAcceptBack(c, y, w, k, nonces) else w
  }

  function Run(c: M.Context, y: Crypto, w: World, steps: seq<Step>): World
    decreases |steps|
  {
    if steps == [] then w else Run(c, y, Act(c, y, w, steps[0]), steps[1..])
  }

  lemma {:induction false} RunSplits(c: M.Context, y: Crypto, w: World, a: seq<Step>, b: seq<Step>)
    ensures Run(c, y, w, a + b) == Run(c, y, Run(c, y, w, a), b)
    ensures RunClean(c, y, w, a + b) <==> RunClean(c, y, w, a) && RunClean(c, y, Run(c, y, w, a), b)
    decreases |a|
  {
    if a == [] {
      assert a + b == b;
    } else {
      assert (a + b)[1..] == a[1..] + b;
      RunSplits(c, y, Act(c, y, w, a[0]), a[1..], b);
    }
  }

  // ---------------------------------------------------------------- the condition

  /** Whoever offers keys offers none that it has got, or finished making, since it put its policy on the
      wire; the client may also give back what it was just offered. */
  predicate Clean(w: World, step: Step) {
    match step
    case OfferKeys(k) =>
      Known(w, k) ==> RingIds(w.nodes[w.sessions[k].server].ring) <= w.sessions[k].serverHad
    case OfferBack(k) =>
      Known(w, k) && w.sessions[k].offered.Some? ==>
        RingIds(w.nodes[w.sessions[k].client].ring) <= w.sessions[k].clientHad + RingIds(w.sessions[k].offered.value)
    case _ => true
  }

  ghost predicate RunClean(c: M.Context, y: Crypto, w: World, steps: seq<Step>)
    decreases |steps|
  {
    steps == [] || (Clean(w, steps[0]) && RunClean(c, y, Act(c, y, w, steps[0]), steps[1..]))
  }

  /** The payload a local change would sign lies in the run's universe. */
  ghost predicate StepWithin(c: M.Context, u: Universe, w: World, step: Step) {
    match step
    case Append(i, ts, action) => i < |w.nodes| ==> Signs(c, u, w.nodes[i], ts, action)
    case EndRotation(id, ts) => IsHalf(w, id) ==> Signs(c, u, w.nodes[w.half[id].node], ts, w.half[id].action)
    case _ => true
  }

  ghost predicate Signs(c: M.Context, u: Universe, n: Node, ts: int, action: Policy.Action) {
    SignPolicy(c, Head(n.policy.active), n.me, ts, action).content in u.policy
  }

  ghost predicate RunWithin(c: M.Context, u: Universe, y: Crypto, w: World, steps: seq<Step>)
    decreases |steps|
  {
    steps == [] || (StepWithin(c, u, w, steps[0]) && RunWithin(c, u, y, Act(c, y, w, steps[0]), steps[1..]))
  }

  // ---------------------------------------------------------------- invariant

  /** Some valid history of the run that extends `es` lets `key` read. */
  ghost predicate Admitted(c: M.Context, u: Universe, es: seq<PolicyEvent>, key: Key) {
    exists h :: IsPrefix(es, h) && DrawnFrom(h, u.policy) && MayRead(c, h, key)
  }

  /** The key was finished under a valid history of the run, of which `es` is an extension. */
  ghost predicate BornUnder(c: M.Context, u: Universe, born: map<Id, seq<PolicyEvent>>, id: Id, es: seq<PolicyEvent>) {
    id in born && PolicyOk(c, born[id]) && DrawnFrom(born[id], u.policy) && IsPrefix(born[id], es)
  }

  /** Whoever holds the key has the policy under which it was born, and made it or could be admitted to it. */
  ghost predicate Backed(c: M.Context, u: Universe, w: World, id: Id, me: Key, active: seq<PolicyEvent>) {
    && BornUnder(c, u, w.born, id, active) && id in w.maker
    && (w.maker[id] == me || Admitted(c, u, w.born[id], me))
  }

  /** The key belongs to an unfinished rotation of node `i`. */
  ghost predicate HalfAt(w: World, id: Id, i: nat) {
    id in w.half && w.half[id].node == i && id in w.maker && i < |w.nodes| && w.maker[id] == w.nodes[i].me
  }

  ghost predicate HeldOk(c: M.Context, u: Universe, w: World, i: nat, id: Id)
    requires i < |w.nodes|
  {
    HalfAt(w, id, i) || Backed(c, u, w, id, w.nodes[i].me, w.nodes[i].policy.active)
  }

  ghost predicate NodeOk(c: M.Context, u: Universe, w: World, i: nat)
    requires i < |w.nodes|
  {
    && PolicyReady(c, u, w.nodes[i].policy)
    && forall id :: id in KeyIds(w.nodes[i].ring) ==> HeldOk(c, u, w, i, id)
  }

  ghost predicate AllBorn(
    c: M.Context, u: Universe, born: map<Id, seq<PolicyEvent>>, ids: set<Id>, es: seq<PolicyEvent>)
  {
    forall id :: id in ids ==> BornUnder(c, u, born, id, es)
  }

  /** The histories on the wire: the client's report is part of its history, and the server's answer extends
      the report and is part of the server's history. */
  ghost predicate WireOk(c: M.Context, u: Universe, w: World, x: Session) {
    && Sides(w, x) && (!x.answered ==> NotYet(x))
    && PolicyOk(c, x.sent) && DrawnFrom(x.sent, u.policy) && IsPrefix(x.sent, w.nodes[x.client].policy.active)
    && (x.reply.Update? ==>
          var es := x.reply.events;
          && PolicyOk(c, es) && DrawnFrom(es, u.policy)
          && IsPrefix(x.sent, es) && IsPrefix(es, w.nodes[x.server].policy.active))
  }

  ghost predicate JudgedOk(c: M.Context, u: Universe, w: World, x: Session)
    requires Sides(w, x)
  {
    x.judged.Some? ==>
      var h := x.judged.value;
      && x.reply.Update? && IsPrefix(x.reply.events, h) && DrawnFrom(h, u.policy)
      && MayRead(c, h, w.nodes[x.client].me) && MayRead(c, h, w.nodes[x.server].me)
  }

  ghost predicate OffersOk(x: Session) {
    && (x.offered.Some? ==> x.judged.Some? && RingIds(x.offered.value) <= x.serverHad)
    && (x.taken ==> x.offered.Some?)
    && (x.back.Some? ==> x.offered.Some? && RingIds(x.back.value) <= x.clientHad + RingIds(x.offered.value))
  }

  /** Neither the answer nor anything that follows it has happened. */
  predicate NotYet(x: Session) {
    x.reply == Silence && !x.followed && x.judged == None && x.offered == None && !x.taken && x.back == None
  }

  ghost predicate SessionOk(c: M.Context, u: Universe, w: World, x: Session) {
    && WireOk(c, u, w, x)
    && AllBorn(c, u, w.born, x.clientHad, x.sent)
    && (x.reply.Update? ==> AllBorn(c, u, w.born, x.serverHad, x.reply.events))
    && (x.followed ==> x.reply.Update? && IsPrefix(x.reply.events, w.nodes[x.client].policy.active))
    && JudgedOk(c, u, w, x)
    && OffersOk(x)
  }

  /** Every key on record has a maker, and unfinished keys are not on record as finished. */
  ghost predicate RecordsOk(w: World) {
    && (forall id :: id in w.half ==> id !in w.born && HalfAt(w, id, w.half[id].node))
    && (forall id :: id in w.born ==> id in w.maker)
  }

  ghost predicate Inv(c: M.Context, u: Universe, w: World) {
    && RecordsOk(w)
    && (forall i: nat {:trigger NodeOk(c, u, w, i)} :: i < |w.nodes| ==> NodeOk(c, u, w, i))
    && (forall k: nat {:trigger w.sessions[k]} :: k < |w.sessions| ==> SessionOk(c, u, w, w.sessions[k]))
  }

  // ---------------------------------------------------------------- what growth leaves intact

  ghost predicate Grows(w: World, w': World) {
    && |w.nodes| == |w'.nodes|
    && (forall i :: 0 <= i < |w.nodes| ==>
                      w.nodes[i].me == w'.nodes[i].me && w.nodes[i].policy.active <= w'.nodes[i].policy.active)
    && (forall id :: id in w.born ==> id in w'.born && w'.born[id] == w.born[id])
    && (forall id :: id in w.maker ==> id in w'.maker && w'.maker[id] == w.maker[id])
  }

  lemma GrowingPrefix(es: seq<PolicyEvent>, a: seq<PolicyEvent>, b: seq<PolicyEvent>)
    requires IsPrefix(es, a) && a <= b
    ensures IsPrefix(es, b)
  {
  }

  lemma BornStays(
    c: M.Context, u: Universe, w: World, w': World, ids: set<Id>, es: seq<PolicyEvent>)
    requires Grows(w, w') && AllBorn(c, u, w.born, ids, es)
    ensures AllBorn(c, u, w'.born, ids, es)
  {
    forall id | id in ids ensures BornUnder(c, u, w'.born, id, es) {
      assert BornUnder(c, u, w.born, id, es);
    }
  }

  /** Sessions stay sound while nodes and records grow. */
  lemma SessionStays(c: M.Context, u: Universe, w: World, w': World, x: Session)
    requires Grows(w, w') && SessionOk(c, u, w, x)
    ensures SessionOk(c, u, w', x)
  {
    BornStays(c, u, w, w', x.clientHad, x.sent);
    GrowingPrefix(x.sent, w.nodes[x.client].policy.active, w'.nodes[x.client].policy.active);
    if x.reply.Update? {
      BornStays(c, u, w, w', x.serverHad, x.reply.events);
      GrowingPrefix(x.reply.events, w.nodes[x.server].policy.active, w'.nodes[x.server].policy.active);
      if x.followed {
        GrowingPrefix(x.reply.events, w.nodes[x.client].policy.active, w'.nodes[x.client].policy.active);
      }
    }
  }

  lemma KeyStays(c: M.Context, u: Universe, w: World, w': World, i: nat, id: Id)
    requires Grows(w, w') && i < |w.nodes| && HeldOk(c, u, w, i, id)
    requires id in w.half ==> id in w'.half && w'.half[id] == w.half[id]
    ensures HeldOk(c, u, w', i, id)
  {
    if !HalfAt(w, id, i) {
      var n, n' := w.nodes[i], w'.nodes[i];
      assert Backed(c, u, w, id, n.me, n.policy.active);
      GrowingPrefix(w.born[id], n.policy.active, n'.policy.active);
    }
  }

  /** A node that keeps its ring stays sound, provided that the unfinished keys stay unfinished. */
  lemma NodeStays(c: M.Context, u: Universe, w: World, w': World, i: nat)
    requires Grows(w, w') && i < |w.nodes| && NodeOk(c, u, w, i)
    requires PolicyReady(c, u, w'.nodes[i].policy) && w'.nodes[i].ring == w.nodes[i].ring
    requires forall id :: id in w.half ==> id in w'.half && w'.half[id] == w.half[id]
    ensures NodeOk(c, u, w', i)
  {
    forall id | id in KeyIds(w.nodes[i].ring) ensures HeldOk(c, u, w', i, id) {
      assert HeldOk(c, u, w, i, id);
      KeyStays(c, u, w, w', i, id);
    }
  }

  /** The old sessions of a world that grew. */
  lemma SessionsStay(c: M.Context, u: Universe, w: World, w': World)
    requires Inv(c, u, w) && Grows(w, w')
    ensures forall k: nat :: k < |w.sessions| ==> SessionOk(c, u, w', w.sessions[k])
  {
    forall k: nat | k < |w.sessions| ensures SessionOk(c, u, w', w.sessions[k]) {
      SessionStays(c, u, w, w', w.sessions[k]);
    }
  }

  // ---------------------------------------------------------------- local steps keep the invariant

  lemma LocalGrows(c: M.Context, u: Universe, n: Node, ts: int, action: Policy.Action)
    requires PolicyReady(c, u, n.policy) && Signs(c, u, n, ts, action)
    ensures var l' := PolicyOp(c, n.policy, PolicyLocal(n.me, ts, action));
            PolicyReady(c, u, l') && n.policy.active <= l'.active
  {
  }

  lemma AppendKeeps(c: M.Context, u: Universe, w: World, i: nat, ts: int, action: Policy.Action)
    requires Inv(c, u, w) && i < |w.nodes| && Signs(c, u, w.nodes[i], ts, action)
    ensures Inv(c, u, DoAppend(c, w, i, ts, action)) && Grows(w, DoAppend(c, w, i, ts, action))
  {
    var w' := DoAppend(c, w, i, ts, action);
    assert NodeOk(c, u, w, i);
    LocalGrows(c, u, w.nodes[i], ts, action);
    SessionsStay(c, u, w, w');
    forall j: nat | j < |w.nodes| ensures NodeOk(c, u, w', j) {
      assert NodeOk(c, u, w, j);
      NodeStays(c, u, w, w', j);
    }
  }

  lemma RotatedIds(y: Crypto, ring: seq<ChannelKey>, raw: Bytes, id: Id)
    requires id in KeyIds(Rotated(y, ring, raw))
    ensures id in KeyIds(ring) || id == y.keyId(raw)
  {
    KeyIdsHas(Rotated(y, ring, raw), id);
    var k :| k in Rotated(y, ring, raw) && k.id == id;
    RetainedHas(ring, y.keyId(raw));
    KeyIdsHas(ring, id);
  }

  /** A node that got one new key. */
  lemma RotatedStays(c: M.Context, u: Universe, y: Crypto, w: World, w': World, i: nat, raw: Bytes)
    requires Grows(w, w') && i < |w.nodes| && NodeOk(c, u, w, i)
    requires w'.nodes[i] == Node(w.nodes[i].me, w.nodes[i].policy, Rotated(y, w.nodes[i].ring, raw))
    requires forall id :: id in w.half ==> id in w'.half && w'.half[id] == w.half[id]
    requires HeldOk(c, u, w', i, y.keyId(raw))
    ensures NodeOk(c, u, w', i)
  {
    forall id | id in KeyIds(w'.nodes[i].ring) ensures HeldOk(c, u, w', i, id) {
      RotatedIds(y, w.nodes[i].ring, raw, id);
      if id != y.keyId(raw) {
        assert HeldOk(c, u, w, i, id);
        KeyStays(c, u, w, w', i, id);
      }
    }
  }

  /** A new key at node `i` and nothing else. */
  lemma KeyMade(c: M.Context, u: Universe, y: Crypto, w: World, w': World, i: nat, raw: Bytes)
    requires Inv(c, u, w) && i < |w.nodes| && Grows(w, w') && RecordsOk(w') && w'.sessions == w.sessions
    requires w'.nodes == w.nodes[i := Node(w.nodes[i].me, w.nodes[i].policy, Rotated(y, w.nodes[i].ring, raw))]
    requires forall id :: id in w.half ==> id in w'.half && w'.half[id] == w.half[id]
    requires HeldOk(c, u, w', i, y.keyId(raw))
    ensures Inv(c, u, w')
  {
    SessionsStay(c, u, w, w');
    forall j: nat | j < |w.nodes| ensures NodeOk(c, u, w', j) {
      assert NodeOk(c, u, w, j);
      if j == i { RotatedStays(c, u, y, w, w', i, raw); } else { NodeStays(c, u, w, w', j); }
    }
  }

  lemma BeginKeeps(c: M.Context, u: Universe, y: Crypto, w: World, i: nat, action: Policy.Action, raw: Bytes)
    requires Inv(c, u, w) && i < |w.nodes|
    ensures Inv(c, u, DoBegin(c, y, w, i, action, raw)) && Grows(w, DoBegin(c, y, w, i, action, raw))
  {
    var w' := DoBegin(c, y, w, i, action, raw);
    if w' != w { KeyMade(c, u, y, w, w', i, raw); }
  }

  lemma FirstKeyKeeps(c: M.Context, u: Universe, y: Crypto, w: World, i: nat, raw: Bytes)
    requires Inv(c, u, w) && i < |w.nodes|
    ensures Inv(c, u, DoFirstKey(c, y, w, i, raw)) && Grows(w, DoFirstKey(c, y, w, i, raw))
  {
    var w' := DoFirstKey(c, y, w, i, raw);
    if w' != w {
      assert NodeOk(c, u, w, i);
      KeyMade(c, u, y, w, w', i, raw);
    }
  }

  /** A key whose generation was finished at node `i` is backed there, and nowhere else was it held. */
  lemma FinishedKeys(c: M.Context, u: Universe, w: World, w': World, done: Id, j: nat)
    requires Inv(c, u, w) && Grows(w, w') && j < |w.nodes| && IsHalf(w, done)
    requires w'.half == w.half - {done} && w'.maker == w.maker && w'.nodes[j].ring == w.nodes[j].ring
    requires PolicyReady(c, u, w'.nodes[j].policy)
    requires PolicyReady(c, u, w'.nodes[w.half[done].node].policy)
    requires done in w'.born && w'.born[done] == w'.nodes[w.half[done].node].policy.active
    ensures NodeOk(c, u, w', j)
  {
    assert NodeOk(c, u, w, j) && HalfAt(w, done, w.half[done].node);
    forall id | id in KeyIds(w'.nodes[j].ring) ensures HeldOk(c, u, w', j, id) {
      assert HeldOk(c, u, w, j, id);
      if id == done {
        assert done !in w.born;
      } else {
        KeyStays(c, u, w, w', j, id);
      }
    }
  }

  lemma EndKeeps(c: M.Context, u: Universe, w: World, id: Id, ts: int)
    requires Inv(c, u, w) && IsHalf(w, id) && Signs(c, u, w.nodes[w.half[id].node], ts, w.half[id].action)
    ensures Inv(c, u, DoEnd(c, w, id, ts)) && Grows(w, DoEnd(c, w, id, ts))
  {
    var w', i := DoEnd(c, w, id, ts), w.half[id].node;
    assert NodeOk(c, u, w, i) && id !in w.born;
    LocalGrows(c, u, w.nodes[i], ts, w.half[id].action);
    SessionsStay(c, u, w, w');
    forall j: nat | j < |w.nodes| ensures NodeOk(c, u, w', j) {
      assert NodeOk(c, u, w, j);
      FinishedKeys(c, u, w, w', id, j);
    }
  }

  lemma DropKeeps(c: M.Context, u: Universe, w: World, id: Id)
    requires Inv(c, u, w) && IsHalf(w, id)
    ensures Inv(c, u, DoDrop(w, id)) && Grows(w, DoDrop(w, id))
  {
    var w' := DoDrop(w, id);
    assert NodeOk(c, u, w, w.half[id].node) && id !in w.born;
    SessionsStay(c, u, w, w');
    forall j: nat | j < |w.nodes| ensures NodeOk(c, u, w', j) {
      assert NodeOk(c, u, w, j);
      FinishedKeys(c, u, w, w', id, j);
    }
  }

  // ---------------------------------------------------------------- turns keep the invariant

  /** The answering turn: the history grew, agrees with one of the two, and is what the answer carries. */
  lemma ServeResult(c: M.Context, u: Universe, l: Ledger<PolicyBody>, requester: Key, remote: seq<PolicyEvent>)
    requires PolicyReady(c, u, l) && PolicyOk(c, remote) && DrawnFrom(remote, u.policy)
    ensures var (l', reply) := ServePolicy(c, l, requester, remote);
            && PolicyReady(c, u, l') && l.active <= l'.active
            && (Agree(l'.active, l.active) || Agree(l'.active, remote))
            && (reply.Update? ==> reply.events == l'.active && IsPrefix(remote, l'.active))
  {
    if MayRead(c, l.active, requester) && Comparable(l.active, remote) && |remote| > |l.active| {
      TakesOver(c, u, l, remote);
    }
  }

  /** The following turn. */
  lemma FollowResult(c: M.Context, u: Universe, l: Ledger<PolicyBody>, reply: Reply<PolicyBody>)
    requires PolicyReady(c, u, l)
    requires reply.Update? ==> PolicyOk(c, reply.events) && DrawnFrom(reply.events, u.policy)
    ensures var (l', goesOn) := FollowPolicy(c, l, reply);
            && PolicyReady(c, u, l') && l.active <= l'.active
            && (Agree(l'.active, l.active) || (reply.Update? && Agree(l'.active, reply.events)))
            && (goesOn ==> reply.Update? && IsPrefix(reply.events, l'.active))
  {
    if reply.Update? && IsPrefix(l.active, reply.events) {
      TakesOver(c, u, l, reply.events);
    }
  }

  ghost predicate SameRecords(w: World, w': World) {
    w'.born == w.born && w'.maker == w.maker && w'.half == w.half
  }

  /** One session and one node changed, and nothing was generated. */
  lemma TurnKeeps(c: M.Context, u: Universe, w: World, w': World, k: nat, i: nat)
    requires Inv(c, u, w) && Grows(w, w') && SameRecords(w, w') && k < |w.sessions| && i < |w.nodes|
    requires |w'.sessions| == |w.sessions| && SessionOk(c, u, w', w'.sessions[k]) && NodeOk(c, u, w', i)
    requires forall j :: 0 <= j < |w.sessions| && j != k ==> w'.sessions[j] == w.sessions[j]
    requires forall j :: 0 <= j < |w.nodes| && j != i ==> w'.nodes[j] == w.nodes[j]
    ensures Inv(c, u, w')
  {
    SessionsStay(c, u, w, w');
    forall j: nat | j < |w.nodes| ensures NodeOk(c, u, w', j) {
      assert NodeOk(c, u, w, j);
      if j != i { NodeStays(c, u, w, w', j); }
    }
  }

  lemma SettledBorn(c: M.Context, u: Universe, w: World, i: nat)
    requires i < |w.nodes| && NodeOk(c, u, w, i)
    ensures AllBorn(c, u, w.born, Settled(w, i), w.nodes[i].policy.active)
  {
    forall id | id in Settled(w, i) ensures BornUnder(c, u, w.born, id, w.nodes[i].policy.active) {
      assert HeldOk(c, u, w, i, id);
    }
  }

  lemma BornLater(
    c: M.Context, u: Universe, born: map<Id, seq<PolicyEvent>>, ids: set<Id>, es: seq<PolicyEvent>,
    later: seq<PolicyEvent>)
    requires AllBorn(c, u, born, ids, es) && IsPrefix(es, later)
    ensures AllBorn(c, u, born, ids, later)
  {
    forall id | id in ids ensures BornUnder(c, u, born, id, later) {
      PrefixTransitive(born[id], es, later);
    }
  }

  lemma ReportKeeps(c: M.Context, u: Universe, w: World, i: nat, j: nat)
    requires Inv(c, u, w) && i < |w.nodes| && j < |w.nodes| && i != j
    ensures Inv(c, u, DoReport(w, i, j)) && Grows(w, DoReport(w, i, j))
  {
    var w' := DoReport(w, i, j);
    assert NodeOk(c, u, w, i);
    SettledBorn(c, u, w, i);
    SessionsStay(c, u, w, w');
    assert SessionOk(c, u, w', w'.sessions[|w.sessions|]);
    forall n: nat | n < |w.nodes| ensures NodeOk(c, u, w', n) {
      assert NodeOk(c, u, w, n);
      NodeStays(c, u, w, w', n);
    }
  }

  lemma AnswerKeeps(c: M.Context, u: Universe, w: World, k: nat)
    requires Inv(c, u, w) && Known(w, k)
    ensures Inv(c, u, DoAnswer(c, w, k)) && Grows(w, DoAnswer(c, w, k))
  {
    var x, w' := w.sessions[k], DoAnswer(c, w, k);
    var n := w.nodes[x.server];
    assert SessionOk(c, u, w, x) && NodeOk(c, u, w, x.server);
    ServeResult(c, u, n.policy, w.nodes[x.client].me, x.sent);
    if !x.answered {
      NodeStays(c, u, w, w', x.server);
      SessionStays(c, u, w, w', x);
      SettledBorn(c, u, w, x.server);
      AnsweredOk(c, u, w, w', k);
      TurnKeeps(c, u, w, w', k, x.server);
    }
  }

  lemma AnsweredOk(c: M.Context, u: Universe, w: World, w': World, k: nat)
    requires Known(w, k) && w' == DoAnswer(c, w, k) && !w.sessions[k].answered
    requires SessionOk(c, u, w', w.sessions[k]) && NotYet(w.sessions[k])
    requires var x := w.sessions[k];
             var (l', reply) := ServePolicy(c, w.nodes[x.server].policy, w.nodes[x.client].me, x.sent);
             && PolicyReady(c, u, l') && w.nodes[x.server].policy.active <= l'.active
             && (reply.Update? ==> reply.events == l'.active && IsPrefix(x.sent, l'.active))
    requires AllBorn(c, u, w.born, Settled(w, w.sessions[k].server), w.nodes[w.sessions[k].server].policy.active)
    ensures SessionOk(c, u, w', w'.sessions[k])
  {
    var x := w.sessions[k];
    var (l', reply) := ServePolicy(c, w.nodes[x.server].policy, w.nodes[x.client].me, x.sent);
    BornLater(c, u, w.born, Settled(w, x.server), w.nodes[x.server].policy.active, l'.active);
  }

  lemma FollowKeeps(c: M.Context, u: Universe, w: World, k: nat)
    requires Inv(c, u, w) && Known(w, k)
    ensures Inv(c, u, DoFollow(c, w, k)) && Grows(w, DoFollow(c, w, k))
  {
    var x, w' := w.sessions[k], DoFollow(c, w, k);
    assert SessionOk(c, u, w, x) && NodeOk(c, u, w, x.client);
    FollowResult(c, u, w.nodes[x.client].policy, x.reply);
    if !x.followed && x.answered {
      NodeStays(c, u, w, w', x.client);
      SessionStays(c, u, w, w', x);
      FollowedOk(c, u, w, w', k);
      TurnKeeps(c, u, w, w', k, x.client);
    }
  }

  lemma FollowedOk(c: M.Context, u: Universe, w: World, w': World, k: nat)
    requires Known(w, k) && w' == DoFollow(c, w, k) && !w.sessions[k].followed && w.sessions[k].answered
    requires SessionOk(c, u, w', w.sessions[k])
    requires var x := w.sessions[k];
             var (l', goesOn) := FollowPolicy(c, w.nodes[x.client].policy, x.reply);
             goesOn ==> x.reply.Update? && IsPrefix(x.reply.events, l'.active)
    ensures SessionOk(c, u, w', w'.sessions[k])
  {
  }

  lemma JudgeKeeps(c: M.Context, u: Universe, w: World, k: nat)
    requires Inv(c, u, w) && Known(w, k)
    ensures Inv(c, u, DoJudge(c, w, k)) && Grows(w, DoJudge(c, w, k))
  {
    var x, w' := w.sessions[k], DoJudge(c, w, k);
    assert SessionOk(c, u, w, x) && NodeOk(c, u, w, x.server);
    if w' != w {
      NodeStays(c, u, w, w', x.server);
      SessionStays(c, u, w, w', x);
      TurnKeeps(c, u, w, w', k, x.server);
    }
  }

  lemma OfferKeeps(c: M.Context, u: Universe, w: World, k: nat)
    requires Inv(c, u, w) && Known(w, k) && Clean(w, OfferKeys(k))
    ensures Inv(c, u, DoOffer(w, k)) && Grows(w, DoOffer(w, k))
  {
    var x, w' := w.sessions[k], DoOffer(w, k);
    assert SessionOk(c, u, w, x) && NodeOk(c, u, w, x.server);
    if w' != w {
      NodeStays(c, u, w, w', x.server);
      SessionStays(c, u, w, w', x);
      TurnKeeps(c, u, w, w', k, x.server);
    }
  }

  lemma OfferBackKeeps(c: M.Context, u: Universe, w: World, k: nat)
    requires Inv(c, u, w) && Known(w, k) && Clean(w, OfferBack(k))
    ensures Inv(c, u, DoOfferBack(w, k)) && Grows(w, DoOfferBack(w, k))
  {
    var x, w' := w.sessions[k], DoOfferBack(w, k);
    assert SessionOk(c, u, w, x) && NodeOk(c, u, w, x.client);
    if w' != w {
      NodeStays(c, u, w, w', x.client);
      SessionStays(c, u, w, w', x);
      TurnKeeps(c, u, w, w', k, x.client);
    }
  }

  lemma {:induction false} OfferedIds(
    y: Crypto, chan: Bytes, sender: Key, me: Key, ring: seq<ChannelKey>, nonces: nat -> Bytes)
    requires MakeOffers(y, chan, sender, me, ring, nonces).Some?
    ensures var o := MakeOffers(y, chan, sender, me, ring, nonces).value;
            |o| == |ring| && forall i :: 0 <= i < |o| ==> o[i].payload.keyId == ring[i].id
  {
    if ring != [] { OfferedIds(y, chan, sender, me, ring[..|ring| - 1], nonces); }
  }

  lemma {:induction false} AcceptedIds(
    y: Crypto, chan: Bytes, me: Key, ring: seq<ChannelKey>, offers: seq<Offer>, n: nat, id: Id)
    requires n <= |offers| && AcceptFirst(y, chan, me, ring, offers, n).Some?
    requires id in KeyIds(AcceptFirst(y, chan, me, ring, offers, n).value)
    ensures id in KeyIds(ring) || exists i :: 0 <= i < n && offers[i].payload.keyId == id
  {
    if n > 0 {
      var before := AcceptFirst(y, chan, me, ring, offers, n - 1).value;
      var key := ChannelKey(offers[n - 1].payload.keyId, Unwrap(y, chan, me, offers[n - 1]).value);
      KeyIdsPush(before, key);
      if id in KeyIds(before) { AcceptedIds(y, chan, me, ring, offers, n - 1, id); }
    }
  }

  /** A batch brings in no key that neither side had. */
  lemma BatchIds(
    y: Crypto, chan: Bytes, sender: Key, me: Key, mine: seq<ChannelKey>, theirs: seq<ChannelKey>,
    nonces: nat -> Bytes, id: Id)
    requires TakeBatch(y, chan, sender, me, mine, theirs, nonces).Some?
    requires id in KeyIds(TakeBatch(y, chan, sender, me, mine, theirs, nonces).value)
    ensures id in KeyIds(mine) || id in KeyIds(theirs)
  {
    var offers := MakeOffers(y, chan, sender, me, theirs, nonces).value;
    OfferedIds(y, chan, sender, me, theirs, nonces);
    AcceptedIds(y, chan, me, mine, offers, |offers|, id);
    if i :| 0 <= i < |offers| && offers[i].payload.keyId == id {
      assert KeyIds(theirs)[i] == id;
    }
  }

  /** A node may take over keys that were born under a part of its own history, if a history that extends
      that part lets it read. */
  lemma TakerOk(
    c: M.Context, u: Universe, w: World, w': World, i: nat, theirs: seq<ChannelKey>, ids: set<Id>,
    es: seq<PolicyEvent>, h: seq<PolicyEvent>)
    requires i < |w.nodes| && NodeOk(c, u, w, i) && RecordsOk(w) && SameRecords(w, w') && Grows(w, w')
    requires RingIds(theirs) <= ids && AllBorn(c, u, w.born, ids, es)
    requires IsPrefix(es, w.nodes[i].policy.active) && IsPrefix(es, h)
    requires DrawnFrom(h, u.policy) && MayRead(c, h, w.nodes[i].me)
    requires w'.nodes[i].me == w.nodes[i].me && w'.nodes[i].policy == w.nodes[i].policy
    requires forall id :: id in KeyIds(w'.nodes[i].ring) ==> id in KeyIds(w.nodes[i].ring) || id in KeyIds(theirs)
    ensures NodeOk(c, u, w', i)
  {
    forall id | id in KeyIds(w'.nodes[i].ring) ensures HeldOk(c, u, w', i, id) {
      if id in KeyIds(w.nodes[i].ring) {
        assert HeldOk(c, u, w, i, id);
        KeyStays(c, u, w, w', i, id);
      } else {
        assert id in RingIds(theirs);
        assert BornUnder(c, u, w.born, id, es);
        PrefixTransitive(w.born[id], es, w.nodes[i].policy.active);
        PrefixTransitive(w.born[id], es, h);
        assert Admitted(c, u, w.born[id], w.nodes[i].me);
      }
    }
  }

  lemma AcceptKeeps(c: M.Context, u: Universe, y: Crypto, w: World, k: nat, nonces: nat -> Bytes)
    requires Inv(c, u, w) && Known(w, k)
    ensures Inv(c, u, DoAccept(c, y, w, k, nonces)) && Grows(w, DoAccept(c, y, w, k, nonces))
  {
    var x, w' := w.sessions[k], DoAccept(c, y, w, k, nonces);
    assert SessionOk(c, u, w, x) && NodeOk(c, u, w, x.client);
    if w' != w {
      var n := w.nodes[x.client];
      forall id | id in KeyIds(w'.nodes[x.client].ring)
        ensures id in KeyIds(n.ring) || id in KeyIds(x.offered.value)
      {
        BatchIds(y, c.chan, w.nodes[x.server].me, n.me, n.ring, x.offered.value, nonces, id);
      }
      TakerOk(c, u, w, w', x.client, x.offered.value, x.serverHad, x.reply.events, x.judged.value);
      SessionStays(c, u, w, w', x);
      TurnKeeps(c, u, w, w', k, x.client);
    }
  }

  /** What the client may give back was born under the answer, too. */
  lemma BackBorn(c: M.Context, u: Universe, w: World, x: Session)
    requires SessionOk(c, u, w, x) && x.back.Some?
    ensures x.reply.Update? && x.judged.Some?
    ensures AllBorn(c, u, w.born, RingIds(x.back.value), x.reply.events)
  {
    BornLater(c, u, w.born, x.clientHad, x.sent, x.reply.events);
    forall id | id in RingIds(x.back.value) ensures BornUnder(c, u, w.born, id, x.reply.events) {
      assert id in x.clientHad || id in x.serverHad;
    }
  }

  lemma AcceptBackKeeps(c: M.Context, u: Universe, y: Crypto, w: World, k: nat, nonces: nat -> Bytes)
    requires Inv(c, u, w) && Known(w, k)
    ensures Inv(c, u, DoAcceptBack(c, y, w, k, nonces)) && Grows(w, DoAcceptBack(c, y, w, k, nonces))
  {
    var x, w' := w.sessions[k], DoAcceptBack(c, y, w, k, nonces);
    assert SessionOk(c, u, w, x) && NodeOk(c, u, w, x.server);
    if w' != w {
      var s := w.nodes[x.server];
      forall id | id in KeyIds(w'.nodes[x.server].ring)
        ensures id in KeyIds(s.ring) || id in KeyIds(x.back.value)
      {
        BatchIds(y, c.chan, w.nodes[x.client].me, s.me, s.ring, x.back.value, nonces, id);
      }
      BackBorn(c, u, w, x);
      TakerOk(c, u, w, w', x.server, x.back.value, RingIds(x.back.value), x.reply.events, x.judged.value);
      SessionStays(c, u, w, w', x);
      TurnKeeps(c, u, w, w', k, x.server);
    }
  }

  lemma LocalStepKeeps(c: M.Context, u: Universe, y: Crypto, w: World, step: Step)
    requires Inv(c, u, w) && StepWithin(c, u, w, step)
    requires step.Append? || step.BeginRotation? || step.EndRotation? || step.DropRotation? || step.FirstKey?
    ensures Inv(c, u, Act(c, y, w, step))
  {
    match step
    case Append(i, ts, action) => if i < |w.nodes| { AppendKeeps(c, u, w, i, ts, action); }
    case BeginRotation(i, action, raw) => if i < |w.nodes| { BeginKeeps(c, u, y, w, i, action, raw); }
    case EndRotation(id, ts) => if IsHalf(w, id) { EndKeeps(c, u, w, id, ts); }
    case DropRotation(id) => if IsHalf(w, id) { DropKeeps(c, u, w, id); }
    case FirstKey(i, raw) => if i < |w.nodes| { FirstKeyKeeps(c, u, y, w, i, raw); }
  }

  lemma TurnStepKeeps(c: M.Context, u: Universe, y: Crypto, w: World, k: nat, step: Step)
    requires Inv(c, u, w) && Clean(w, step) && Known(w, k)
    requires step.Answer? || step.Follow? || step.Judge? || step.OfferKeys? || step.Accept? || step.OfferBack?
             || step.AcceptBack?
    requires step.session == k
    ensures Inv(c, u, Act(c, y, w, step))
  {
    match step
    case Answer(_) => AnswerKeeps(c, u, w, k);
    case Follow(_) => FollowKeeps(c, u, w, k);
    case Judge(_) => JudgeKeeps(c, u, w, k);
    case OfferKeys(_) => OfferKeeps(c, u, w, k);
    case Accept(_, nonces) => AcceptKeeps(c, u, y, w, k, nonces);
    case OfferBack(_) => OfferBackKeeps(c, u, w, k);
    case AcceptBack(_, nonces) => AcceptBackKeeps(c, u, y, w, k, nonces);
  }

  lemma StepKeeps(c: M.Context, u: Universe, y: Crypto, w: World, step: Step)
    requires Inv(c, u, w) && StepWithin(c, u, w, step) && Clean(w, step)
    ensures Inv(c, u, Act(c, y, w, step))
  {
    if step.Append? || step.BeginRotation? || step.EndRotation? || step.DropRotation? || step.FirstKey? {
      LocalStepKeeps(c, u, y, w, step);
    } else if step.Report? {
      if step.client < |w.nodes| && step.server < |w.nodes| && step.client != step.server {
        ReportKeeps(c, u, w, step.client, step.server);
      }
    } else if Known(w, step.session) {
      TurnStepKeeps(c, u, y, w, step.session, step);
    }
  }

  lemma {:induction false} RunKeeps(c: M.Context, u: Universe, y: Crypto, w: World, steps: seq<Step>)
    requires Inv(c, u, w) && RunWithin(c, u, y, w, steps) && RunClean(c, y, w, steps)
    ensures Inv(c, u, Run(c, y, w, steps))
    decreases |steps|
  {
    if steps != [] {
      StepKeeps(c, u, y, w, steps[0]);
      RunKeeps(c, u, y, Act(c, y, w, steps[0]), steps[1..]);
    }
  }
}
