/**
 Roots and markers alone: on a connection whose pin is a session_start's and which has two identities, where
 an agent stands does not depend on which calls the ceiling admits, and so not on who else arrives.
 */
module RootShield {
  import opened Ids
  import opened ConnSpec
  import opened ConnFrames
  import opened Ownership
  import opened Convergence
  import opened Standing
  import opened Options
  import opened Counting
  import opened NonInterference
  import opened Shelter
  import Admission

  predicate PinnedSelf(c: Conn, id: Id) {
    id in c.shards && c.shards[id].selfPinned
  }

  /** The origin of the pin the agent's shard holds, or will be seeded with on a sticky connection. */
  function SeatOrigin(c: Conn, id: Id): Origin {
    if id in c.shards then c.shards[id].pin.origin else SessionStart
  }

  predicate SameMarker(s: Conn, t: Conn, id: Id) {
    (id in s.refused) == (id in t.refused) && (id in s.refused ==> s.refused[id] == t.refused[id])
  }

  /** The agent decided, or did not, alike; is as firmly pinned; and holds the same marker. */
  predicate SameStanding(s: Conn, t: Conn, fs: Fs, id: Id) {
    Decided(s, fs, id) == Decided(t, fs, id) &&
    (Decided(s, fs, id) ==> DecidedRoot(s, fs, id) == DecidedRoot(t, fs, id)) &&
    PinnedSelf(s, id) == PinnedSelf(t, id) && SeatOrigin(s, id) == SeatOrigin(t, id) && SameMarker(s, t, id)
  }

  /** Markers are no part of where anybody stands. */
  lemma MarkersApart(c: Conn, c': Conn, fs: Fs, id: Id)
    requires c' == c.(refused := c'.refused)
    ensures Decided(c', fs, id) == Decided(c, fs, id) && (Decided(c, fs, id) ==> DecidedRoot(c', fs, id) == DecidedRoot(c, fs, id))
    ensures PinnedSelf(c', id) == PinnedSelf(c, id) && SeatOrigin(c', id) == SeatOrigin(c, id)
  {
  }

  /** What a state must keep for its agents' standing to be all there is to it. */
  predicate Firm(c: Conn) {
    OwnershipInv(c) && c.pin.origin == SessionStart
  }

  /** No agent of conv stands anywhere else, and none lost its shard. */
  ghost predicate Quiet(c: Conn, c': Conn, fs: Fs, conv: Id) {
    c'.pin == c.pin && c'.persist == c.persist &&
    forall id: Id | LinkageOf(id) == conv :: SameStanding(c, c', fs, id) && (id in c.shards ==> id in c'.shards)
  }

  lemma QuietTwice(c: Conn, c1: Conn, c2: Conn, fs: Fs, conv: Id)
    requires Quiet(c, c1, fs, conv) && Quiet(c1, c2, fs, conv)
    ensures Quiet(c, c2, fs, conv)
  {
  }

  lemma IdentitiesQuiet(c: Conn, c': Conn, fs: Fs, conv: Id)
    requires OnlyIdentities(c, c')
    ensures Quiet(c, c', fs, conv)
  {
  }

  /** Building a shard moves nobody. */
  lemma ShardOfQuiet(c: Conn, fs: Fs, id: Id, conv: Id)
    requires Firm(c)
    ensures Quiet(c, ShardOf(c, fs, id), fs, conv) && Firm(ShardOf(c, fs, id))
  {
    if id !in c.shards {
      SeedsWhereItStands(c, fs, id);
      SeedOrigin(c, fs, id);
      forall x: Id | LinkageOf(x) == conv
        ensures SameStanding(c, ShardOf(c, fs, id), fs, x)
      {
        ShardOfStanding(c, fs, id, x);
      }
    }
  }

  lemma ShardOfStanding(c: Conn, fs: Fs, id: Id, x: Id)
    requires Firm(c)
    ensures SameStanding(c, ShardOf(c, fs, id), fs, x)
  {
    if id !in c.shards && x == id {
      SeedsWhereItStands(c, fs, id);
      SeedOrigin(c, fs, id);
    }
  }

  lemma SeedOrigin(c: Conn, fs: Fs, id: Id)
    requires Firm(c)
    ensures SeedShard(c, fs, id).pin.origin == SessionStart
  {
  }

  lemma OrientQuiet(c: Conn, fs: Fs, id: Id, conv: Id)
    requires Firm(c)
    ensures Quiet(c, Orient(c, fs, id), fs, conv) && Firm(Orient(c, fs, id))
  {
    ShardOfQuiet(c, fs, id, conv);
  }

  // ---- an agent's own session_start -------------------------------------------------------------

  /** The subagents that chose nothing go with their conversation when it moves. */
  predicate Swept(c: Conn, fs: Fs, id: Id, x: Id, root: Path)
    requires id in c.shards
  {
    x != id && LinkageOf(x) == id && !Decided(c, fs, x) && root != c.shards[id].pin.root
  }

  /** What id's move to root does to another agent's standing. */
  predicate Bystander(c: Conn, c': Conn, fs: Fs, id: Id, x: Id, root: Path)
    requires id in c.shards
  {
    Decided(c', fs, x) == Decided(c, fs, x) && (Decided(c, fs, x) ==> DecidedRoot(c', fs, x) == DecidedRoot(c, fs, x)) &&
    PinnedSelf(c', x) == PinnedSelf(c, x) && SameMarker(c, c', x) && (x in c'.shards) == (x in c.shards) &&
    SeatOrigin(c', x) == if Swept(c, fs, id, x, root) then SessionStart else SeatOrigin(c, x)
  }

  /** Where the move leaves id itself. */
  predicate Took(c': Conn, id: Id, root: Path) {
    id in c'.shards && c'.shards[id].selfPinned && c'.shards[id].pin.root == root && c'.shards[id].pin.origin == SessionStart
  }

  lemma MoveBystander(c: Conn, fs: Fs, id: Id, pin: Pin, x: Id)
    requires Converged(c, fs) && id in c.shards && x != id && pin.origin == SessionStart
    ensures Bystander(c, Moved(c, id, pin), fs, id, x, pin.root)
  {
    NonEmptyRoots(c, fs, id);
    MovedFrame(c, id, pin);
    MovedShards(c, id, pin);
    var c' := Moved(c, id, pin);
    assert x in c.store.agentPins <==> x in c.store.agentPins - {id};
    assert x in c'.store.agentPins <==> x in c'.store.agentPins - {id};
    assert Restorable(c', fs, x) == Restorable(c, fs, x);
    if x in c.shards {
      MovedOrigin(c, fs, id, pin, x);
    }
  }

  lemma MovedOrigin(c: Conn, fs: Fs, id: Id, pin: Pin, x: Id)
    requires Converged(c, fs) && id in c.shards && x != id && pin.origin == SessionStart && x in c.shards
    ensures var m := Moved(c, id, pin).shards;
      x in m && m[x].pin.origin == if Swept(c, fs, id, x, pin.root) then SessionStart else c.shards[x].pin.origin
  {
    NonEmptyRoots(c, fs, id);
  }

  /** The re-pin of a shard, unless refused: the agent takes the root, and its undecided subagents with it. */
  lemma RepinAgentEffect(c: Conn, fs: Fs, id: Id, t: Target, force: bool, x: Id)
    requires Converged(c, fs) && id in c.shards && !AgentMoveRefused(c.shards[id], t.root, force)
    ensures var c' := RepinAgent(c, id, t, SessionStart, force).0;
      Took(c', id, t.root) && c'.pin == c.pin && c'.persist == c.persist && c'.refused == c.refused &&
      (x != id ==> Bystander(c, c', fs, id, x, t.root))
  {
    var sh := c.shards[id];
    var pin := Pin(t.root, t.lang, SessionStart);
    var c' := RepinAgent(c, id, t, SessionStart, force).0;
    MovedFrame(c, id, pin);
    if t.root == sh.pin.root && t.lang == sh.pin.lang && sh.selfPinned {
    } else {
      assert c' == Moved(c, id, pin);
      MovedShards(c, id, pin);
      if x != id {
        MoveBystander(c, fs, id, pin, x);
      }
    }
  }
  lemma OthersMarkersQuiet(c: Conn, c': Conn, fs: Fs, conv: Id)
    requires c' == c.(refused := c'.refused) && forall x: Id | LinkageOf(x) == conv :: SameMarker(c, c', x)
    ensures Quiet(c, c', fs, conv)
  {
    forall x: Id | LinkageOf(x) == conv
      ensures SameStanding(c, c', fs, x) && (x in c.shards ==> x in c'.shards)
    {
      MarkersApart(c, c', fs, x);
    }
  }

  lemma ForeignRepinAgentQuiet(c: Conn, fs: Fs, id: Id, t: Target, force: bool, conv: Id)
    requires Converged(c, fs) && id in c.shards && LinkageOf(id) != conv
    ensures Quiet(c, RepinAgent(c, id, t, SessionStart, force).0, fs, conv)
  {
    var c1 := RepinAgent(c, id, t, SessionStart, force).0;
    if AgentMoveRefused(c.shards[id], t.root, force) {
      OthersMarkersQuiet(c, c1, fs, conv);
    } else {
      RepinAgentEffect(c, fs, id, t, force, id);
      forall x: Id | LinkageOf(x) == conv
        ensures SameStanding(c, c1, fs, x) && (x in c.shards ==> x in c1.shards)
      {
        RepinAgentEffect(c, fs, id, t, force, x);
        LinkageIsConversation(x);
      }
    }
  }

  /** Another conversation's agent-scoped re-pin moves none of conv's agents. */
  lemma ForeignRepinQuiet(c: Conn, fs: Fs, id: Id, t: Target, force: bool, conv: Id)
    requires Converged(c, fs) && Firm(c) && id != "" && LinkageOf(id) != conv
    ensures Quiet(c, RepinOnAgent(c, fs, id, t, SessionStart, force).0, fs, conv)
  {
    var c0 := ShardOf(c, fs, id);
    ShardOfQuiet(c, fs, id, conv);
    ShardOfConverges(c, fs, id);
    var c1 := RepinAgent(c0, id, t, SessionStart, force).0;
    ForeignRepinAgentQuiet(c0, fs, id, t, force, conv);
    QuietTwice(c, c0, c1, fs, conv);
    OthersMarkersQuiet(c1, ClearRefused(c1, id), fs, conv);
    QuietTwice(c, c1, ClearRefused(c1, id), fs, conv);
  }

  // ---- two runs, side by side -------------------------------------------------------------------

  /** A declaration is refused only to an agent with a shard, while it has not decided. */
  predicate MarkersHeld(c: Conn) {
    forall id :: id in c.refused ==> id in c.shards && !Chose(c.shards[id])
  }

  /** What both runs keep. */
  predicate Held(c: Conn, fs: Fs) {
    Converged(c, fs) && MarkersHeld(c) && c.pin.origin == SessionStart && |c.seen| > 1
  }

  /**
   conv's agents stand alike. One that decided for itself while its conversation has not is known by its shard
   to both, so that a marker on the conversation cannot silence it in one alone.
   */
  ghost predicate Kin(s: Conn, t: Conn, fs: Fs, conv: Id) {
    s.pin == t.pin && s.persist == t.persist &&
    forall id: Id | LinkageOf(id) == conv :: SameStanding(s, t, fs, id) && Known(s, t, fs, id)
  }

  predicate Known(s: Conn, t: Conn, fs: Fs, id: Id) {
    Subagent(id) && Decided(s, fs, id) && !Decided(s, fs, LinkageOf(id)) ==> id in s.shards && id in t.shards
  }

  lemma KinQuiet(s: Conn, t: Conn, s': Conn, t': Conn, fs: Fs, conv: Id)
    requires Kin(s, t, fs, conv) && Quiet(s, s', fs, conv) && Quiet(t, t', fs, conv)
    ensures Kin(s', t', fs, conv)
  {
    forall id: Id | LinkageOf(id) == conv
      ensures SameStanding(s', t', fs, id) && Known(s', t', fs, id)
    {
      assert SameStanding(s, t, fs, id) && Known(s, t, fs, id);
      LinkageIsConversation(id);
      assert SameStanding(s, s', fs, conv);
    }
  }

  lemma StandAlike(s: Conn, t: Conn, fs: Fs, conv: Id, id: Id)
    requires Kin(s, t, fs, conv) && LinkageOf(id) == conv
    ensures StandsAt(s, fs, id) == StandsAt(t, fs, id)
  {
    LinkageIsConversation(id);
    assert SameStanding(s, t, fs, conv) && SameStanding(s, t, fs, id);
  }

  /** The sticky rule cannot tell two shards of agents that stand alike apart. */
  lemma RefusedAlike(s: Conn, t: Conn, fs: Fs, conv: Id, id: Id, root: Path, force: bool)
    requires Kin(s, t, fs, conv) && LinkageOf(id) == conv && id in s.shards && id in t.shards
    requires Converged(s, fs) && Converged(t, fs)
    ensures AgentMoveRefused(s.shards[id], root, force) == AgentMoveRefused(t.shards[id], root, force)
    ensures s.shards[id].pin.root == t.shards[id].pin.root && Chose(s.shards[id]) == Chose(t.shards[id])
  {
    StandAlike(s, t, fs, conv, id);
    SitsWhereItStands(s, fs, id);
    SitsWhereItStands(t, fs, id);
    assert SameStanding(s, t, fs, id);
  }

  /** Both runs mark, or clear, the same agents of conv alike. */
  lemma MarkKin(s: Conn, t: Conn, s': Conn, t': Conn, fs: Fs, conv: Id)
    requires Kin(s, t, fs, conv) && s' == s.(refused := s'.refused) && t' == t.(refused := t'.refused)
    requires forall x: Id | LinkageOf(x) == conv :: SameMarker(s', t', x)
    ensures Kin(s', t', fs, conv)
  {
    forall x: Id | LinkageOf(x) == conv
      ensures SameStanding(s', t', fs, x) && Known(s', t', fs, x)
    {
      assert SameStanding(s, t, fs, x) && Known(s, t, fs, x);
      MarkersApart(s, s', fs, x);
      MarkersApart(t, t', fs, x);
      MarkersApart(s, s', fs, LinkageOf(x));
    }
  }

  lemma KinMarkers(s: Conn, t: Conn, fs: Fs, conv: Id, x: Id)
    requires Kin(s, t, fs, conv) && LinkageOf(x) == conv
    ensures SameMarker(s, t, x)
  {
  }

  /** A refused re-pin leaves the same marker, or none, in both. */
  lemma RefusalKin(s: Conn, t: Conn, fs: Fs, conv: Id, id: Id, target: Target, force: bool)
    requires Kin(s, t, fs, conv) && LinkageOf(id) == conv && id in s.shards && id in t.shards
    requires Converged(s, fs) && Converged(t, fs) && AgentMoveRefused(s.shards[id], target.root, force)
    ensures Kin(RepinAgent(s, id, target, SessionStart, force).0, RepinAgent(t, id, target, SessionStart, force).0, fs, conv)
  {
    RefusedAlike(s, t, fs, conv, id, target.root, force);
    var s1, t1 := RepinAgent(s, id, target, SessionStart, force).0, RepinAgent(t, id, target, SessionStart, force).0;
    forall x: Id | LinkageOf(x) == conv ensures SameMarker(s1, t1, x) {
      KinMarkers(s, t, fs, conv, x);
    }
    MarkKin(s, t, s1, t1, fs, conv);
  }

  /** An accepted one takes the same root in both. */
  lemma MoveKin(s: Conn, t: Conn, fs: Fs, conv: Id, id: Id, target: Target, force: bool)
    requires Kin(s, t, fs, conv) && LinkageOf(id) == conv && id in s.shards && id in t.shards
    requires Converged(s, fs) && Converged(t, fs) && !AgentMoveRefused(s.shards[id], target.root, force)
    ensures Kin(RepinAgent(s, id, target, SessionStart, force).0, RepinAgent(t, id, target, SessionStart, force).0, fs, conv)
  {
    RefusedAlike(s, t, fs, conv, id, target.root, force);
    var s1, t1 := RepinAgent(s, id, target, SessionStart, force).0, RepinAgent(t, id, target, SessionStart, force).0;
    RepinAgentEffect(s, fs, id, target, force, id);
    RepinAgentEffect(t, fs, id, target, force, id);
    forall x: Id | LinkageOf(x) == conv
      ensures SameStanding(s1, t1, fs, x) && Known(s1, t1, fs, x)
    {
      assert SameStanding(s, t, fs, x) && Known(s, t, fs, x);
      LinkageIsConversation(x);
      RepinAgentEffect(s, fs, id, target, force, x);
      RepinAgentEffect(t, fs, id, target, force, x);
      RepinAgentEffect(s, fs, id, target, force, conv);
      RepinAgentEffect(t, fs, id, target, force, conv);
    }
  }

  lemma ClearKin(s: Conn, t: Conn, fs: Fs, conv: Id, id: Id)
    requires Kin(s, t, fs, conv)
    ensures Kin(ClearRefused(s, id), ClearRefused(t, id), fs, conv)
  {
    var s1, t1 := ClearRefused(s, id), ClearRefused(t, id);
    forall x: Id | LinkageOf(x) == conv ensures SameMarker(s1, t1, x) {
      KinMarkers(s, t, fs, conv, x);
    }
    MarkKin(s, t, s1, t1, fs, conv);
  }

  /** A session_start of conv's own agent, scoped to it. */
  lemma RepinOnAgentKin(s: Conn, t: Conn, fs: Fs, conv: Id, id: Id, target: Target, force: bool)
    requires Kin(s, t, fs, conv) && LinkageOf(id) == conv && id != ""
    requires Converged(s, fs) && Converged(t, fs) && Firm(s) && Firm(t)
    ensures Kin(RepinOnAgent(s, fs, id, target, SessionStart, force).0,
                RepinOnAgent(t, fs, id, target, SessionStart, force).0, fs, conv)
  {
    var s0, t0 := ShardOf(s, fs, id), ShardOf(t, fs, id);
    ShardOfQuiet(s, fs, id, conv);
    ShardOfQuiet(t, fs, id, conv);
    ShardOfConverges(s, fs, id);
    ShardOfConverges(t, fs, id);
    KinQuiet(s, t, s0, t0, fs, conv);
    RefusedAlike(s0, t0, fs, conv, id, target.root, force);
    var s1, t1 := RepinAgent(s0, id, target, SessionStart, force).0, RepinAgent(t0, id, target, SessionStart, force).0;
    if AgentMoveRefused(s0.shards[id], target.root, force) {
      RefusalKin(s0, t0, fs, conv, id, target, force);
    } else {
      MoveKin(s0, t0, fs, conv, id, target, force);
      ClearKin(s1, t1, fs, conv, id);
    }
  }

  // ---- a move of the connection -----------------------------------------------------------------

  /** What the connection's move does to one agent: whoever follows it takes its pin, and an answered marker goes. */
  predicate Carried(c: Conn, c': Conn, fs: Fs, x: Id) {
    Decided(c', fs, x) == Decided(c, fs, x) && (Decided(c, fs, x) ==> DecidedRoot(c', fs, x) == DecidedRoot(c, fs, x)) &&
    PinnedSelf(c', x) == PinnedSelf(c, x) && (x in c'.shards) == (x in c.shards) &&
    SeatOrigin(c', x) == (if !Decided(c, fs, x) && !ParentDecided(c, fs, x) then SessionStart else SeatOrigin(c, x)) &&
    (x in c'.refused <==> x in c.refused && !(!ParentDecided(c, fs, x) && c.refused[x].requested == c'.pin.root)) &&
    (x in c'.refused ==> c'.refused[x] == c.refused[x])
  }

  lemma FollowCarries(c: Conn, c1: Conn, fs: Fs, x: Id)
    requires Converged(c, fs) && MarkersHeld(c) && OnlyConnPin(c, c1)
    requires c1.pin.root !in {"", c.pin.root} && c1.pin.origin == SessionStart
    ensures Carried(c, FollowConnection(c1, c.pin.root), fs, x)
  {
    var c2 := FollowConnection(c1, c.pin.root);
    if x in c.shards {
      SitsWhereItStands(c, fs, x);
      assert Dragged(c1, x, c.pin.root) <==> !Chose(c.shards[x]) && !ParentDecided(c, fs, x);
    } else {
      assert !Dragged(c1, x, c.pin.root);
      assert Restorable(c2, fs, x) == Restorable(c, fs, x);
    }
  }

  lemma MoveConnectionKin(s: Conn, t: Conn, s': Conn, t': Conn, fs: Fs, conv: Id)
    requires Kin(s, t, fs, conv) && s'.pin == t'.pin && s'.persist == t'.persist
    requires forall x: Id | LinkageOf(x) == conv :: Carried(s, s', fs, x) && Carried(t, t', fs, x)
    ensures Kin(s', t', fs, conv)
  {
    forall x: Id | LinkageOf(x) == conv
      ensures SameStanding(s', t', fs, x) && Known(s', t', fs, x)
    {
      LinkageIsConversation(x);
      assert SameStanding(s, t, fs, x) && Known(s, t, fs, x);
      assert SameStanding(s, t, fs, conv);
      assert Carried(s, s', fs, x) && Carried(t, t', fs, x);
      assert Carried(s, s', fs, conv) && Carried(t, t', fs, conv);
    }
  }
  lemma ConnRowQuiet(c: Conn, c': Conn, fs: Fs, conv: Id)
    requires OnlyConnPin(c, c') && c'.pin == c.pin
    ensures Quiet(c, c', fs, conv)
  {
  }

  /** The connection's re-pin by session_start, its caller's identity stripped. */
  lemma RepinOnConnectionKin(s: Conn, t: Conn, fs: Fs, conv: Id, authorised: bool, target: Target, force: bool)
    requires Held(s, fs) && Held(t, fs) && Kin(s, t, fs, conv)
    ensures var (s', out) := RepinOnConnection(s, fs, "", authorised, target, SessionStart, Live, force);
      var (t', outT) := RepinOnConnection(t, fs, "", authorised, target, SessionStart, Live, force);
      out == outT && s'.pin.origin == SessionStart && Kin(s', t', fs, conv)
  {
    var (s1, moved) := AttachOrRepin(s, fs, "", authorised, target, SessionStart, Live, force);
    var (t1, movedT) := AttachOrRepin(t, fs, "", authorised, target, SessionStart, Live, force);
    AttachOrRepinFrame(s, fs, "", authorised, target, SessionStart, Live, force);
    AttachOrRepinFrame(t, fs, "", authorised, target, SessionStart, Live, force);
    assert moved == movedT && s1.pin == t1.pin && s1.pin.origin == SessionStart;
    Anonymous(s1, s.pin.root, target, moved == ConnMoved);
    Anonymous(t1, t.pin.root, target, moved == ConnMoved);
    if moved == ConnMoved {
      forall x: Id | LinkageOf(x) == conv
        ensures Carried(s, FollowConnection(s1, s.pin.root), fs, x) && Carried(t, FollowConnection(t1, t.pin.root), fs, x)
      {
        FollowCarries(s, s1, fs, x);
        FollowCarries(t, t1, fs, x);
      }
      MoveConnectionKin(s, t, FollowConnection(s1, s.pin.root), FollowConnection(t1, t.pin.root), fs, conv);
    } else {
      ConnRowQuiet(s, s1, fs, conv);
      ConnRowQuiet(t, t1, fs, conv);
      KinQuiet(s, t, s1, t1, fs, conv);
    }
  }

  lemma Anonymous(c: Conn, prevRoot: Path, t: Target, moved: bool)
    ensures SettleConnection(c, "", prevRoot, t, SessionStart, Live, moved) == if moved then FollowConnection(c, prevRoot) else c
    ensures FollowConnection(c, prevRoot).pin == c.pin && FollowConnection(c, prevRoot).persist == c.persist
  {
  }

  lemma StrippedKin(s: Conn, t: Conn, fs: Fs, conv: Id, authorised: bool, folder: Path, force: bool)
    requires Held(s, fs) && Held(t, fs) && Kin(s, t, fs, conv)
    ensures var (s', out) := RepinFrom(s, fs, "", authorised, folder, SessionStart, Live, force);
      var (t', outT) := RepinFrom(t, fs, "", authorised, folder, SessionStart, Live, force);
      out == outT && Firm(s') && Firm(t') && Kin(s', t', fs, conv)
  {
    RepinFromOwnership(s, fs, "", authorised, folder, SessionStart, Live, force);
    RepinFromOwnership(t, fs, "", authorised, folder, SessionStart, Live, force);
    match RepinTarget(fs, folder, SessionStart, Live)
    case None =>
    case Some(target) => RepinOnConnectionKin(s, t, fs, conv, authorised, target, force);
  }

  /** A connection-scoped session_start, whoever makes it. */
  lemma RepinConnectionKin(s: Conn, t: Conn, fs: Fs, conv: Id, id: Id, folder: Path, force: bool)
    requires Held(s, fs) && Held(t, fs) && Kin(s, t, fs, conv)
    ensures Kin(RepinConnection(s, fs, id, folder, force).0, RepinConnection(t, fs, id, folder, force).0, fs, conv)
  {
    StrippedKin(s, t, fs, conv, true, folder, force);
    var (s1, out) := RepinFrom(s, fs, "", true, folder, SessionStart, Live, force);
    var t1 := RepinFrom(t, fs, "", true, folder, SessionStart, Live, force).0;
    ClearKin(s1, t1, fs, conv, id);
    var s2, t2 := ClearRefused(s1, id), ClearRefused(t1, id);
    OrientQuiet(s2, fs, id, conv);
    OrientQuiet(t2, fs, id, conv);
    KinQuiet(s2, t2, Orient(s2, fs, id), Orient(t2, fs, id), fs, conv);
  }

  // ---- whole events -----------------------------------------------------------------------------

  lemma RepinWorkspaceKin(s: Conn, t: Conn, fs: Fs, conv: Id, e: Event)
    requires Held(s, fs) && Held(t, fs) && Kin(s, t, fs, conv) && e.SessionStartCall? && !Foreign(e, conv)
    ensures Kin(RepinWorkspace(s, fs, e).0, RepinWorkspace(t, fs, e).0, fs, conv)
  {
    var id := CallerOf(e);
    if e.workspace != "" {
      if e.connScope {
        RepinConnectionKin(s, t, fs, conv, id, e.workspace, e.force);
      } else if id == "" {
        StrippedKin(s, t, fs, conv, false, e.workspace, e.force);
      } else {
        match RepinTarget(fs, e.workspace, SessionStart, Live)
        case None =>
        case Some(target) => RepinOnAgentKin(s, t, fs, conv, id, target, e.force);
      }
    }
  }

  /** What precedes a session_start's re-pin moves nobody. */
  lemma OrientedQuiet(c: Conn, fs: Fs, e: Event, conv: Id)
    requires Held(c, fs) && e.SessionStartCall?
    ensures var c2 := Orient(BeforeSessionStart(c, fs, e), fs, CallerOf(e)); Held(c2, fs) && Quiet(c, c2, fs, conv)
  {
    var c1 := BeforeSessionStart(c, fs, e);
    BeforeSessionStartFrame(c, fs, e);
    BeforeToolFrame(c, e.stamp, e.marker);
    IdentitiesQuiet(c, c1, fs, conv);
    IdentitiesKeep(c, c1, fs);
    SubsetSize(c.seen, c1.seen);
    OrientQuiet(c1, fs, CallerOf(e), conv);
    OrientConverges(c1, fs, CallerOf(e));
    OrientFrame(c1, fs, CallerOf(e));
    OrientOwnership(c1, fs, CallerOf(e));
    QuietTwice(c, c1, Orient(c1, fs, CallerOf(e)), fs, conv);
  }

  /** A session_start both runs make. */
  lemma SessionStartKin(s: Conn, t: Conn, fs: Fs, conv: Id, e: Event)
    requires Held(s, fs) && Held(t, fs) && Kin(s, t, fs, conv) && e.SessionStartCall? && !Foreign(e, conv)
    ensures Kin(SessionStartStep(s, fs, e), SessionStartStep(t, fs, e), fs, conv)
  {
    OrientedQuiet(s, fs, e, conv);
    OrientedQuiet(t, fs, e, conv);
    var s2 := Orient(BeforeSessionStart(s, fs, e), fs, CallerOf(e));
    var t2 := Orient(BeforeSessionStart(t, fs, e), fs, CallerOf(e));
    KinQuiet(s, t, s2, t2, fs, conv);
    RepinWorkspaceKin(s2, t2, fs, conv, e);
    var s3, t3 := Repinned(s, fs, e).0, Repinned(t, fs, e).0;
    CommitQuiet(s3, fs, e, conv, Succeeds(s, fs, e));
    CommitQuiet(t3, fs, e, conv, Succeeds(t, fs, e));
    KinQuiet(s3, t3, SessionStartStep(s, fs, e), SessionStartStep(t, fs, e), fs, conv);
  }

  lemma CommitQuiet(c: Conn, fs: Fs, e: Event, conv: Id, succeeds: bool)
    requires e.SessionStartCall?
    ensures Quiet(c, if succeeds then CommitIdentity(c, e) else c, fs, conv)
  {
    CommitIdentityFrame(c, e);
    IdentitiesQuiet(c, CommitIdentity(c, e), fs, conv);
    IdentitiesQuiet(c, c, fs, conv);
  }

  /** One that only the first makes. */
  lemma ForeignStartQuiet(c: Conn, fs: Fs, conv: Id, e: Event)
    requires Held(c, fs) && Foreign(e, conv)
    ensures Quiet(c, SessionStartStep(c, fs, e), fs, conv)
  {
    OrientedQuiet(c, fs, e, conv);
    var c2 := Orient(BeforeSessionStart(c, fs, e), fs, CallerOf(e));
    var c3 := Repinned(c, fs, e).0;
    IdentitiesQuiet(c2, c2, fs, conv);
    if e.workspace != "" {
      match RepinTarget(fs, e.workspace, SessionStart, Live)
      case None =>
      case Some(target) => ForeignRepinQuiet(c2, fs, CallerOf(e), target, e.force, conv);
    }
    CommitQuiet(c3, fs, e, conv, Succeeds(c, fs, e));
    QuietTwice(c, c2, c3, fs, conv);
    QuietTwice(c, c3, SessionStartStep(c, fs, e), fs, conv);
  }

  /** A tool call, admitted or not, moves nobody. */
  lemma ToolCallQuiet(c: Conn, fs: Fs, conv: Id, e: Event)
    requires Held(c, fs) && e.ToolCall?
    ensures Quiet(c, ToolCallStep(c, fs, e), fs, conv)
  {
    IdentitiesQuiet(c, c, fs, conv);
    if !RefusedCall(c, e) {
      var c1 := BeforeTool(c, e.stamp, e.marker);
      BeforeToolFrame(c, e.stamp, e.marker);
      IdentitiesQuiet(c, c1, fs, conv);
      AttachForCallFrame(c1, fs, e);
      OrientQuiet(c1, fs, e.stamp, conv);
      var c2 := if e.resolves then Orient(c1, fs, e.stamp) else c1;
      IdentitiesQuiet(c1, c1, fs, conv);
      QuietTwice(c, c1, c2, fs, conv);
      ShardOfQuiet(c2, fs, e.stamp, conv);
      IdentitiesQuiet(c2, c2, fs, conv);
      QuietTwice(c, c2, ToolCallStep(c, fs, e), fs, conv);
    }
  }
  // ---- what every event keeps -------------------------------------------------------------------

  lemma ChoicesKeepMarkers(c: Conn, c': Conn)
    requires MarkersHeld(c) && SameChoices(c, c')
    ensures MarkersHeld(c')
  {
  }

  lemma OrientKeepsMarkers(c: Conn, fs: Fs, id: Id)
    requires MarkersHeld(c)
    ensures MarkersHeld(ShardOf(c, fs, id)) && MarkersHeld(Orient(c, fs, id))
  {
  }

  lemma RepinOnAgentKeepsMarkers(c: Conn, fs: Fs, id: Id, t: Target, force: bool)
    requires MarkersHeld(c) && id != ""
    ensures MarkersHeld(RepinOnAgent(c, fs, id, t, SessionStart, force).0)
  {
    RepinOnAgentChoices(c, fs, id, t, force);
  }

  lemma RepinConnectionMarkers(c: Conn, fs: Fs, id: Id, folder: Path, force: bool)
    requires MarkersHeld(c)
    ensures MarkersHeld(RepinConnection(c, fs, id, folder, force).0)
  {
    RepinFromChoices(c, fs, "", true, folder, force);
    var c1 := RepinFrom(c, fs, "", true, folder, SessionStart, Live, force).0;
    ChoicesKeepMarkers(c, c1);
    ChoicesKeepMarkers(c1, ClearRefused(c1, id));
    OrientKeepsMarkers(ClearRefused(c1, id), fs, id);
  }

  lemma StrippedOrigin(c: Conn, fs: Fs, authorised: bool, folder: Path, force: bool)
    requires c.pin.origin == SessionStart
    ensures RepinFrom(c, fs, "", authorised, folder, SessionStart, Live, force).0.pin.origin == SessionStart
  {
  }

  lemma RepinWorkspaceMarkers(c: Conn, fs: Fs, e: Event)
    requires e.SessionStartCall? && MarkersHeld(c)
    ensures MarkersHeld(RepinWorkspace(c, fs, e).0)
  {
    var id := CallerOf(e);
    if e.workspace != "" {
      if e.connScope {
        RepinConnectionMarkers(c, fs, id, e.workspace, e.force);
      } else if !Routed(c, id) {
        RepinFromChoices(c, fs, id, false, e.workspace, e.force);
      } else {
        match RepinTarget(fs, e.workspace, SessionStart, Live)
        case None =>
        case Some(target) => RepinOnAgentKeepsMarkers(c, fs, id, target, e.force);
      }
    }
  }

  lemma SessionStartMarkers(c: Conn, fs: Fs, e: Event)
    requires e.SessionStartCall? && MarkersHeld(c)
    ensures MarkersHeld(SessionStartStep(c, fs, e))
  {
    var c1 := BeforeSessionStart(c, fs, e);
    BeforeSessionStartFrame(c, fs, e);
    OrientKeepsMarkers(c1, fs, CallerOf(e));
    RepinWorkspaceMarkers(Orient(c1, fs, CallerOf(e)), fs, e);
    CommitIdentityFrame(Repinned(c, fs, e).0, e);
  }

  lemma ToolCallMarkers(c: Conn, fs: Fs, e: Event)
    requires e.ToolCall? && MarkersHeld(c)
    ensures MarkersHeld(ToolCallStep(c, fs, e))
  {
    if !RefusedCall(c, e) {
      var c1 := BeforeTool(c, e.stamp, e.marker);
      BeforeToolFrame(c, e.stamp, e.marker);
      AttachForCallFrame(c1, fs, e);
      var c2 := AttachForCall(c1, fs, e);
      OrientKeepsMarkers(c2, fs, e.stamp);
      OrientKeepsMarkers(if e.resolves then Orient(c2, fs, e.stamp) else c2, fs, e.stamp);
    }
  }

  lemma RootsChangedMarkers(c: Conn, fs: Fs, folders: seq<Path>)
    requires MarkersHeld(c)
    ensures MarkersHeld(RootsChangedStep(c, fs, folders))
  {
    if folders != [] {
      FirstAttachFrame(c, fs, DetectedFolder(fs, folders[0]), Roots);
      var target := RepinTarget(fs, folders[0], Roots, Live);
      if target.Some? {
        RepinOnConnectionChoices(c, fs, "", false, target.value, Roots, Live, false);
      }
    }
  }

  /** Every event, restarts included, leaves refused declarations only with undecided agents that have a shard. */
  lemma StepMarkers(c: Conn, fs: Fs, e: Event)
    requires MarkersHeld(c)
    ensures MarkersHeld(Step(c, fs, e))
  {
    match e
    case SessionStartCall(_, _, _, _, _, _, _) => SessionStartMarkers(c, fs, e);
    case ToolCall(_, _, _, _, _, _, _) => ToolCallMarkers(c, fs, e);
    case RootsChanged(folders) => RootsChangedMarkers(c, fs, folders);
    case Restart(_, _, _, _, _) => RestartRefusesNobody(c, fs, e);
  }

  lemma {:induction false} RunMarkers(c: Conn, fs: Fs, run: seq<Event>)
    requires MarkersHeld(c)
    ensures MarkersHeld(Exec(c, fs, run))
  {
    if run == [] {
    } else {
      RunMarkers(c, fs, run[..|run| - 1]);
      StepMarkers(Exec(c, fs, run[..|run| - 1]), fs, run[|run| - 1]);
    }
  }

  lemma RepinConnectionOrigin(c: Conn, fs: Fs, id: Id, folder: Path, force: bool)
    requires c.pin.origin == SessionStart
    ensures RepinConnection(c, fs, id, folder, force).0.pin.origin == SessionStart
  {
    StrippedOrigin(c, fs, true, folder, force);
    OrientFrame(ClearRefused(RepinFrom(c, fs, "", true, folder, SessionStart, Live, force).0, id), fs, id);
  }

  lemma RepinWorkspaceOrigin(c: Conn, fs: Fs, e: Event)
    requires e.SessionStartCall? && c.pin.origin == SessionStart && |c.seen| > 1
    ensures RepinWorkspace(c, fs, e).0.pin.origin == SessionStart
  {
    var id := CallerOf(e);
    if e.workspace == "" {
    } else if e.connScope {
      RepinConnectionOrigin(c, fs, id, e.workspace, e.force);
    } else if id == "" {
      StrippedOrigin(c, fs, false, e.workspace, e.force);
    } else {
      RepinFromFrame(c, fs, id, false, e.workspace, SessionStart, Live, e.force);
    }
  }

  /** A session_start's pin stays one while two identities are seen. */
  lemma SessionStartOrigin(c: Conn, fs: Fs, e: Event)
    requires Held(c, fs) && e.SessionStartCall?
    ensures SessionStartStep(c, fs, e).pin.origin == SessionStart
  {
    OrientedQuiet(c, fs, e, "");
    RepinWorkspaceOrigin(Orient(BeforeSessionStart(c, fs, e), fs, CallerOf(e)), fs, e);
    CommitIdentityFrame(Repinned(c, fs, e).0, e);
  }

  lemma StepHeld(c: Conn, fs: Fs, e: Event)
    requires Held(c, fs) && !e.Restart?
    ensures Held(Step(c, fs, e), fs)
  {
    TwoSeen(c.seen);
    StepConverges(c, fs, e);
    StepMarkers(c, fs, e);
    Admission.IdentitiesGrow(c, fs, e);
    SubsetSize(c.seen, Step(c, fs, e).seen);
    match e
    case SessionStartCall(_, _, _, _, _, _, _) => SessionStartOrigin(c, fs, e);
    case ToolCall(_, _, _, _, _, _, _) => ToolCallQuiet(c, fs, "", e);
    case RootsChanged(_) =>
  }

  // ---- runs -------------------------------------------------------------------------------------

  lemma StepKin(s: Conn, t: Conn, fs: Fs, conv: Id, e: Event)
    requires Held(s, fs) && Held(t, fs) && Kin(s, t, fs, conv) && !e.Restart? && !Foreign(e, conv)
    ensures Kin(Step(s, fs, e), Step(t, fs, e), fs, conv)
  {
    match e
    case SessionStartCall(_, _, _, _, _, _, _) => SessionStartKin(s, t, fs, conv, e);
    case ToolCall(_, _, _, _, _, _, _) =>
      ToolCallQuiet(s, fs, conv, e);
      ToolCallQuiet(t, fs, conv, e);
      KinQuiet(s, t, Step(s, fs, e), Step(t, fs, e), fs, conv);
    case RootsChanged(_) =>
  }

  lemma {:induction false} RunKin(c: Conn, fs: Fs, run: seq<Event>, conv: Id)
    requires Held(c, fs) && Kin(c, c, fs, conv) && NoRestart(run)
    ensures Held(Exec(c, fs, run), fs) && Held(Exec(c, fs, Erase(run, conv)), fs)
    ensures Kin(Exec(c, fs, run), Exec(c, fs, Erase(run, conv)), fs, conv)
  {
    if run == [] {
    } else {
      var before := run[..|run| - 1];
      var e := run[|run| - 1];
      RunKin(c, fs, before, conv);
      var s, t := Exec(c, fs, before), Exec(c, fs, Erase(before, conv));
      StepHeld(s, fs, e);
      if Foreign(e, conv) {
        ForeignStartQuiet(s, fs, conv, e);
        IdentitiesQuiet(t, t, fs, conv);
        KinQuiet(s, t, Step(s, fs, e), t, fs, conv);
      } else {
        StepHeld(t, fs, e);
        StepKin(s, t, fs, conv, e);
        ExecSnoc(c, fs, Erase(before, conv), e);
      }
    }
  }

  /** What an agent can tell of where it is: the root its calls resolve against, and its refused declaration. */
  predicate SameRoots(s: Conn, t: Conn, fs: Fs, id: Id) {
    WorkspaceFor(s, fs, id) == WorkspaceFor(t, fs, id) && SameMarker(s, t, id)
  }

  lemma KinResolveAlike(s: Conn, t: Conn, fs: Fs, conv: Id, id: Id)
    requires Held(s, fs) && Held(t, fs) && Kin(s, t, fs, conv) && LinkageOf(id) == conv && id != ""
    ensures SameRoots(s, t, fs, id)
  {
    LinkageIsConversation(id);
    assert SameStanding(s, t, fs, id) && Known(s, t, fs, id) && SameStanding(s, t, fs, conv);
    StandAlike(s, t, fs, conv, id);
    ResolvesWhereItStands(s, fs, id);
    ResolvesWhereItStands(t, fs, id);
  }

  /** An agent of conv whose decision only its row knows, under a conversation that has not decided. */
  predicate Latent(c: Conn, fs: Fs, id: Id) {
    Subagent(id) && id !in c.shards && Restorable(c, fs, id).Some? && !Decided(c, fs, LinkageOf(id))
  }

  /**
   On a converged connection with a session_start's pin and two identities, erasing the other conversations'
   agent-scoped session_starts from any run within one daemon lifetime changes no root and no marker of conv's
   agents, provided none of them is latent. Who is admitted does not enter into it.
   */
  lemma ErasingOthersMovesNobody(c: Conn, fs: Fs, run: seq<Event>, conv: Id, id: Id)
    requires Held(c, fs) && NoRestart(run) && conv != "" && LinkageOf(id) == conv
    requires forall x: Id | LinkageOf(x) == conv :: !Latent(c, fs, x)
    ensures SameRoots(Exec(c, fs, run), Exec(c, fs, Erase(run, conv)), fs, id)
  {
    RunKin(c, fs, run, conv);
    KinResolveAlike(Exec(c, fs, run), Exec(c, fs, Erase(run, conv)), fs, conv, id);
  }
}
