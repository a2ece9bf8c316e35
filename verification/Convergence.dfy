/**
 Where the shards that nobody pinned sit: with their conversation if it chose a root, else with the
 connection.
 */
module Convergence {
  import opened Ids
  import opened ConnSpec
  import opened ConnFrames
  import opened Ownership
  import opened Options
  import opened Counting

  predicate Subagent(id: Id) {
    LinkageOf(id) != id && LinkageOf(id) != ""
  }

  /** A shard whose agent chose nothing sits where its conversation chose, or will, and else on the connection. */
  predicate Settled(c: Conn, fs: Fs, id: Id)
    requires id in c.shards
  {
    var parent := LinkageOf(id);
    var root := c.shards[id].pin.root;
    if ParentChose(c.shards, id) then root == c.shards[parent].pin.root
    else if c.shards[id].parentSeeded then
      Subagent(id) && parent !in c.shards && Restorable(c, fs, parent).Some? &&
      root == Restorable(c, fs, parent).value.root
    else
      root == c.pin.root && (Subagent(id) && parent !in c.shards ==> Restorable(c, fs, parent).None?)
  }

  predicate Converged(c: Conn, fs: Fs) {
    OwnershipInv(c) && c.pin.root != "" && "" !in c.shards &&
    forall id :: id in c.shards && !Chose(c.shards[id]) ==> Settled(c, fs, id)
  }

  /** Two identities, or a recently shared connection: every identified call is served by a shard. */
  predicate Many(c: Conn) {
    c.priorShared || exists a, b :: a in c.seen && b in c.seen && a != b
  }

  /** The lone identity's conversation has no shard yet, nor any subagent still waiting to hear where it goes. */
  predicate NoStray(c: Conn, a: Id) {
    a != "" && (a in c.shards ==> '/' in a) &&
    (forall id :: id in c.shards && LinkageOf(id) == a && id != a ==> Chose(c.shards[id])) &&
    (forall id :: id in c.refused ==> LinkageOf(id) != a)
  }

  /** Nobody's subagent is waiting on a row the connection itself may still write for its conversation. */
  predicate Sheltered(c: Conn) {
    !c.persist || Many(c) ||
    ((c.seen == {} ==> c.shards == map[] && c.refused == map[]) && forall a :: a in c.seen ==> NoStray(c, a))
  }

  lemma NonEmptyRoots(c: Conn, fs: Fs, id: Id)
    requires Converged(c, fs) && id in c.shards
    ensures c.shards[id].pin.root != ""
  {
  }

  /** Identity bookkeeping is irrelevant to where shards sit. */
  lemma IdentitiesKeep(c: Conn, c': Conn, fs: Fs)
    requires Converged(c, fs) && OnlyIdentities(c, c')
    ensures Converged(c', fs)
  {
  }

  /** Creating a shard changes where no other agent sits, and a parent restored late meets its subagents. */
  lemma ShardOfConverges(c: Conn, fs: Fs, id: Id)
    requires Converged(c, fs) && id != ""
    ensures Converged(ShardOf(c, fs, id), fs)
  {
    var c' := ShardOf(c, fs, id);
    ShardOfOwnership(c, fs, id);
    LinkageIsConversation(id);
    if id !in c.shards {
      forall other | other in c'.shards && !Chose(c'.shards[other])
        ensures Settled(c', fs, other)
      {
        if other != id {
          assert Settled(c, fs, other);
          LinkageIsConversation(other);
        }
      }
    }
  }

  /** The state after an agent took a root of its own and its subagents followed it. */
  function Moved(c: Conn, id: Id, pin: Pin): Conn
    requires id in c.shards
  {
    var c1 := MoveShard(c, id, pin);
    if pin.root != c.shards[id].pin.root then FollowParent(c1, id, c.shards[id].pin.root) else c1
  }

  /** The move touches its own shard, its subagents' shards and its own row. */
  lemma MovedFrame(c: Conn, id: Id, pin: Pin)
    requires id in c.shards
    ensures var c' := Moved(c, id, pin);
      c' == c.(shards := c'.shards, store := c.store.(agentPins := c'.store.agentPins)) &&
      c'.store.agentPins - {id} == c.store.agentPins - {id}
  {
    assert c.store.agentPins[id := pin] - {id} == c.store.agentPins - {id};
  }

  lemma MovedShards(c: Conn, id: Id, pin: Pin)
    requires id in c.shards
    ensures var m := Moved(c, id, pin).shards;
      m.Keys == c.shards.Keys && m[id] == c.shards[id].(pin := pin, selfPinned := true) &&
      forall other :: other in m && other != id ==>
        m[other] == c.shards[other] ||
        (LinkageOf(other) == id && !Chose(c.shards[other]) && m[other] == c.shards[other].(pin := pin))
  {
  }

  /** Settled looks only at the shard itself, its parent's shard or row, and the connection's root. */
  lemma SettledStable(c: Conn, c': Conn, fs: Fs, other: Id)
    requires other in c.shards && other in c'.shards && c'.shards[other] == c.shards[other]
    requires c'.pin.root == c.pin.root && c'.persist == c.persist
    requires var p := LinkageOf(other);
      (p in c'.shards <==> p in c.shards) &&
      (p in c.shards && p != other ==>
        (Chose(c'.shards[p]) == Chose(c.shards[p]) &&
         (Chose(c.shards[p]) ==> c'.shards[p].pin.root == c.shards[p].pin.root))) &&
      (Subagent(other) && p !in c.shards ==> LoadAgentPin(c', p) == LoadAgentPin(c, p))
    requires Settled(c, fs, other)
    ensures Settled(c', fs, other)
  {
  }

  /** A subagent of the agent that moved. */
  lemma SubagentFollowsMove(c: Conn, fs: Fs, id: Id, pin: Pin, other: Id)
    requires Converged(c, fs) && id in c.shards && other in c.shards && other != id && LinkageOf(other) == id
    requires !Chose(c.shards[other])
    ensures other in Moved(c, id, pin).shards && Moved(c, id, pin).shards[other].pin.root == pin.root
  {
    LinkageIsConversation(other);
    NonEmptyRoots(c, fs, id);
    assert Settled(c, fs, other);
    if pin.root == c.shards[id].pin.root && !Chose(c.shards[id]) {
      assert Settled(c, fs, id);
    }
  }

  /** An agent taking a root of its own, its subagents following it. */
  lemma MoveConverges(c: Conn, fs: Fs, id: Id, pin: Pin, force: bool)
    requires Converged(c, fs) && id in c.shards && pin.origin == SessionStart && pin.root != ""
    requires !AgentMoveRefused(c.shards[id], pin.root, force)
    ensures Converged(Moved(c, id, pin), fs)
  {
    var c2 := Moved(c, id, pin);
    MoveShardOwnership(c, id, pin, force);
    FollowParentOwnership(MoveShard(c, id, pin), id, c.shards[id].pin.root);
    MovedFrame(c, id, pin);
    MovedShards(c, id, pin);
    forall other | other in c2.shards && !Chose(c2.shards[other])
      ensures Settled(c2, fs, other)
    {
      MovedShards(c, id, pin);
      assert other != id;
      if LinkageOf(other) == id {
        SubagentFollowsMove(c, fs, id, pin, other);
      } else {
        OtherStaysSettled(c, fs, id, pin, other);
      }
    }
  }

  lemma OtherStaysSettled(c: Conn, fs: Fs, id: Id, pin: Pin, other: Id)
    requires Converged(c, fs) && id in c.shards && other in c.shards && other != id && LinkageOf(other) != id
    requires !Chose(c.shards[other]) && other in Moved(c, id, pin).shards
    ensures Settled(Moved(c, id, pin), fs, other)
  {
    var c' := Moved(c, id, pin);
    var parent := LinkageOf(other);
    LinkageIsConversation(other);
    MovedFrame(c, id, pin);
    MovedShards(c, id, pin);
    assert parent in c.store.agentPins <==> parent in c.store.agentPins - {id};
    assert parent in c'.store.agentPins <==> parent in c'.store.agentPins - {id};
    SettledStable(c, c', fs, other);
  }

  lemma RepinAgentConverges(c: Conn, fs: Fs, id: Id, t: Target, force: bool)
    requires Converged(c, fs) && id in c.shards
    ensures Converged(RepinAgent(c, id, t, SessionStart, force).0, fs)
  {
    var sh := c.shards[id];
    var pin := Pin(t.root, t.lang, SessionStart);
    var c' := RepinAgent(c, id, t, SessionStart, force).0;
    if AgentMoveRefused(sh, t.root, force) {
      assert c'.shards == c.shards;
      forall other | other in c'.shards && !Chose(c'.shards[other])
        ensures Settled(c', fs, other)
      {
        assert Settled(c, fs, other);
      }
    } else if t.root == sh.pin.root && t.lang == sh.pin.lang {
      if !sh.selfPinned {
        MoveConverges(c, fs, id, pin, force);
        assert c' == Moved(c, id, pin);
      }
    } else {
      MoveConverges(c, fs, id, pin, force);
      assert c' == Moved(c, id, pin);
    }
  }

  /** No undecided shard was seeded from, or would be settled by, a row of id's. */
  predicate RowUnread(c: Conn, id: Id) {
    id == "" || !c.persist || forall x :: x in c.shards && LinkageOf(x) == id && x != id ==> Chose(c.shards[x])
  }

  /** A caller the connection still answers for is its first identity, and its conversation has no stray. */
  lemma UnroutedIsUnread(c: Conn, id: Id)
    requires Sheltered(c) && !Routed(c, id)
    ensures RowUnread(c, id)
  {
    if id != "" && c.persist {
      UnroutedIsOnly(c, id);
    }
  }

  lemma UnroutedIsOnly(c: Conn, id: Id)
    requires id != "" && !Routed(c, id)
    ensures c.seen <= {id} && !Many(c)
  {
    forall other | other in c.seen
      ensures other == id
    {
      if other != id {
        if id in c.seen {
          assert |{other, id}| == 2;
          SubsetSize({other, id}, c.seen);
        } else {
          SubsetSize({other}, c.seen);
        }
      }
    }
  }

  /** The connection's accepted move: it sits at its new root, and its followers still sit at the previous one. */
  predicate MovedFrom(c: Conn, c1: Conn, id: Id) {
    c1 == c.(pin := c1.pin, store := c1.store) && c1.pin.root != "" &&
    (c1.store.agentPins == c.store.agentPins ||
     (id != "" && c1.store.agentPins - {id} == c.store.agentPins - {id} && id in c1.store.agentPins &&
      c1.store.agentPins[id].origin == SessionStart))
  }

  lemma FollowSettles(c: Conn, c1: Conn, fs: Fs, id: Id, other: Id)
    requires Converged(c, fs) && MovedFrom(c, c1, id) && c1.pin.root != c.pin.root
    requires RowUnread(c, id)
    requires other in c.shards && !Chose(c.shards[other])
    ensures Settled(FollowConnection(c1, c.pin.root), fs, other)
  {
    var c2 := FollowConnection(c1, c.pin.root);
    var parent := LinkageOf(other);
    LinkageIsConversation(other);
    assert Settled(c, fs, other);
    assert FollowsConnection(c1.shards, other) ==> c.shards[other].pin.root == c.pin.root;
    if c.persist && Subagent(other) && parent !in c.shards {
      assert parent != id;
      assert parent in c.store.agentPins <==> parent in c.store.agentPins - {id};
      assert parent in c1.store.agentPins <==> parent in c1.store.agentPins - {id};
      assert LoadAgentPin(c1, parent) == LoadAgentPin(c, parent);
      assert LoadAgentPin(c2, parent) == LoadAgentPin(c1, parent);
    }
  }

  lemma FollowConverges(c: Conn, c1: Conn, fs: Fs, id: Id)
    requires Converged(c, fs) && MovedFrom(c, c1, id) && c1.pin.root != c.pin.root
    requires RowUnread(c, id)
    ensures Converged(FollowConnection(c1, c.pin.root), fs)
  {
    var c2 := FollowConnection(c1, c.pin.root);
    forall row | row in c1.store.agentPins
      ensures c1.store.agentPins[row].origin != Unknown
    {
      if row != id {
        assert row in c1.store.agentPins - {id} ==> row in c.store.agentPins - {id};
      }
    }
    FollowConnectionOwnership(c1, c.pin.root);
    forall other | other in c2.shards && !Chose(c2.shards[other])
      ensures Settled(c2, fs, other)
    {
      FollowSettles(c, c1, fs, id, other);
    }
  }

  /** The row filed for the caller of an accepted connection move is not one any shard was seeded from. */
  lemma AttributionKeeps(c: Conn, c1: Conn, fs: Fs, id: Id)
    requires Converged(c, fs) && MovedFrom(c, c1, id) && c1.pin.root == c.pin.root
    requires RowUnread(c, id)
    ensures Converged(c1, fs)
  {
    forall row | row in c1.store.agentPins
      ensures c1.store.agentPins[row].origin != Unknown
    {
      assert row != id && row in c1.store.agentPins - {id} ==> row in c.store.agentPins - {id};
    }
    forall other | other in c1.shards && !Chose(c1.shards[other])
      ensures Settled(c1, fs, other)
    {
      var parent := LinkageOf(other);
      LinkageIsConversation(other);
      assert Settled(c, fs, other);
      assert parent in c.store.agentPins <==> parent in c.store.agentPins - {id} || (parent == id && id in c.store.agentPins);
      assert parent in c1.store.agentPins <==> parent in c1.store.agentPins - {id} || (parent == id && id in c1.store.agentPins);
      SettledStable(c, c1, fs, other);
    }
  }

  lemma RepinOnConnectionConverges(c: Conn, fs: Fs, id: Id, authorised: bool, t: Target, origin: Origin,
                                   trigger: Trigger, force: bool)
    requires Converged(c, fs) && RowUnread(c, id)
    ensures Converged(RepinOnConnection(c, fs, id, authorised, t, origin, trigger, force).0, fs)
  {
    var (c1, moved) := AttachOrRepin(c, fs, id, authorised, t, origin, trigger, force);
    AttachOrRepinFrame(c, fs, id, authorised, t, origin, trigger, force);
    if moved != ConnRefused {
      var c2 := AttributeConnectionPin(c1, id, t.root, origin, trigger);
      AttributionShape(c1, id, t.root, origin, trigger);
      assert MovedFrom(c, c2, id);
      if moved == ConnMoved {
        FollowConverges(c, c2, fs, id);
        ClearRefusedKeeps(FollowConnection(c2, c.pin.root), fs, id);
      } else {
        AttributionKeeps(c, c2, fs, id);
        ClearRefusedKeeps(c2, fs, id);
      }
    }
  }

  lemma AttributionShape(c: Conn, id: Id, root: Path, origin: Origin, trigger: Trigger)
    ensures var c' := AttributeConnectionPin(c, id, root, origin, trigger);
      c' == c.(store := c.store.(agentPins := c'.store.agentPins)) &&
      (c'.store.agentPins == c.store.agentPins ||
       (id != "" && c'.store.agentPins - {id} == c.store.agentPins - {id} && id in c'.store.agentPins &&
        c'.store.agentPins[id].origin == SessionStart))
  {
  }

  lemma ClearRefusedKeeps(c: Conn, fs: Fs, id: Id)
    requires Converged(c, fs)
    ensures Converged(ClearRefused(c, id), fs)
  {
  }

  lemma RepinFromConverges(c: Conn, fs: Fs, id: Id, authorised: bool, folder: Path, origin: Origin,
                           trigger: Trigger, force: bool)
    requires Converged(c, fs) && (id != "" ==> origin == SessionStart)
    requires Routed(c, id) || RowUnread(c, id)
    ensures Converged(RepinFrom(c, fs, id, authorised, folder, origin, trigger, force).0, fs)
  {
    match RepinTarget(fs, folder, origin, trigger)
    case None =>
    case Some(t) =>
      if Routed(c, id) {
        ShardOfConverges(c, fs, id);
        RepinAgentConverges(ShardOf(c, fs, id), fs, id, t, force);
        ClearRefusedKeeps(RepinAgent(ShardOf(c, fs, id), id, t, SessionStart, force).0, fs, id);
      } else {
        RepinOnConnectionConverges(c, fs, id, authorised, t, origin, trigger, force);
      }
  }

  lemma OrientConverges(c: Conn, fs: Fs, id: Id)
    requires Converged(c, fs)
    ensures Converged(Orient(c, fs, id), fs)
  {
    if Routed(c, id) {
      ShardOfConverges(c, fs, id);
    }
  }

  lemma RepinWorkspaceConverges(c: Conn, fs: Fs, e: Event)
    requires e.SessionStartCall? && Converged(c, fs)
    requires Routed(c, CallerOf(e)) || RowUnread(c, CallerOf(e))
    ensures Converged(RepinWorkspace(c, fs, e).0, fs)
  {
    var id := CallerOf(e);
    if e.workspace == "" {
    } else if e.connScope {
      RepinFromConverges(c, fs, "", true, e.workspace, SessionStart, Live, e.force);
      var c1 := RepinFrom(c, fs, "", true, e.workspace, SessionStart, Live, e.force).0;
      ClearRefusedKeeps(c1, fs, id);
      OrientConverges(ClearRefused(c1, id), fs, id);
    } else {
      RepinFromConverges(c, fs, id, false, e.workspace, SessionStart, Live, e.force);
    }
  }

  // ---- one event ------------------------------------------------------------------------------

  lemma FewerSeenUnrouted(c: Conn, c': Conn, id: Id)
    requires c.seen <= c'.seen && c'.priorShared == c.priorShared && !Routed(c', id)
    ensures !Routed(c, id)
  {
    if id != "" {
      UnroutedIsOnly(c', id);
      SubsetSize(c.seen, {id});
    }
  }

  /** The state a session_start re-pins from. */
  lemma OrientedConverges(c: Conn, fs: Fs, e: Event)
    requires e.SessionStartCall? && Converged(c, fs) && Sheltered(c)
    ensures var c2 := Orient(BeforeSessionStart(c, fs, e), fs, CallerOf(e));
      Converged(c2, fs) && (Routed(c2, CallerOf(e)) || RowUnread(c2, CallerOf(e)))
  {
    var c1 := BeforeSessionStart(c, fs, e);
    BeforeToolFrame(c, e.stamp, e.marker);
    BeforeSessionStartFrame(c, fs, e);
    IdentitiesKeep(c, c1, fs);
    OrientFrame(c1, fs, CallerOf(e));
    OrientConverges(c1, fs, CallerOf(e));
    if !Routed(c1, CallerOf(e)) {
      FewerSeenUnrouted(c, c1, CallerOf(e));
      UnroutedIsUnread(c, CallerOf(e));
    }
  }

  lemma SessionStartConverges(c: Conn, fs: Fs, e: Event)
    requires e.SessionStartCall? && Converged(c, fs) && Sheltered(c)
    ensures Converged(SessionStartStep(c, fs, e), fs)
  {
    OrientedConverges(c, fs, e);
    var c2 := Orient(BeforeSessionStart(c, fs, e), fs, CallerOf(e));
    RepinWorkspaceConverges(c2, fs, e);
    var c3 := RepinWorkspace(c2, fs, e).0;
    CommitIdentityFrame(c3, e);
    IdentitiesKeep(c3, CommitIdentity(c3, e), fs);
  }

  lemma ToolCallConverges(c: Conn, fs: Fs, e: Event)
    requires e.ToolCall? && Converged(c, fs)
    ensures Converged(ToolCallStep(c, fs, e), fs)
  {
    if !RefusedCall(c, e) {
      var c1 := BeforeTool(c, e.stamp, e.marker);
      BeforeToolFrame(c, e.stamp, e.marker);
      IdentitiesKeep(c, c1, fs);
      AttachForCallFrame(c1, fs, e);
      OrientConverges(c1, fs, e.stamp);
      var c2 := if e.resolves then Orient(c1, fs, e.stamp) else c1;
      if e.stamp != "" {
        ShardOfConverges(c2, fs, e.stamp);
      }
    }
  }

  lemma RootsChangedConverges(c: Conn, fs: Fs, folders: seq<Path>)
    requires Converged(c, fs)
    ensures Converged(RootsChangedStep(c, fs, folders), fs)
  {
    if folders != [] {
      RepinFromConverges(c, fs, "", false, folders[0], Roots, Live, false);
    }
  }

  /** One event keeps every undecided shard where its conversation, or else the connection, sits. */
  lemma StepConverges(c: Conn, fs: Fs, e: Event)
    requires Converged(c, fs) && Sheltered(c)
    requires e.Restart? ==> Step(c, fs, e).pin.root != ""
    ensures Converged(Step(c, fs, e), fs)
  {
    match e
    case SessionStartCall(_, _, _, _, _, _, _) => SessionStartConverges(c, fs, e);
    case ToolCall(_, _, _, _, _, _, _) => ToolCallConverges(c, fs, e);
    case RootsChanged(folders) => RootsChangedConverges(c, fs, folders);
    case Restart(_, _, _, _, _) =>
      RestartFrame(c, fs, e);
      RestartOwnership(c, fs, e);
  }
}
