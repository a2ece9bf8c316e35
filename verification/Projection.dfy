/**
 What one conversation can know of a shared connection: a projection that forgets everything filed under
 the other conversations, and proofs that the daemon's critical sections commute with it.
 */
module Projection {
  import opened Ids
  import opened ConnSpec
  import opened ConnFrames
  import opened Options

  /** The entries of conversation conv. */
  function Part<V>(m: map<Id, V>, conv: Id): map<Id, V> {
    map id | id in m && LinkageOf(id) == conv :: m[id]
  }

  predicate TwoConversations(seen: set<Id>) {
    exists a, b :: a in seen && b in seen && LinkageOf(a) != LinkageOf(b)
  }

  /** Conversation conv's calls are admitted, or refused, alike whoever else arrives. */
  predicate Guarded(c: Conn, conv: Id) {
    TwoConversations(c.seen) || (|c.seen| > 1 && conv in c.declared)
  }

  /** Some two identities of different conversations. */
  const Peers: set<Id> := {"a", "b"}

  /** The connection as conversation conv can know it: everything that belongs to others is forgotten. */
  function Own(c: Conn, conv: Id): Conn {
    Conn(c.pin, Part(c.shards, conv), Part(c.refused, conv), Peers, c.declared * {conv}, c.priorShared, "",
         c.persist, c.hint, Store(c.store.connPin, Part(c.store.agentPins, conv), {}, ""))
  }

  lemma SharedByTwo(seen: set<Id>, id: Id, linkage: Id)
    requires TwoConversations(seen)
    ensures SharedWith(seen, id) && !SoleConversationIs(seen, linkage) && !OneConversation(seen, linkage)
  {
    var a, b :| a in seen && b in seen && LinkageOf(a) != LinkageOf(b);
    var rest := seen - {a};
    assert b in rest && |rest| == |seen| - 1;
    assert |rest| > 0;
  }

  lemma GuardedIsShared(c: Conn, conv: Id)
    requires Guarded(c, conv)
    ensures |c.seen| > 1
  {
    if TwoConversations(c.seen) {
      SharedByTwo(c.seen, "", conv);
    }
  }

  lemma PeersAreTwo()
    ensures TwoConversations(Peers)
  {
  }

  // ---- conversation conv's own calls commute with forgetting the others ------------------------

  lemma SeedOwn(c: Conn, fs: Fs, conv: Id, id: Id)
    requires LinkageOf(id) == conv
    ensures SeedShard(c, fs, id) == SeedShard(Own(c, conv), fs, id)
  {
    LinkageIsConversation(id);
  }

  lemma PartInsert<V>(m: map<Id, V>, conv: Id, id: Id, v: V)
    ensures Part(m[id := v], conv) == if LinkageOf(id) == conv then Part(m, conv)[id := v] else Part(m, conv)
  {
  }

  lemma PartRemove<V>(m: map<Id, V>, conv: Id, id: Id)
    ensures Part(m - {id}, conv) == Part(m, conv) - {id}
    ensures LinkageOf(id) != conv ==> Part(m - {id}, conv) == Part(m, conv)
  {
  }

  lemma OwnTwice(c: Conn, conv: Id)
    ensures Own(Own(c, conv), conv) == Own(c, conv)
  {
  }

  /** Two states conversation conv cannot tell apart. */
  predicate Alike(s: Conn, t: Conn, conv: Id) {
    Own(s, conv) == Own(t, conv)
  }

  lemma ShardOfOwn(c: Conn, fs: Fs, conv: Id, id: Id)
    requires LinkageOf(id) == conv
    ensures Alike(ShardOf(c, fs, id), ShardOf(Own(c, conv), fs, id), conv)
  {
    OwnTwice(c, conv);
    SeedOwn(c, fs, conv, id);
    var sh := SeedShard(c, fs, id);
    PartInsert(c.shards, conv, id, sh);
    PartInsert(Own(c, conv).shards, conv, id, sh);
  }

  lemma ShardOfOther(c: Conn, fs: Fs, conv: Id, id: Id)
    requires LinkageOf(id) != conv
    ensures Alike(ShardOf(c, fs, id), c, conv)
  {
  }

  lemma PendingOwn(c: Conn, conv: Id, id: Id)
    requires LinkageOf(id) == conv
    ensures PendingForCall(c, id) == PendingForCall(Own(c, conv), id)
  {
  }

  lemma OrientOwn(c: Conn, fs: Fs, conv: Id, id: Id)
    requires |c.seen| > 1 && LinkageOf(id) == conv
    ensures Alike(Orient(c, fs, id), Orient(Own(c, conv), fs, id), conv)
  {
    PeersAreTwo();
    SharedByTwo(Peers, id, conv);
    ShardOfOwn(c, fs, conv, id);
    PendingOwn(c, conv, id);
    OwnTwice(c, conv);
  }

  lemma OrientOther(c: Conn, fs: Fs, conv: Id, id: Id)
    requires LinkageOf(id) != conv
    ensures Alike(Orient(c, fs, id), c, conv)
  {
    ShardOfOther(c, fs, conv, id);
  }

  lemma ClearRefusedOwn(c: Conn, conv: Id, id: Id)
    ensures Alike(ClearRefused(c, id), ClearRefused(Own(c, conv), id), conv)
    ensures LinkageOf(id) != conv ==> Alike(ClearRefused(c, id), c, conv)
  {
    OwnTwice(c, conv);
    PartRemove(c.refused, conv, id);
    PartRemove(Own(c, conv).refused, conv, id);
  }

  lemma PersistAgentPinOwn(c: Conn, conv: Id, id: Id, pin: Pin)
    ensures LinkageOf(id) == conv ==> Alike(PersistAgentPin(c, id, pin), PersistAgentPin(Own(c, conv), id, pin), conv)
    ensures LinkageOf(id) != conv ==> Alike(PersistAgentPin(c, id, pin), c, conv)
  {
    OwnTwice(c, conv);
    PartInsert(c.store.agentPins, conv, id, pin);
    PartInsert(Own(c, conv).store.agentPins, conv, id, pin);
  }

  /** Replacing one shard. */
  lemma SetShardOwn(c: Conn, conv: Id, id: Id, sh: Shard)
    ensures LinkageOf(id) == conv ==>
      Own(c.(shards := c.shards[id := sh]), conv) == Own(c, conv).(shards := Own(c, conv).shards[id := sh])
    ensures LinkageOf(id) != conv ==> Alike(c.(shards := c.shards[id := sh]), c, conv)
  {
    PartInsert(c.shards, conv, id, sh);
  }

  lemma MoveShardOwn(c: Conn, conv: Id, id: Id, pin: Pin)
    requires id in c.shards && LinkageOf(id) == conv
    ensures Own(MoveShard(c, id, pin), conv) == MoveShard(Own(c, conv), id, pin)
  {
    var sh := c.shards[id].(pin := pin, selfPinned := true);
    SetShardOwn(c, conv, id, sh);
    PersistIsOwn(c.(shards := c.shards[id := sh]), conv, id, pin);
  }

  lemma PersistIsOwn(c: Conn, conv: Id, id: Id, pin: Pin)
    requires LinkageOf(id) == conv
    ensures Own(PersistAgentPin(c, id, pin), conv) == PersistAgentPin(Own(c, conv), id, pin)
  {
    PartInsert(c.store.agentPins, conv, id, pin);
  }

  lemma MoveShardOther(c: Conn, conv: Id, id: Id, pin: Pin)
    requires id in c.shards && LinkageOf(id) != conv
    ensures Alike(MoveShard(c, id, pin), c, conv)
  {
    var sh := c.shards[id].(pin := pin, selfPinned := true);
    SetShardOwn(c, conv, id, sh);
    PersistAgentPinOwn(c.(shards := c.shards[id := sh]), conv, id, pin);
  }

  lemma FollowParentOwn(c: Conn, conv: Id, id: Id, prev: Path)
    requires LinkageOf(id) == conv
    ensures Own(FollowParent(c, id, prev), conv) == FollowParent(Own(c, conv), id, prev)
  {
    if prev != "" && LinkageOf(id) == id && id in c.shards {
      assert Part(FollowedParent(c.shards, id), conv) == FollowedParent(Part(c.shards, conv), id);
    }
  }

  lemma FollowParentOther(c: Conn, conv: Id, id: Id, prev: Path)
    requires LinkageOf(id) != conv
    ensures Alike(FollowParent(c, id, prev), c, conv)
  {
    if prev != "" && LinkageOf(id) == id && id in c.shards {
      assert Part(FollowedParent(c.shards, id), conv) == Part(c.shards, conv);
    }
  }

  lemma RepinAgentOwn(c: Conn, conv: Id, id: Id, t: Target, force: bool)
    requires id in c.shards && LinkageOf(id) == conv
    ensures var (c1, moved) := RepinAgent(c, id, t, SessionStart, force);
      var (o1, movedOwn) := RepinAgent(Own(c, conv), id, t, SessionStart, force);
      Own(c1, conv) == o1 && moved == movedOwn
  {
    var sh := c.shards[id];
    var pin := Pin(t.root, t.lang, SessionStart);
    if AgentMoveRefused(sh, t.root, force) {
      PartInsert(c.refused, conv, id, Refusal(t.root, sh.pin.root));
    } else if t.root == sh.pin.root && t.lang == sh.pin.lang {
      ConfirmOwn(c, conv, id, t);
    } else {
      MoveShardOwn(c, conv, id, pin);
      FollowParentOwn(MoveShard(c, id, pin), conv, id, sh.pin.root);
    }
  }

  lemma ConfirmOwn(c: Conn, conv: Id, id: Id, t: Target)
    requires id in c.shards && LinkageOf(id) == conv
    ensures Own(ConfirmShardPin(c, id, t.root, t.lang, SessionStart), conv) ==
      ConfirmShardPin(Own(c, conv), id, t.root, t.lang, SessionStart)
  {
    var sh := c.shards[id];
    var sh' := sh.(selfPinned := true, pin := sh.pin.(origin := SessionStart));
    SetShardOwn(c, conv, id, sh');
    PersistIsOwn(c.(shards := c.shards[id := sh']), conv, id, Pin(t.root, t.lang, SessionStart));
  }

  lemma RepinAgentOther(c: Conn, conv: Id, id: Id, t: Target, force: bool)
    requires id in c.shards && LinkageOf(id) != conv
    ensures Alike(RepinAgent(c, id, t, SessionStart, force).0, c, conv)
  {
    var sh := c.shards[id];
    var pin := Pin(t.root, t.lang, SessionStart);
    if AgentMoveRefused(sh, t.root, force) {
      PartInsert(c.refused, conv, id, Refusal(t.root, sh.pin.root));
    } else if t.root == sh.pin.root && t.lang == sh.pin.lang {
      var sh' := sh.(selfPinned := true, pin := sh.pin.(origin := SessionStart));
      SetShardOwn(c, conv, id, sh');
      PersistAgentPinOwn(c.(shards := c.shards[id := sh']), conv, id, Pin(t.root, t.lang, SessionStart));
    } else {
      MoveShardOther(c, conv, id, pin);
      FollowParentOther(MoveShard(c, id, pin), conv, id, sh.pin.root);
    }
  }

  // ---- the steps two look-alike states take together -------------------------------------------

  /** Two attached, shared connections that conversation conv cannot tell apart. */
  predicate Twins(s: Conn, t: Conn, conv: Id) {
    conv != "" && Alike(s, t, conv) && Guarded(s, conv) && Guarded(t, conv) && s.pin.root != ""
  }

  lemma RepinOnAgentOwn(c: Conn, fs: Fs, conv: Id, id: Id, t: Target, force: bool)
    requires LinkageOf(id) == conv
    ensures var (c1, out) := RepinOnAgent(c, fs, id, t, SessionStart, force);
      var (o1, outOwn) := RepinOnAgent(Own(c, conv), fs, id, t, SessionStart, force);
      Alike(c1, o1, conv) && out == outOwn
  {
    var c0 := ShardOf(c, fs, id);
    var o0 := ShardOf(Own(c, conv), fs, id);
    ShardOfOwn(c, fs, conv, id);
    RepinAgentOwn(c0, conv, id, t, force);
    RepinAgentOwn(o0, conv, id, t, force);
    var c1 := RepinAgent(c0, id, t, SessionStart, force).0;
    var o1 := RepinAgent(o0, id, t, SessionStart, force).0;
    assert Alike(c1, o1, conv);
    ClearRefusedOwn(c1, conv, id);
    ClearRefusedOwn(o1, conv, id);
  }

  lemma RepinOnAgentOther(c: Conn, fs: Fs, conv: Id, id: Id, t: Target, force: bool)
    requires LinkageOf(id) != conv
    ensures Alike(RepinOnAgent(c, fs, id, t, SessionStart, force).0, c, conv)
  {
    var c0 := ShardOf(c, fs, id);
    ShardOfOther(c, fs, conv, id);
    RepinAgentOther(c0, conv, id, t, force);
    ClearRefusedOwn(RepinAgent(c0, id, t, SessionStart, force).0, conv, id);
  }

  lemma DraggedOwn(c: Conn, conv: Id, id: Id, prev: Path)
    requires LinkageOf(id) == conv
    ensures Dragged(c, id, prev) == Dragged(Own(c, conv), id, prev)
  {
  }

  lemma FollowShardsOwn(c: Conn, conv: Id, prev: Path)
    ensures Part(FollowConnection(c, prev).shards, conv) == FollowConnection(Own(c, conv), prev).shards
  {
    var f := FollowConnection(c, prev).shards;
    var g := FollowConnection(Own(c, conv), prev).shards;
    assert f.Keys == c.shards.Keys && g.Keys == Part(c.shards, conv).Keys;
    forall id | id in g ensures id in f && f[id] == g[id] {
      DraggedOwn(c, conv, id, prev);
    }
  }

  lemma FollowRefusedOwn(c: Conn, conv: Id, prev: Path)
    ensures Part(FollowConnection(c, prev).refused, conv) == FollowConnection(Own(c, conv), prev).refused
  {
    forall id | LinkageOf(id) == conv ensures Dragged(c, id, prev) == Dragged(Own(c, conv), id, prev) {
      DraggedOwn(c, conv, id, prev);
    }
  }

  lemma FollowRowsOwn(c: Conn, conv: Id, prev: Path)
    ensures Part(FollowConnection(c, prev).store.agentPins, conv) ==
      FollowConnection(Own(c, conv), prev).store.agentPins
  {
    forall id | LinkageOf(id) == conv ensures Dragged(c, id, prev) == Dragged(Own(c, conv), id, prev) {
      DraggedOwn(c, conv, id, prev);
    }
  }

  lemma FollowConnectionOwn(c: Conn, conv: Id, prev: Path)
    ensures Own(FollowConnection(c, prev), conv) == FollowConnection(Own(c, conv), prev)
  {
    FollowShardsOwn(c, conv, prev);
    FollowRefusedOwn(c, conv, prev);
    FollowRowsOwn(c, conv, prev);
  }

  lemma AttachOrRepinOwn(c: Conn, fs: Fs, conv: Id, authorised: bool, t: Target, origin: Origin, force: bool)
    requires |c.seen| > 1
    ensures var (c1, moved) := AttachOrRepin(c, fs, "", authorised, t, origin, Live, force);
      var (o1, movedOwn) := AttachOrRepin(Own(c, conv), fs, "", authorised, t, origin, Live, force);
      Own(c1, conv) == o1 && moved == movedOwn
  {
    RefusesAnonymousOwn(c, conv, authorised, t.root, force);
    SetConnPinOwn(c, conv, c.pin.(origin := origin));
    SetConnPinOwn(c, conv, Pin(t.root, fs.acquire(t.root, t.lang), origin));
  }

  lemma RefusesAnonymousOwn(c: Conn, conv: Id, authorised: bool, root: Path, force: bool)
    requires |c.seen| > 1
    ensures RefusesAnonymousForcedMove(c, "", authorised, root, Live, force) ==
      RefusesAnonymousForcedMove(Own(c, conv), "", authorised, root, Live, force)
  {
    PeersAreTwo();
    SharedByTwo(Peers, "", conv);
  }

  lemma SetConnPinOwn(c: Conn, conv: Id, pin: Pin)
    ensures Own(PersistConnPin(c.(pin := pin), pin), conv) == PersistConnPin(Own(c, conv).(pin := pin), pin)
  {
  }

  /** The connection's own re-pin, which every caller may ask for once its identity is stripped. */
  lemma RepinOnConnectionOwn(c: Conn, fs: Fs, conv: Id, authorised: bool, t: Target, origin: Origin, force: bool)
    requires |c.seen| > 1
    ensures var (c1, out) := RepinOnConnection(c, fs, "", authorised, t, origin, Live, force);
      var (o1, outOwn) := RepinOnConnection(Own(c, conv), fs, "", authorised, t, origin, Live, force);
      Own(c1, conv) == o1 && out == outOwn
  {
    AttachOrRepinOwn(c, fs, conv, authorised, t, origin, force);
    var (c1, moved) := AttachOrRepin(c, fs, "", authorised, t, origin, Live, force);
    SettleOwn(c1, conv, c.pin.root, t, origin, moved == ConnMoved);
  }

  lemma SettleOwn(c: Conn, conv: Id, prev: Path, t: Target, origin: Origin, moved: bool)
    ensures Own(SettleConnection(c, "", prev, t, origin, Live, moved), conv) ==
      SettleConnection(Own(c, conv), "", prev, t, origin, Live, moved)
  {
    FollowConnectionOwn(c, conv, prev);
    SettleAnonymous(c, prev, t, origin, moved);
    SettleAnonymous(Own(c, conv), prev, t, origin, moved);
  }

  lemma SettleAnonymous(c: Conn, prev: Path, t: Target, origin: Origin, moved: bool)
    ensures SettleConnection(c, "", prev, t, origin, Live, moved) == if moved then FollowConnection(c, prev) else c
  {
  }

  lemma TwinsShared(s: Conn, t: Conn, conv: Id, id: Id)
    requires Twins(s, t, conv)
    ensures Routed(s, id) == Routed(t, id) == (id != "")
    ensures |s.seen| > 1 && |t.seen| > 1
    ensures s.pin == t.pin
  {
    GuardedIsShared(s, conv);
    GuardedIsShared(t, conv);
  }

  /** A re-pin by conv's own agent, or by nobody in particular. */
  lemma RepinFromTogether(s: Conn, t: Conn, fs: Fs, conv: Id, id: Id, authorised: bool, folder: Path,
                          origin: Origin, force: bool)
    requires Twins(s, t, conv)
    requires id == "" || (LinkageOf(id) == conv && origin == SessionStart)
    ensures var (s1, out) := RepinFrom(s, fs, id, authorised, folder, origin, Live, force);
      var (t1, outT) := RepinFrom(t, fs, id, authorised, folder, origin, Live, force);
      Alike(s1, t1, conv) && out == outT
  {
    TwinsShared(s, t, conv, id);
    match RepinTarget(fs, folder, origin, Live)
    case None =>
    case Some(target) =>
      if id == "" {
        RepinOnConnectionOwn(s, fs, conv, authorised, target, origin, force);
        RepinOnConnectionOwn(t, fs, conv, authorised, target, origin, force);
      } else {
        RepinOnAgentOwn(s, fs, conv, id, target, force);
        RepinOnAgentOwn(t, fs, conv, id, target, force);
      }
  }

  lemma RepinFromOther(c: Conn, fs: Fs, conv: Id, id: Id, folder: Path, force: bool)
    requires |c.seen| > 1 && id != "" && LinkageOf(id) != conv
    ensures Alike(RepinFrom(c, fs, id, false, folder, SessionStart, Live, force).0, c, conv)
  {
    match RepinTarget(fs, folder, SessionStart, Live)
    case None =>
    case Some(target) => RepinOnAgentOther(c, fs, conv, id, target, force);
  }

  lemma OrientTogether(s: Conn, t: Conn, fs: Fs, conv: Id, id: Id)
    requires Alike(s, t, conv) && |s.seen| > 1 && |t.seen| > 1
    ensures Alike(Orient(s, fs, id), Orient(t, fs, id), conv)
  {
    if LinkageOf(id) == conv {
      OrientOwn(s, fs, conv, id);
      OrientOwn(t, fs, conv, id);
    } else {
      OrientOther(s, fs, conv, id);
      OrientOther(t, fs, conv, id);
    }
  }

  lemma ClearRefusedTogether(s: Conn, t: Conn, conv: Id, id: Id)
    requires Alike(s, t, conv)
    ensures Alike(ClearRefused(s, id), ClearRefused(t, id), conv)
  {
    ClearRefusedOwn(s, conv, id);
    ClearRefusedOwn(t, conv, id);
  }

  lemma RepinConnectionTogether(s: Conn, t: Conn, fs: Fs, conv: Id, id: Id, folder: Path, force: bool)
    requires Twins(s, t, conv)
    ensures var (s1, out) := RepinConnection(s, fs, id, folder, force);
      var (t1, outT) := RepinConnection(t, fs, id, folder, force);
      Alike(s1, t1, conv) && out == outT
  {
    TwinsShared(s, t, conv, id);
    RepinFromTogether(s, t, fs, conv, "", true, folder, SessionStart, force);
    RepinFromFrame(s, fs, "", true, folder, SessionStart, Live, force);
    RepinFromFrame(t, fs, "", true, folder, SessionStart, Live, force);
    var s1 := RepinFrom(s, fs, "", true, folder, SessionStart, Live, force).0;
    var t1 := RepinFrom(t, fs, "", true, folder, SessionStart, Live, force).0;
    ClearRefusedTogether(s1, t1, conv, id);
    OrientTogether(ClearRefused(s1, id), ClearRefused(t1, id), fs, conv, id);
  }
}
