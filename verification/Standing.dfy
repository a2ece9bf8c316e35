/**
 Where an agent stands, said without its shard: whether it has decided on a root, in memory or on file, and
 which. On a converged connection that settles the root its calls resolve against, so shards may come early,
 late or not at all.
 */
module Standing {
  import opened Ids
  import opened ConnSpec
  import opened ConnFrames
  import opened Ownership
  import opened Convergence
  import opened Options

  /** The agent chose a root: its shard says so or, if it has none yet, its row. */
  predicate Decided(c: Conn, fs: Fs, id: Id) {
    if id in c.shards then Chose(c.shards[id]) else Restorable(c, fs, id).Some?
  }

  function DecidedRoot(c: Conn, fs: Fs, id: Id): Path
    requires Decided(c, fs, id)
  {
    if id in c.shards then c.shards[id].pin.root else Restorable(c, fs, id).value.root
  }

  predicate ParentDecided(c: Conn, fs: Fs, id: Id) {
    Subagent(id) && Decided(c, fs, LinkageOf(id))
  }

  /** The agent's own decision, else its conversation's, else the connection's root. */
  function StandsAt(c: Conn, fs: Fs, id: Id): Path {
    if Decided(c, fs, id) then DecidedRoot(c, fs, id)
    else if ParentDecided(c, fs, id) then DecidedRoot(c, fs, LinkageOf(id))
    else c.pin.root
  }

  /** A shard sits where its agent stands. */
  lemma SitsWhereItStands(c: Conn, fs: Fs, id: Id)
    requires Converged(c, fs) && id in c.shards
    ensures c.shards[id].pin.root == StandsAt(c, fs, id)
    ensures !Chose(c.shards[id]) ==> (FollowsConnection(c.shards, id) <==> !ParentDecided(c, fs, id))
  {
    LinkageIsConversation(id);
    if !Chose(c.shards[id]) {
      assert Settled(c, fs, id);
    }
  }

  /** So does one not built yet. */
  lemma SeedsWhereItStands(c: Conn, fs: Fs, id: Id)
    requires OwnershipInv(c) && id !in c.shards
    ensures SeedShard(c, fs, id).pin.root == StandsAt(c, fs, id)
    ensures Chose(SeedShard(c, fs, id)) == Decided(c, fs, id) && !SeedShard(c, fs, id).selfPinned
  {
  }

  /**
   On a converged connection a routed call resolves where its agent stands, unless a declaration of its own
   or, while it has not decided itself, of its conversation is refused.
   */
  lemma ResolvesWhereItStands(c: Conn, fs: Fs, id: Id)
    requires Converged(c, fs) && Routed(c, id)
    ensures WorkspaceFor(c, fs, id) == if PendingForCall(c, id) then "" else StandsAt(c, fs, id)
  {
    if id in c.shards {
      SitsWhereItStands(c, fs, id);
    } else {
      SeedsWhereItStands(c, fs, id);
    }
  }
}
