/**
 Sticky ownership over runs: a root an agent chose is moved by that agent alone.
 */
module Ownership {
  import opened Ids
  import opened ConnSpec
  import opened ConnFrames
  import opened Options

  /** Rows are only ever written for a declared root (a Roots row is a legacy one, and is skipped on load). */
  predicate RowsDeclared(c: Conn) {
    forall id :: id in c.store.agentPins ==> c.store.agentPins[id].origin != Unknown
  }

  predicate SoundShard(sh: Shard) {
    Chose(sh) ==> sh.pin.root != "" && sh.pin.origin == SessionStart
  }

  /** A root somebody chose is non-empty and sticky. */
  predicate OwnershipInv(c: Conn) {
    RowsDeclared(c) && forall id :: id in c.shards ==> SoundShard(c.shards[id])
  }

  /** Only actor's chosen root may differ; nobody else's chosen shard is touched at all. */
  predicate Respects(c: Conn, c': Conn, actor: Id) {
    forall id :: id in c.shards ==>
      id in c'.shards && c'.shards[id].restored == c.shards[id].restored &&
      (Chose(c.shards[id]) && id != actor ==> c'.shards[id] == c.shards[id])
  }

  /** No chosen shard is touched. */
  predicate Spares(c: Conn, c': Conn) {
    forall id :: id in c.shards ==>
      id in c'.shards && c'.shards[id].restored == c.shards[id].restored &&
      (Chose(c.shards[id]) ==> c'.shards[id] == c.shards[id])
  }

  /** What one call may do to the shard of the agent that made it. */
  predicate OwnMove(sh: Shard, sh': Shard, force: bool) {
    (sh.selfPinned ==> sh'.selfPinned) &&
    (Chose(sh) && sh'.pin.root != sh.pin.root ==>
       sh'.selfPinned &&
       (force || (!sh.selfPinned && (WithinRoot(sh'.pin.root, sh.pin.root) || WithinRoot(sh.pin.root, sh'.pin.root)))))
  }

  /** One critical section on behalf of actor keeps every agent's ownership. */
  predicate KeepsOwnership(c: Conn, c': Conn, actor: Id, force: bool) {
    OwnershipInv(c') && Respects(c, c', actor) &&
    (actor in c.shards ==> OwnMove(c.shards[actor], c'.shards[actor], force))
  }

  /** A follow-up that touches no chosen shard keeps what the first section established. */
  lemma ThenSpare(c: Conn, c1: Conn, c2: Conn, actor: Id, force: bool)
    requires KeepsOwnership(c, c1, actor, force)
    requires OwnershipInv(c2) && Spares(c1, c2) && (actor in c1.shards ==> actor in c2.shards && c2.shards[actor] == c1.shards[actor])
    ensures KeepsOwnership(c, c2, actor, force)
  {
  }

  lemma ShardOfOwnership(c: Conn, fs: Fs, id: Id)
    requires OwnershipInv(c)
    ensures OwnershipInv(ShardOf(c, fs, id))
    ensures forall other :: other in c.shards ==>
      other in ShardOf(c, fs, id).shards && ShardOf(c, fs, id).shards[other] == c.shards[other]
  {
  }

  lemma FollowParentOwnership(c: Conn, parent: Id, prevRoot: Path)
    requires OwnershipInv(c)
    ensures OwnershipInv(FollowParent(c, parent, prevRoot)) && Spares(c, FollowParent(c, parent, prevRoot))
    ensures parent in c.shards ==> FollowParent(c, parent, prevRoot).shards[parent] == c.shards[parent]
  {
  }

  lemma MoveShardOwnership(c: Conn, id: Id, pin: Pin, force: bool)
    requires OwnershipInv(c) && id in c.shards && pin.origin == SessionStart && pin.root != ""
    requires !AgentMoveRefused(c.shards[id], pin.root, force)
    ensures KeepsOwnership(c, MoveShard(c, id, pin), id, force)
  {
  }

  lemma ConfirmOwnership(c: Conn, id: Id, root: Path, lang: Lang, force: bool)
    requires OwnershipInv(c) && id in c.shards && c.shards[id].pin.root == root != ""
    ensures KeepsOwnership(c, ConfirmShardPin(c, id, root, lang, SessionStart), id, force)
  {
  }

  lemma RepinAgentOwnership(c: Conn, id: Id, t: Target, force: bool)
    requires OwnershipInv(c) && id in c.shards
    ensures KeepsOwnership(c, RepinAgent(c, id, t, SessionStart, force).0, id, force)
  {
    var sh := c.shards[id];
    if !AgentMoveRefused(sh, t.root, force) {
      if t.root == sh.pin.root && t.lang == sh.pin.lang {
        ConfirmOwnership(c, id, t.root, t.lang, force);
      } else {
        var pin := Pin(t.root, t.lang, SessionStart);
        MoveShardOwnership(c, id, pin, force);
        FollowParentOwnership(MoveShard(c, id, pin), id, sh.pin.root);
        ThenSpare(c, MoveShard(c, id, pin), FollowParent(MoveShard(c, id, pin), id, sh.pin.root), id, force);
      }
    }
  }

  lemma FollowConnectionOwnership(c: Conn, prevRoot: Path)
    requires OwnershipInv(c)
    ensures OwnershipInv(FollowConnection(c, prevRoot)) && Spares(c, FollowConnection(c, prevRoot))
  {
  }

  lemma SettleOwnership(c: Conn, id: Id, prevRoot: Path, t: Target, origin: Origin, trigger: Trigger, moved: bool)
    requires OwnershipInv(c)
    ensures OwnershipInv(SettleConnection(c, id, prevRoot, t, origin, trigger, moved))
    ensures Spares(c, SettleConnection(c, id, prevRoot, t, origin, trigger, moved))
  {
    var c1 := AttributeConnectionPin(c, id, t.root, origin, trigger);
    assert c1.shards == c.shards && RowsDeclared(c1);
    FollowConnectionOwnership(c1, prevRoot);
  }

  lemma RepinOnAgentOwnership(c: Conn, fs: Fs, id: Id, t: Target, force: bool)
    requires OwnershipInv(c)
    ensures KeepsOwnership(c, RepinOnAgent(c, fs, id, t, SessionStart, force).0, id, force)
  {
    ShardOfOwnership(c, fs, id);
    RepinAgentOwnership(ShardOf(c, fs, id), id, t, force);
  }

  lemma RepinOnConnectionOwnership(c: Conn, fs: Fs, id: Id, authorised: bool, t: Target, origin: Origin,
                                   trigger: Trigger, force: bool)
    requires OwnershipInv(c)
    ensures var c' := RepinOnConnection(c, fs, id, authorised, t, origin, trigger, force).0;
      OwnershipInv(c') && Spares(c, c')
  {
    var (c1, moved) := AttachOrRepin(c, fs, id, authorised, t, origin, trigger, force);
    AttachOrRepinFrame(c, fs, id, authorised, t, origin, trigger, force);
    SettleOwnership(c1, id, c.pin.root, t, origin, trigger, moved == ConnMoved);
  }

  lemma RepinFromOwnership(c: Conn, fs: Fs, id: Id, authorised: bool, folder: Path, origin: Origin,
                           trigger: Trigger, force: bool)
    requires OwnershipInv(c) && (id != "" ==> origin == SessionStart)
    ensures var c' := RepinFrom(c, fs, id, authorised, folder, origin, trigger, force).0;
      KeepsOwnership(c, c', id, force) && (id == "" ==> Spares(c, c'))
  {
    match RepinTarget(fs, folder, origin, trigger)
    case None =>
    case Some(t) =>
      if Routed(c, id) {
        RepinOnAgentOwnership(c, fs, id, t, force);
      } else {
        RepinOnConnectionOwnership(c, fs, id, authorised, t, origin, trigger, force);
      }
  }

  lemma OrientOwnership(c: Conn, fs: Fs, id: Id)
    requires OwnershipInv(c)
    ensures OwnershipInv(Orient(c, fs, id)) && Spares(c, Orient(c, fs, id))
    ensures forall other :: other in c.shards ==> Orient(c, fs, id).shards[other] == c.shards[other]
  {
  }

  lemma RepinConnectionOwnership(c: Conn, fs: Fs, id: Id, folder: Path, force: bool)
    requires OwnershipInv(c)
    ensures OwnershipInv(RepinConnection(c, fs, id, folder, force).0)
    ensures Spares(c, RepinConnection(c, fs, id, folder, force).0)
  {
    RepinFromOwnership(c, fs, "", true, folder, SessionStart, Live, force);
    var c1 := RepinFrom(c, fs, "", true, folder, SessionStart, Live, force).0;
    OrientOwnership(ClearRefused(c1, id), fs, id);
  }

  /** The agent whose chosen root an event may move: the caller of an agent-scoped session_start. */
  function ActorOf(e: Event): Id {
    if e.SessionStartCall? && !e.connScope && e.workspace != "" then CallerOf(e) else ""
  }

  predicate Forced(e: Event) {
    e.SessionStartCall? && e.force
  }

  lemma RepinWorkspaceOwnership(c: Conn, fs: Fs, e: Event)
    requires OwnershipInv(c) && e.SessionStartCall?
    ensures KeepsOwnership(c, RepinWorkspace(c, fs, e).0, ActorOf(e), Forced(e))
    ensures ActorOf(e) == "" ==> Spares(c, RepinWorkspace(c, fs, e).0)
  {
    if e.workspace == "" {
    } else if e.connScope {
      RepinConnectionOwnership(c, fs, CallerOf(e), e.workspace, e.force);
    } else {
      RepinFromOwnership(c, fs, CallerOf(e), false, e.workspace, SessionStart, Live, e.force);
    }
  }

  lemma SessionStartOwnership(c: Conn, fs: Fs, e: Event)
    requires OwnershipInv(c) && e.SessionStartCall?
    ensures KeepsOwnership(c, SessionStartStep(c, fs, e), ActorOf(e), Forced(e))
    ensures ActorOf(e) == "" ==> Spares(c, SessionStartStep(c, fs, e))
  {
    var c1 := BeforeSessionStart(c, fs, e);
    BeforeSessionStartFrame(c, fs, e);
    OrientOwnership(c1, fs, CallerOf(e));
    var c2 := Orient(c1, fs, CallerOf(e));
    RepinWorkspaceOwnership(c2, fs, e);
    var c3 := RepinWorkspace(c2, fs, e).0;
    CommitIdentityFrame(c3, e);
    assert SessionStartStep(c, fs, e).shards == c3.shards;
    assert SessionStartStep(c, fs, e).store.agentPins == c3.store.agentPins;
  }

  lemma ToolCallOwnership(c: Conn, fs: Fs, e: Event)
    requires OwnershipInv(c) && e.ToolCall?
    ensures OwnershipInv(ToolCallStep(c, fs, e)) && Spares(c, ToolCallStep(c, fs, e))
  {
    if !RefusedCall(c, e) {
      var c0 := BeforeTool(c, e.stamp, e.marker);
      BeforeToolFrame(c, e.stamp, e.marker);
      var c1 := AttachForCall(c0, fs, e);
      AttachForCallFrame(c0, fs, e);
      assert OwnershipInv(c1) && c1.shards == c.shards;
      OrientOwnership(c1, fs, e.stamp);
      var c2 := if e.resolves then Orient(c1, fs, e.stamp) else c1;
      ShardOfOwnership(c2, fs, e.stamp);
    }
  }

  lemma RootsChangedOwnership(c: Conn, fs: Fs, folders: seq<Path>)
    requires OwnershipInv(c)
    ensures OwnershipInv(RootsChangedStep(c, fs, folders)) && Spares(c, RootsChangedStep(c, fs, folders))
  {
    if folders != [] {
      FirstAttachFrame(c, fs, DetectedFolder(fs, folders[0]), Roots);
      RepinFromOwnership(c, fs, "", false, folders[0], Roots, Live, false);
    }
  }

  lemma ReplayedOwnership(c: Conn, fs: Fs, root: Path, origin: Origin)
    requires OwnershipInv(c)
    ensures OwnershipInv(AttachReplayedPin(c, fs, root, origin))
  {
    RepinFromOwnership(c, fs, "", false, root, origin, Restore, false);
  }

  lemma RestartOwnership(c: Conn, fs: Fs, e: Event)
    requires OwnershipInv(c) && e.Restart?
    ensures OwnershipInv(RestartStep(c, fs, e))
  {
    var r := Reconnected(c, e);
    var row := LoadConnPin(r);
    var c1 := if e.replayed == "" || fs.wide(e.replayed) then r else AttachReplayedPin(r, fs, e.replayed, SessionStart);
    ReplayedOwnership(r, fs, e.replayed, SessionStart);
    var c2 := if c1.pin.root == "" && row.Some? && row.value.origin == SessionStart
              then AttachReplayedPin(c1, fs, row.value.root, row.value.origin) else c1;
    if row.Some? {
      ReplayedOwnership(c1, fs, row.value.root, row.value.origin);
    }
    var c3 := FirstAttach(c2, fs, DetectedFolder(fs, e.roots), Roots);
    FirstAttachFrame(c2, fs, DetectedFolder(fs, e.roots), Roots);
    if row.Some? {
      ReplayedOwnership(c3, fs, row.value.root, row.value.origin);
    }
    var c4 := if c3.pin.root == "" && row.Some?
              then AttachReplayedPin(c3, fs, row.value.root, row.value.origin) else c3;
    FirstAttachFrame(c4, fs, DetectedFolder(fs, c4.hint), Unknown);
  }

  /**
   One event of any kind: a chosen root is non-empty and sticky afterwards too, and a shard's chosen
   root differs only if that agent's own agent-scoped session_start moved it, by force or, for a root
   restored but not yet re-chosen, within the same tree. A connection move, a parent's move, another
   agent's call, a tool call and a roots change leave every chosen shard exactly as it was.
   */
  lemma StepOwnership(c: Conn, fs: Fs, e: Event, id: Id)
    requires OwnershipInv(c)
    ensures OwnershipInv(Step(c, fs, e))
    ensures !e.Restart? && id in c.shards && Chose(c.shards[id]) ==>
      id in Step(c, fs, e).shards && Chose(Step(c, fs, e).shards[id]) &&
      (c.shards[id].selfPinned ==> Step(c, fs, e).shards[id].selfPinned)
    ensures !e.Restart? && id in c.shards && Chose(c.shards[id]) && Step(c, fs, e).shards[id] != c.shards[id] ==>
      ActorOf(e) == id && OwnMove(c.shards[id], Step(c, fs, e).shards[id], Forced(e))
  {
    match e
    case SessionStartCall(_, _, _, _, _, _, _) => SessionStartOwnership(c, fs, e);
    case ToolCall(_, _, _, _, _, _, _) => ToolCallOwnership(c, fs, e);
    case RootsChanged(folders) => RootsChangedOwnership(c, fs, folders);
    case Restart(_, _, _, _, _) => RestartOwnership(c, fs, e);
  }

  /** Over any run, restarts included, whatever an agent chose is non-empty and sticky. */
  lemma {:induction false} RunSound(c: Conn, fs: Fs, run: seq<Event>)
    requires OwnershipInv(c)
    ensures OwnershipInv(Exec(c, fs, run))
  {
    if run == [] {
    } else {
      RunSound(c, fs, run[..|run| - 1]);
      StepOwnership(Exec(c, fs, run[..|run| - 1]), fs, run[|run| - 1], "");
    }
  }

  predicate NoRestart(run: seq<Event>) {
    forall i :: 0 <= i < |run| ==> !run[i].Restart?
  }

  /**
   Over a whole run within one daemon lifetime: a self-pinned shard stays self-pinned, non-empty and
   sticky, and if its root is not what it was, some event of the run was its own agent's forced,
   agent-scoped session_start.
   */
  lemma {:induction false} RunOwnership(c: Conn, fs: Fs, run: seq<Event>, id: Id)
    requires OwnershipInv(c) && NoRestart(run)
    requires id in c.shards && c.shards[id].selfPinned
    ensures OwnershipInv(Exec(c, fs, run))
    ensures id in Exec(c, fs, run).shards && Exec(c, fs, run).shards[id].selfPinned
    ensures Exec(c, fs, run).shards[id].pin.root != "" && Exec(c, fs, run).shards[id].pin.origin == SessionStart
    ensures Exec(c, fs, run).shards[id].pin.root == c.shards[id].pin.root ||
      exists i :: 0 <= i < |run| && ActorOf(run[i]) == id && Forced(run[i])
  {
    if run == [] {
    } else {
      var last := |run| - 1;
      RunOwnership(c, fs, run[..last], id);
      var mid := Exec(c, fs, run[..last]);
      StepOwnership(mid, fs, run[last], id);
      if mid.shards[id].pin.root != c.shards[id].pin.root {
        var i :| 0 <= i < last && ActorOf(run[..last][i]) == id && Forced(run[..last][i]);
        assert run[i] == run[..last][i];
      }
    }
  }
}
