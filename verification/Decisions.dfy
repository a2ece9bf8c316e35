/**
 An agent's decision on a root, wherever it is kept: in its shard while it has one, in its row before that and
 after a restart. Nobody else's call moves it, and a refused declaration silences exactly those it is about.
 */
module Decisions {
  import opened Ids
  import opened ConnSpec
  import opened ConnFrames
  import opened Ownership
  import opened Convergence
  import opened Standing
  import opened Options

  // ---- refused declarations ---------------------------------------------------------------------

  /** Whom a refused declaration of id is about: id, and its subagents that have not chosen a root in memory. */
  predicate About(c: Conn, id: Id, x: Id) {
    x == id || (LinkageOf(x) == id && !(x in c.shards && Chose(c.shards[x])))
  }

  lemma RefusalPends(c: Conn, id: Id, requested: Path, sittingOn: Path, x: Id)
    requires id != "" && requested != ""
    ensures PendingForCall(MarkRefused(c, id, requested, sittingOn), x) <==> PendingForCall(c, x) || About(c, id, x)
  {
  }

  lemma MarkersSeedNothing(c: Conn, c': Conn, fs: Fs, x: Id)
    requires c' == c.(refused := c'.refused)
    ensures SeedShard(c', fs, x) == SeedShard(c, fs, x)
  {
  }

  /**
   A refused declaration takes the root away from exactly those it is about, and clearing it gives all of them
   back what they had.
   */
  lemma RefusalSilences(c: Conn, fs: Fs, id: Id, requested: Path, sittingOn: Path, x: Id)
    requires id != "" && requested != ""
    ensures var c' := MarkRefused(c, id, requested, sittingOn);
      WorkspaceFor(c', fs, x) == if About(c, id, x) then "" else WorkspaceFor(c, fs, x)
    ensures id !in c.refused ==> ClearRefused(MarkRefused(c, id, requested, sittingOn), id) == c
  {
    RefusalPends(c, id, requested, sittingOn, x);
    MarkersSeedNothing(c, MarkRefused(c, id, requested, sittingOn), fs, x);
    if id !in c.refused {
      assert c.refused[id := Refusal(requested, sittingOn)] - {id} == c.refused;
    }
  }

  // ---- decisions and their rows -----------------------------------------------------------------

  /** The row a shard's chosen root is filed under, if rows are kept. */
  predicate Filed(c: Conn, id: Id) {
    c.persist && id in c.shards && Chose(c.shards[id]) ==>
      id in c.store.agentPins && c.store.agentPins[id].root == c.shards[id].pin.root &&
      c.store.agentPins[id].origin == SessionStart
  }

  /** id has decided on root, and its row would say so after a restart. */
  predicate DecidedOn(c: Conn, fs: Fs, id: Id, root: Path) {
    Decided(c, fs, id) && DecidedRoot(c, fs, id) == root && Filed(c, id)
  }

  /** The agent whose own decision the event may be. */
  predicate Decides(e: Event, id: Id) {
    e.SessionStartCall? && e.workspace != "" && !e.connScope && CallerOf(e) == id
  }

  /** Nothing of id's own differs, but that its shard may have been built. */
  predicate SameDecision(c: Conn, c': Conn, fs: Fs, id: Id) {
    c'.persist == c.persist &&
    (Decided(c, fs, id) ==> Decided(c', fs, id) && DecidedRoot(c', fs, id) == DecidedRoot(c, fs, id)) &&
    (Filed(c, id) ==> Filed(c', id))
  }

  lemma SameTwice(c: Conn, c1: Conn, c2: Conn, fs: Fs, id: Id)
    requires SameDecision(c, c1, fs, id) && SameDecision(c1, c2, fs, id)
    ensures SameDecision(c, c2, fs, id)
  {
  }

  /** Identities, the connection's pin and markers are no part of a decision. */
  lemma ElsewhereSame(c: Conn, c': Conn, fs: Fs, id: Id)
    requires c'.shards == c.shards && c'.store.agentPins == c.store.agentPins && c'.persist == c.persist
    ensures SameDecision(c, c', fs, id)
  {
  }

  lemma ShardOfSame(c: Conn, fs: Fs, x: Id, id: Id)
    requires OwnershipInv(c)
    ensures SameDecision(c, ShardOf(c, fs, x), fs, id)
  {
    if x !in c.shards {
      SeedsWhereItStands(c, fs, x);
    }
  }

  lemma OrientSame(c: Conn, fs: Fs, x: Id, id: Id)
    requires OwnershipInv(c)
    ensures SameDecision(c, Orient(c, fs, x), fs, id) && OwnershipInv(Orient(c, fs, x))
  {
    ShardOfSame(c, fs, x, id);
    OrientOwnership(c, fs, x);
  }

  lemma MoveSame(c: Conn, fs: Fs, x: Id, pin: Pin, id: Id)
    requires x in c.shards && x != id
    ensures SameDecision(c, Moved(c, x, pin), fs, id)
  {
    MovedFrame(c, x, pin);
    MovedShards(c, x, pin);
    var c' := Moved(c, x, pin);
    assert id in c.store.agentPins <==> id in c.store.agentPins - {x};
    assert id in c'.store.agentPins <==> id in c'.store.agentPins - {x};
  }

  lemma RepinAgentSame(c: Conn, fs: Fs, x: Id, t: Target, force: bool, id: Id)
    requires OwnershipInv(c) && x in c.shards && x != id
    ensures SameDecision(c, RepinAgent(c, x, t, SessionStart, force).0, fs, id)
  {
    var sh := c.shards[x];
    var pin := Pin(t.root, t.lang, SessionStart);
    if AgentMoveRefused(sh, t.root, force) {
      ElsewhereSame(c, RepinAgent(c, x, t, SessionStart, force).0, fs, id);
    } else if t.root == sh.pin.root && t.lang == sh.pin.lang && sh.selfPinned {
    } else {
      MoveSame(c, fs, x, pin, id);
      assert RepinAgent(c, x, t, SessionStart, force).0 == Moved(c, x, pin);
    }
  }

  lemma FollowSame(c: Conn, fs: Fs, prevRoot: Path, id: Id)
    ensures SameDecision(c, FollowConnection(c, prevRoot), fs, id)
  {
  }

  lemma SettleSame(c: Conn, fs: Fs, x: Id, prevRoot: Path, t: Target, origin: Origin, trigger: Trigger, moved: bool, id: Id)
    requires x != id
    ensures SameDecision(c, SettleConnection(c, x, prevRoot, t, origin, trigger, moved), fs, id)
  {
    var c1 := AttributeConnectionPin(c, x, t.root, origin, trigger);
    assert SameDecision(c, c1, fs, id);
    FollowSame(c1, fs, prevRoot, id);
    var c2 := if moved then FollowConnection(c1, prevRoot) else c1;
    ElsewhereSame(c2, ClearRefused(c2, x), fs, id);
  }

  lemma RepinOnAgentSame(c: Conn, fs: Fs, x: Id, t: Target, force: bool, id: Id)
    requires OwnershipInv(c) && x != id
    ensures SameDecision(c, RepinOnAgent(c, fs, x, t, SessionStart, force).0, fs, id)
  {
    var c0 := ShardOf(c, fs, x);
    ShardOfSame(c, fs, x, id);
    ShardOfOwnership(c, fs, x);
    var c1 := RepinAgent(c0, x, t, SessionStart, force).0;
    RepinAgentSame(c0, fs, x, t, force, id);
    SameTwice(c, c0, c1, fs, id);
    ElsewhereSame(c1, ClearRefused(c1, x), fs, id);
    SameTwice(c, c1, ClearRefused(c1, x), fs, id);
  }

  lemma RepinOnConnectionSame(c: Conn, fs: Fs, x: Id, authorised: bool, t: Target, origin: Origin, trigger: Trigger,
                              force: bool, id: Id)
    requires x != id
    ensures SameDecision(c, RepinOnConnection(c, fs, x, authorised, t, origin, trigger, force).0, fs, id)
  {
    var (c1, moved) := AttachOrRepin(c, fs, x, authorised, t, origin, trigger, force);
    AttachOrRepinFrame(c, fs, x, authorised, t, origin, trigger, force);
    ElsewhereSame(c, c1, fs, id);
    SettleSame(c1, fs, x, c.pin.root, t, origin, trigger, moved == ConnMoved, id);
  }

  lemma RepinFromSame(c: Conn, fs: Fs, x: Id, authorised: bool, folder: Path, origin: Origin, trigger: Trigger,
                      force: bool, id: Id)
    requires OwnershipInv(c) && x != id && (x != "" ==> origin == SessionStart)
    ensures SameDecision(c, RepinFrom(c, fs, x, authorised, folder, origin, trigger, force).0, fs, id)
  {
    match RepinTarget(fs, folder, origin, trigger)
    case None =>
    case Some(t) =>
      if Routed(c, x) {
        RepinOnAgentSame(c, fs, x, t, force, id);
      } else {
        RepinOnConnectionSame(c, fs, x, authorised, t, origin, trigger, force, id);
      }
  }

  lemma RepinWorkspaceSame(c: Conn, fs: Fs, e: Event, id: Id)
    requires e.SessionStartCall? && OwnershipInv(c) && id != "" && !Decides(e, id)
    ensures SameDecision(c, RepinWorkspace(c, fs, e).0, fs, id)
  {
    var x := CallerOf(e);
    if e.workspace == "" {
    } else if e.connScope {
      RepinFromSame(c, fs, "", true, e.workspace, SessionStart, Live, e.force, id);
      RepinFromOwnership(c, fs, "", true, e.workspace, SessionStart, Live, e.force);
      var c1 := RepinFrom(c, fs, "", true, e.workspace, SessionStart, Live, e.force).0;
      ElsewhereSame(c1, ClearRefused(c1, x), fs, id);
      OrientSame(ClearRefused(c1, x), fs, x, id);
    } else {
      RepinFromSame(c, fs, x, false, e.workspace, SessionStart, Live, e.force, id);
    }
  }

  lemma SessionStartSame(c: Conn, fs: Fs, e: Event, id: Id)
    requires e.SessionStartCall? && OwnershipInv(c) && id != "" && !Decides(e, id)
    ensures SameDecision(c, SessionStartStep(c, fs, e), fs, id)
  {
    var c1 := BeforeSessionStart(c, fs, e);
    BeforeSessionStartFrame(c, fs, e);
    ElsewhereSame(c, c1, fs, id);
    OrientSame(c1, fs, CallerOf(e), id);
    var c2 := Orient(c1, fs, CallerOf(e));
    RepinWorkspaceSame(c2, fs, e, id);
    var c3 := Repinned(c, fs, e).0;
    CommitIdentityFrame(c3, e);
    ElsewhereSame(c3, SessionStartStep(c, fs, e), fs, id);
    SameTwice(c, c1, c2, fs, id);
    SameTwice(c, c2, c3, fs, id);
  }

  lemma ToolCallSame(c: Conn, fs: Fs, e: Event, id: Id)
    requires e.ToolCall? && OwnershipInv(c)
    ensures SameDecision(c, ToolCallStep(c, fs, e), fs, id)
  {
    if !RefusedCall(c, e) {
      var c0 := BeforeTool(c, e.stamp, e.marker);
      BeforeToolFrame(c, e.stamp, e.marker);
      var c1 := AttachForCall(c0, fs, e);
      AttachForCallFrame(c0, fs, e);
      ElsewhereSame(c, c1, fs, id);
      OrientSame(c1, fs, e.stamp, id);
      var c2 := if e.resolves then Orient(c1, fs, e.stamp) else c1;
      ShardOfSame(c2, fs, e.stamp, id);
    }
  }

  lemma RootsChangedSame(c: Conn, fs: Fs, folders: seq<Path>, id: Id)
    requires OwnershipInv(c) && id != ""
    ensures SameDecision(c, RootsChangedStep(c, fs, folders), fs, id)
  {
    if folders != [] {
      FirstAttachFrame(c, fs, DetectedFolder(fs, folders[0]), Roots);
      ElsewhereSame(c, FirstAttach(c, fs, DetectedFolder(fs, folders[0]), Roots), fs, id);
      RepinFromSame(c, fs, "", false, folders[0], Roots, Live, false, id);
    }
  }
  // ---- restarts ---------------------------------------------------------------------------------

  lemma ReplayedSame(c: Conn, fs: Fs, root: Path, origin: Origin, id: Id)
    requires OwnershipInv(c) && id != ""
    ensures SameDecision(c, AttachReplayedPin(c, fs, root, origin), fs, id) && OwnershipInv(AttachReplayedPin(c, fs, root, origin))
  {
    ReplayedOwnership(c, fs, root, origin);
    RepinFromSame(c, fs, "", false, root, origin, Restore, false, id);
    ElsewhereSame(c, DropPin(c, root), fs, id);
  }

  lemma FirstAttachSame(c: Conn, fs: Fs, target: Option<Target>, origin: Origin, id: Id)
    requires OwnershipInv(c)
    ensures SameDecision(c, FirstAttach(c, fs, target, origin), fs, id) && OwnershipInv(FirstAttach(c, fs, target, origin))
  {
  }

  lemma AttachOnInitSame(c: Conn, fs: Fs, replayed: Path, roots: Path, id: Id)
    requires OwnershipInv(c) && id != ""
    ensures SameDecision(c, AttachOnInit(c, fs, replayed, roots), fs, id)
  {
    var row := LoadConnPin(c);
    var c1 := if replayed == "" || fs.wide(replayed) then c else AttachReplayedPin(c, fs, replayed, SessionStart);
    ReplayedSame(c, fs, replayed, SessionStart, id);
    var c2 := if c1.pin.root == "" && row.Some? && row.value.origin == SessionStart
              then AttachReplayedPin(c1, fs, row.value.root, row.value.origin) else c1;
    var c3 := FirstAttach(c2, fs, DetectedFolder(fs, roots), Roots);
    if row.Some? {
      ReplayedSame(c1, fs, row.value.root, row.value.origin, id);
    }
    FirstAttachSame(c2, fs, DetectedFolder(fs, roots), Roots, id);
    if row.Some? {
      ReplayedSame(c3, fs, row.value.root, row.value.origin, id);
    }
    var c4 := if c3.pin.root == "" && row.Some?
              then AttachReplayedPin(c3, fs, row.value.root, row.value.origin) else c3;
    FirstAttachSame(c4, fs, DetectedFolder(fs, c4.hint), Unknown, id);
    SameTwice(c, c1, c2, fs, id);
    SameTwice(c, c2, c3, fs, id);
    SameTwice(c, c3, c4, fs, id);
  }

  /** A restart brings the decision back from its row if and only if rows are kept and the root still verifies. */
  lemma RestartDecision(c: Conn, fs: Fs, e: Event, id: Id, root: Path)
    requires e.Restart? && OwnershipInv(c) && id != "" && DecidedOn(c, fs, id, root)
    ensures DecidedOn(RestartStep(c, fs, e), fs, id, root) <==> c.persist && RestoreRootIntact(fs, root)
  {
    var r := Reconnected(c, e);
    AttachOnInitSame(r, fs, e.replayed, e.roots, id);
    RestartFrame(c, fs, e);
    if c.persist && RestoreRootIntact(fs, root) {
      assert Restorable(r, fs, id).Some? && Restorable(r, fs, id).value.root == root;
    }
  }

  // ---- runs -------------------------------------------------------------------------------------

  /** The event is no decision of id's own, and a restart finds rows kept and the root intact. */
  predicate LeavesDecided(c: Conn, fs: Fs, e: Event, id: Id, root: Path) {
    !Decides(e, id) && (e.Restart? ==> c.persist && RestoreRootIntact(fs, root))
  }

  lemma StepDecision(c: Conn, fs: Fs, e: Event, id: Id, root: Path)
    requires OwnershipInv(c) && id != "" && DecidedOn(c, fs, id, root) && LeavesDecided(c, fs, e, id, root)
    ensures DecidedOn(Step(c, fs, e), fs, id, root) && (Step(c, fs, e).persist == c.persist)
  {
    match e
    case SessionStartCall(_, _, _, _, _, _, _) => SessionStartSame(c, fs, e, id);
    case ToolCall(_, _, _, _, _, _, _) => ToolCallSame(c, fs, e, id);
    case RootsChanged(folders) => RootsChangedSame(c, fs, folders, id);
    case Restart(_, _, _, _, _) =>
      RestartDecision(c, fs, e, id, root);
      RestartFrame(c, fs, e);
  }

  /**
   A decided agent stays decided on the same root over any run, restarts included, in which it makes no
   agent-scoped session_start of its own: however the connection and the other agents move, whichever shards
   are built when, and whether the decision is in memory or on file.
   */
  lemma {:induction false} RunDecision(c: Conn, fs: Fs, run: seq<Event>, id: Id, root: Path)
    requires OwnershipInv(c) && id != "" && DecidedOn(c, fs, id, root)
    requires forall e :: e in run ==> LeavesDecided(c, fs, e, id, root)
    ensures DecidedOn(Exec(c, fs, run), fs, id, root) && Exec(c, fs, run).persist == c.persist
  {
    if run == [] {
    } else {
      var before, e := run[..|run| - 1], run[|run| - 1];
      RunDecision(c, fs, before, id, root);
      RunSound(c, fs, before);
      assert e in run;
      StepDecision(Exec(c, fs, before), fs, e, id, root);
    }
  }

  // ---- decisions --------------------------------------------------------------------------------

  lemma MoveDecides(c: Conn, id: Id, pin: Pin)
    requires id in c.shards && id != "" && pin.origin == SessionStart && pin.root != ""
    ensures var c' := Moved(c, id, pin); id in c'.shards && Chose(c'.shards[id]) && c'.shards[id].pin.root == pin.root && Filed(c', id)
  {
    MovedFrame(c, id, pin);
    MovedShards(c, id, pin);
  }

  lemma ConfirmDecides(c: Conn, id: Id, t: Target)
    requires id in c.shards && id != "" && Filed(c, id) && t.root == c.shards[id].pin.root
    ensures var c' := ConfirmShardPin(c, id, t.root, t.lang, SessionStart);
      id in c'.shards && Chose(c'.shards[id]) && c'.shards[id].pin.root == t.root && Filed(c', id)
  {
  }

  /** An accepted session_start of an agent with a shard of its own is its decision, filed. */
  lemma ShardedDecides(c: Conn, fs: Fs, id: Id, t: Target, force: bool)
    requires OwnershipInv(c) && id != "" && Filed(c, id)
    ensures var (c', out) := RepinOnAgent(c, fs, id, t, SessionStart, force);
      out != Failed ==> DecidedOn(c', fs, id, t.root)
  {
    var c0 := ShardOf(c, fs, id);
    ShardOfSame(c, fs, id, id);
    assert Filed(c0, id);
    MoveDecides(c0, id, Pin(t.root, t.lang, SessionStart));
    if t.root == c0.shards[id].pin.root {
      ConfirmDecides(c0, id, t);
    }
  }

  lemma AnsweredShard(c: Conn, fs: Fs, id: Id, t: Target, force: bool)
    requires id in c.shards
    ensures var c' := RepinOnConnection(c, fs, id, false, t, SessionStart, Live, force).0;
      id in c'.shards && Chose(c'.shards[id]) == Chose(c.shards[id]) && (Chose(c.shards[id]) ==> c'.shards[id] == c.shards[id])
  {
  }

  lemma AnsweredRow(c: Conn, fs: Fs, id: Id, t: Target, force: bool)
    requires id != "" && c.persist && (id in c.shards ==> Chose(c.shards[id]))
    ensures var (c', out) := RepinOnConnection(c, fs, id, false, t, SessionStart, Live, force);
      c'.persist && c'.shards.Keys == c.shards.Keys &&
      (out != Failed ==> id in c'.store.agentPins && c'.store.agentPins[id].root == t.root &&
                         c'.store.agentPins[id].origin == SessionStart)
  {
  }

  /**
   One of an agent the connection answers for is its decision, filed for the day it gets a shard, exactly if it
   has none yet: the shard a lone subagent was given for its identity hears nothing of it.
   */
  lemma AnsweredDecides(c: Conn, fs: Fs, id: Id, t: Target, force: bool)
    requires id != "" && c.persist && RestoreRootIntact(fs, t.root)
    ensures var (c', out) := RepinOnConnection(c, fs, id, false, t, SessionStart, Live, force);
      out != Failed ==>
        (DecidedOn(c', fs, id, t.root) <==> id in c.shards ==> Chose(c.shards[id]) && c.shards[id].pin.root == t.root)
  {
    if id in c.shards {
      AnsweredShard(c, fs, id, t, force);
    }
    if id in c.shards ==> Chose(c.shards[id]) {
      AnsweredRow(c, fs, id, t, force);
    }
  }
}
