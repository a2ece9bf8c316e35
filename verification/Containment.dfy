/**
 A root that is or contains a home directory is held only by somebody's declaration: over any run, whichever
 of the attach paths, re-pins, follows, restores and replays put it there.
 */
module Containment {
  import opened Ids
  import opened ConnSpec
  import opened ConnFrames
  import opened Ownership
  import opened Options

  predicate Declared(fs: Fs, pin: Pin) {
    pin.root != "" && fs.wide(pin.root) ==> pin.origin == SessionStart
  }

  /** The connection and every shard on it hold a wide root only if it was declared. */
  predicate Contained(c: Conn, fs: Fs) {
    Declared(fs, c.pin) && forall id :: id in c.shards ==> Declared(fs, c.shards[id].pin)
  }

  lemma ShardOfContained(c: Conn, fs: Fs, id: Id)
    requires OwnershipInv(c) && Contained(c, fs)
    ensures Contained(ShardOf(c, fs, id), fs)
  {
  }

  lemma FirstAttachContained(c: Conn, fs: Fs, target: Option<Target>, origin: Origin)
    requires Contained(c, fs)
    ensures Contained(FirstAttach(c, fs, target, origin), fs)
  {
  }

  lemma RehydrateContained(c: Conn, fs: Fs)
    requires Contained(c, fs)
    ensures Contained(RehydratePin(c, fs), fs)
  {
  }

  lemma SeedFromCallContained(c: Conn, fs: Fs, seed: Path)
    requires Contained(c, fs)
    ensures Contained(SeedFromCall(c, fs, seed), fs)
  {
    var c1 := RehydratePin(c, fs);
    RehydrateContained(c, fs);
    FirstAttachContained(c1, fs, DetectedFolder(fs, c1.hint), Unknown);
    var c2 := if c1.pin.root == "" then FirstAttach(c1, fs, DetectedFolder(fs, c1.hint), Unknown) else c1;
    FirstAttachContained(c2, fs, fs.seedRoot(seed, false), Unknown);
  }

  lemma AttachOrRepinContained(c: Conn, fs: Fs, id: Id, authorised: bool, t: Target, origin: Origin, trigger: Trigger,
                               force: bool)
    requires Contained(c, fs) && !UndeclaredWideRoot(fs, t.root, origin)
    ensures Contained(AttachOrRepin(c, fs, id, authorised, t, origin, trigger, force).0, fs)
  {
  }

  lemma SettleContained(c: Conn, fs: Fs, id: Id, prevRoot: Path, t: Target, origin: Origin, trigger: Trigger, moved: bool)
    requires Contained(c, fs)
    ensures Contained(SettleConnection(c, id, prevRoot, t, origin, trigger, moved), fs)
  {
  }

  lemma RepinOnConnectionContained(c: Conn, fs: Fs, id: Id, authorised: bool, t: Target, origin: Origin,
                                   trigger: Trigger, force: bool)
    requires Contained(c, fs) && !UndeclaredWideRoot(fs, t.root, origin)
    ensures Contained(RepinOnConnection(c, fs, id, authorised, t, origin, trigger, force).0, fs)
  {
    var (c1, moved) := AttachOrRepin(c, fs, id, authorised, t, origin, trigger, force);
    AttachOrRepinContained(c, fs, id, authorised, t, origin, trigger, force);
    SettleContained(c1, fs, id, c.pin.root, t, origin, trigger, moved == ConnMoved);
  }

  lemma MoveContained(c: Conn, fs: Fs, id: Id, pin: Pin, prevRoot: Path)
    requires Contained(c, fs) && id in c.shards && Declared(fs, pin)
    ensures Contained(MoveShard(c, id, pin), fs) && Contained(FollowParent(MoveShard(c, id, pin), id, prevRoot), fs)
  {
  }

  lemma ConfirmContained(c: Conn, fs: Fs, id: Id, root: Path, lang: Lang)
    requires Contained(c, fs) && id in c.shards
    ensures Contained(ConfirmShardPin(c, id, root, lang, SessionStart), fs)
  {
  }

  lemma RepinAgentContained(c: Conn, fs: Fs, id: Id, t: Target, force: bool)
    requires Contained(c, fs) && id in c.shards
    ensures Contained(RepinAgent(c, id, t, SessionStart, force).0, fs)
  {
    var sh := c.shards[id];
    if AgentMoveRefused(sh, t.root, force) {
    } else if t.root == sh.pin.root && t.lang == sh.pin.lang {
      ConfirmContained(c, fs, id, t.root, t.lang);
    } else {
      MoveContained(c, fs, id, Pin(t.root, t.lang, SessionStart), sh.pin.root);
    }
  }

  lemma RepinOnAgentContained(c: Conn, fs: Fs, id: Id, t: Target, force: bool)
    requires OwnershipInv(c) && Contained(c, fs)
    ensures Contained(RepinOnAgent(c, fs, id, t, SessionStart, force).0, fs)
  {
    ShardOfContained(c, fs, id);
    RepinAgentContained(ShardOf(c, fs, id), fs, id, t, force);
  }

  lemma RepinFromContained(c: Conn, fs: Fs, id: Id, authorised: bool, folder: Path, origin: Origin, trigger: Trigger,
                           force: bool)
    requires OwnershipInv(c) && Contained(c, fs) && (id != "" ==> origin == SessionStart)
    ensures Contained(RepinFrom(c, fs, id, authorised, folder, origin, trigger, force).0, fs)
  {
    match RepinTarget(fs, folder, origin, trigger)
    case None =>
    case Some(t) =>
      if Routed(c, id) {
        RepinOnAgentContained(c, fs, id, t, force);
      } else {
        RepinOnConnectionContained(c, fs, id, authorised, t, origin, trigger, force);
      }
  }

  lemma RepinWorkspaceContained(c: Conn, fs: Fs, e: Event)
    requires e.SessionStartCall? && OwnershipInv(c) && Contained(c, fs)
    ensures Contained(RepinWorkspace(c, fs, e).0, fs)
  {
    var id := CallerOf(e);
    if e.workspace == "" {
    } else if e.connScope {
      RepinFromContained(c, fs, "", true, e.workspace, SessionStart, Live, e.force);
      RepinFromOwnership(c, fs, "", true, e.workspace, SessionStart, Live, e.force);
      var c1 := RepinFrom(c, fs, "", true, e.workspace, SessionStart, Live, e.force).0;
      ShardOfContained(ClearRefused(c1, id), fs, id);
    } else {
      RepinFromContained(c, fs, id, false, e.workspace, SessionStart, Live, e.force);
    }
  }

  lemma SessionStartContained(c: Conn, fs: Fs, e: Event)
    requires e.SessionStartCall? && OwnershipInv(c) && Contained(c, fs)
    ensures Contained(SessionStartStep(c, fs, e), fs)
  {
    var c0 := BeforeTool(c, e.stamp, e.marker);
    BeforeToolFrame(c, e.stamp, e.marker);
    SeedFromCallContained(c0, fs, "");
    FirstAttachContained(c0, fs, fs.seedRoot(e.workspace, true), SessionStart);
    var c1 := BeforeSessionStart(c, fs, e);
    BeforeSessionStartFrame(c, fs, e);
    ShardOfContained(c1, fs, CallerOf(e));
    OrientOwnership(c1, fs, CallerOf(e));
    RepinWorkspaceContained(Orient(c1, fs, CallerOf(e)), fs, e);
    CommitIdentityFrame(Repinned(c, fs, e).0, e);
  }

  lemma ToolCallContained(c: Conn, fs: Fs, e: Event)
    requires e.ToolCall? && OwnershipInv(c) && Contained(c, fs)
    ensures Contained(ToolCallStep(c, fs, e), fs)
  {
    if !RefusedCall(c, e) {
      var c0 := BeforeTool(c, e.stamp, e.marker);
      BeforeToolFrame(c, e.stamp, e.marker);
      SeedFromCallContained(c0, fs, e.seed);
      FirstAttachContained(c0, fs, fs.seedRoot(e.seed, true), SessionStart);
      var c1 := AttachForCall(c0, fs, e);
      AttachForCallFrame(c0, fs, e);
      ShardOfContained(c1, fs, e.stamp);
      OrientOwnership(c1, fs, e.stamp);
      ShardOfContained(if e.resolves then Orient(c1, fs, e.stamp) else c1, fs, e.stamp);
    }
  }

  lemma ReplayedContained(c: Conn, fs: Fs, root: Path, origin: Origin)
    requires OwnershipInv(c) && Contained(c, fs)
    ensures Contained(AttachReplayedPin(c, fs, root, origin), fs) && OwnershipInv(AttachReplayedPin(c, fs, root, origin))
  {
    ReplayedOwnership(c, fs, root, origin);
    RepinFromContained(c, fs, "", false, root, origin, Restore, false);
  }

  lemma RestartContained(c: Conn, fs: Fs, e: Event)
    requires e.Restart? && OwnershipInv(c)
    ensures Contained(RestartStep(c, fs, e), fs)
  {
    var r := Reconnected(c, e);
    var row := LoadConnPin(r);
    ReplayedContained(r, fs, e.replayed, SessionStart);
    var c1 := if e.replayed == "" || fs.wide(e.replayed) then r else AttachReplayedPin(r, fs, e.replayed, SessionStart);
    if row.Some? {
      ReplayedContained(c1, fs, row.value.root, row.value.origin);
    }
    var c2 := if c1.pin.root == "" && row.Some? && row.value.origin == SessionStart
              then AttachReplayedPin(c1, fs, row.value.root, row.value.origin) else c1;
    var c3 := FirstAttach(c2, fs, DetectedFolder(fs, e.roots), Roots);
    FirstAttachContained(c2, fs, DetectedFolder(fs, e.roots), Roots);
    FirstAttachFrame(c2, fs, DetectedFolder(fs, e.roots), Roots);
    if row.Some? {
      ReplayedContained(c3, fs, row.value.root, row.value.origin);
    }
    var c4 := if c3.pin.root == "" && row.Some?
              then AttachReplayedPin(c3, fs, row.value.root, row.value.origin) else c3;
    FirstAttachContained(c4, fs, DetectedFolder(fs, c4.hint), Unknown);
  }

  lemma RootsChangedContained(c: Conn, fs: Fs, folders: seq<Path>)
    requires OwnershipInv(c) && Contained(c, fs)
    ensures Contained(RootsChangedStep(c, fs, folders), fs)
  {
    if folders != [] {
      FirstAttachContained(c, fs, DetectedFolder(fs, folders[0]), Roots);
      RepinFromContained(c, fs, "", false, folders[0], Roots, Live, false);
    }
  }

  lemma StepContained(c: Conn, fs: Fs, e: Event)
    requires OwnershipInv(c) && Contained(c, fs)
    ensures Contained(Step(c, fs, e), fs)
  {
    match e
    case SessionStartCall(_, _, _, _, _, _, _) => SessionStartContained(c, fs, e);
    case ToolCall(_, _, _, _, _, _, _) => ToolCallContained(c, fs, e);
    case RootsChanged(folders) => RootsChangedContained(c, fs, folders);
    case Restart(_, _, _, _, _) => RestartContained(c, fs, e);
  }

  /**
   Containment over any run, restarts included: neither the connection nor any agent's calls resolve against a
   root that is or contains a home directory unless a session_start declared it.
   */
  lemma {:induction false} RunContained(c: Conn, fs: Fs, run: seq<Event>)
    requires OwnershipInv(c) && Contained(c, fs)
    ensures Contained(Exec(c, fs, run), fs)
  {
    if run == [] {
    } else {
      var before := run[..|run| - 1];
      RunContained(c, fs, before);
      RunSound(c, fs, before);
      StepContained(Exec(c, fs, before), fs, run[|run| - 1]);
    }
  }
}
