/**
 The durable explicit pin: once a session_start pin is accepted on the connection, nothing but another
 accepted session_start replaces it, across roots changes, incidental tool paths and daemon restarts.
 */
module Durable {
  import opened Ids
  import opened ConnSpec
  import opened ConnFrames
  import opened Options

  /** The connection sits on root, stickily, and its row says so. */
  predicate HeldAt(c: Conn, root: Path) {
    c.persist && root != "" && c.pin.root == root && c.pin.origin == SessionStart &&
    c.store.connPin.Some? && c.store.connPin.value.root == root && c.store.connPin.value.origin == SessionStart
  }

  /** The root a session_start pinned the CONNECTION to, if that is what this event did. */
  function AcceptedRoot(c: Conn, fs: Fs, e: Event): Option<Path> {
    if e.SessionStartCall? && Repinned(c, fs, e).1.ConnScope? then Some(Repinned(c, fs, e).1.root) else None
  }

  /** A stored root a reconnecting connection can be put back on. */
  predicate Restores(fs: Fs, root: Path) {
    RestoreRootIntact(fs, root) && !NamesNoFolder(root) && IsAbs(root)
  }

  predicate SamePin(c: Conn, c': Conn) {
    c'.pin == c.pin && c'.store.connPin == c.store.connPin && c'.persist == c.persist
  }

  lemma AttachOrRepinHolds(c: Conn, fs: Fs, id: Id, authorised: bool, t: Target, origin: Origin,
                           trigger: Trigger, force: bool)
    requires c.persist
    ensures var (c', moved) := AttachOrRepin(c, fs, id, authorised, t, origin, trigger, force);
      (moved != ConnRefused && origin == SessionStart ==> HeldAt(c', t.root)) &&
      (moved == ConnRefused ==> c' == c) &&
      (HeldAt(c, c.pin.root) && origin != SessionStart && trigger == Live && !force ==> c' == c)
  {
  }

  lemma SettleKeepsPin(c: Conn, id: Id, prevRoot: Path, t: Target, origin: Origin, trigger: Trigger, moved: bool)
    ensures SamePin(c, SettleConnection(c, id, prevRoot, t, origin, trigger, moved))
  {
  }

  /** A re-pin by session_start either fails or is agent-scoped, and keeps the pin, or holds the new root. */
  lemma RepinFromHolds(c: Conn, fs: Fs, id: Id, authorised: bool, folder: Path, trigger: Trigger, force: bool)
    requires c.persist
    ensures var (c', out) := RepinFrom(c, fs, id, authorised, folder, SessionStart, trigger, force);
      (out.ConnScope? ==>
        (HeldAt(c', out.root) && RepinTarget(fs, folder, SessionStart, trigger).Some? &&
         out.root == RepinTarget(fs, folder, SessionStart, trigger).value.root)) &&
      (!out.ConnScope? ==> SamePin(c, c'))
  {
    match RepinTarget(fs, folder, SessionStart, trigger)
    case None =>
    case Some(t) =>
      if Routed(c, id) {
        RepinFromFrame(c, fs, id, authorised, folder, SessionStart, trigger, force);
      } else {
        var (c1, moved) := AttachOrRepin(c, fs, id, authorised, t, SessionStart, trigger, force);
        AttachOrRepinHolds(c, fs, id, authorised, t, SessionStart, trigger, force);
        SettleKeepsPin(c1, id, c.pin.root, t, SessionStart, trigger, moved == ConnMoved);
      }
  }

  lemma RepinWorkspaceHolds(c: Conn, fs: Fs, e: Event)
    requires c.persist && e.SessionStartCall?
    ensures var (c', out) := RepinWorkspace(c, fs, e);
      (out.ConnScope? ==> HeldAt(c', out.root)) && (!out.ConnScope? ==> SamePin(c, c'))
  {
    var id := CallerOf(e);
    if e.workspace != "" {
      if e.connScope {
        RepinFromHolds(c, fs, "", true, e.workspace, Live, e.force);
        var c1 := RepinFrom(c, fs, "", true, e.workspace, SessionStart, Live, e.force).0;
        OrientFrame(ClearRefused(c1, id), fs, id);
      } else {
        RepinFromHolds(c, fs, id, false, e.workspace, Live, e.force);
      }
    }
  }

  lemma SessionStartHolds(c: Conn, fs: Fs, e: Event)
    requires c.persist && e.SessionStartCall?
    ensures AcceptedRoot(c, fs, e).Some? ==> HeldAt(SessionStartStep(c, fs, e), AcceptedRoot(c, fs, e).value)
    ensures AcceptedRoot(c, fs, e).None? && c.pin.root != "" ==> SamePin(c, SessionStartStep(c, fs, e))
  {
    var c1 := BeforeSessionStart(c, fs, e);
    BeforeToolFrame(c, e.stamp, e.marker);
    BeforeSessionStartFrame(c, fs, e);
    var c2 := Orient(c1, fs, CallerOf(e));
    OrientFrame(c1, fs, CallerOf(e));
    RepinWorkspaceHolds(c2, fs, e);
    CommitIdentityFrame(RepinWorkspace(c2, fs, e).0, e);
  }

  lemma ToolCallHolds(c: Conn, fs: Fs, e: Event)
    requires e.ToolCall? && c.pin.root != ""
    ensures SamePin(c, ToolCallStep(c, fs, e))
  {
    if !RefusedCall(c, e) {
      var c1 := BeforeTool(c, e.stamp, e.marker);
      BeforeToolFrame(c, e.stamp, e.marker);
      AttachForCallFrame(c1, fs, e);
      OrientFrame(c1, fs, e.stamp);
      ShardOfFrame(if e.resolves then Orient(c1, fs, e.stamp) else c1, fs, e.stamp);
    }
  }

  lemma RestoreHolds(c: Conn, fs: Fs, root: Path)
    requires c.persist && c.pin.root == "" && Restores(fs, root)
    ensures HeldAt(AttachReplayedPin(c, fs, root, SessionStart), root)
  {
    RepinFromHolds(c, fs, "", false, root, Restore, false);
    assert RepinTarget(fs, root, SessionStart, Restore).Some?;
    assert RepinTarget(fs, root, SessionStart, Restore).value.root == root;
    AttachOrRepinHolds(c, fs, "", false, RepinTarget(fs, root, SessionStart, Restore).value, SessionStart, Restore, false);
  }

  /** A root that cannot be restored leaves the connection unattached, and no other root is put in its place. */
  lemma RestoreFails(c: Conn, fs: Fs, root: Path)
    requires c.persist && c.pin.root == "" && !Restores(fs, root)
    ensures AttachReplayedPin(c, fs, root, SessionStart) == c ||
      AttachReplayedPin(c, fs, root, SessionStart) == DropPin(c, root)
  {
  }

  /** The weaker rungs never produce a sticky pin. */
  lemma WeakRungs(c: Conn, fs: Fs, target: Option<Target>, origin: Origin)
    requires origin != SessionStart
    ensures var c' := FirstAttach(c, fs, target, origin); c'.pin == c.pin || c'.pin.origin == origin
  {
  }

  /**
   A daemon restart with no differing replayed pin brings the connection back exactly where it was held
   if and only if the stored root still verifies.
   */
  lemma RestartHolds(c: Conn, fs: Fs, e: Event, root: Path)
    requires e.Restart? && HeldAt(c, root) && (e.replayed == "" || e.replayed == root)
    ensures HeldAt(RestartStep(c, fs, e), root) <==> Restores(fs, root)
    ensures !Restores(fs, root) ==> RestartStep(c, fs, e).pin.origin != SessionStart
  {
    var r := Reconnected(c, e);
    var row := LoadConnPin(r);
    var c1 := if e.replayed == "" || fs.wide(e.replayed) then r else AttachReplayedPin(r, fs, e.replayed, SessionStart);
    var c2 := if c1.pin.root == "" && row.Some? && row.value.origin == SessionStart
              then AttachReplayedPin(c1, fs, row.value.root, row.value.origin) else c1;
    var c3 := FirstAttach(c2, fs, DetectedFolder(fs, e.roots), Roots);
    var c4 := if c3.pin.root == "" && row.Some?
              then AttachReplayedPin(c3, fs, row.value.root, row.value.origin) else c3;
    FirstAttachFrame(c2, fs, DetectedFolder(fs, e.roots), Roots);
    FirstAttachFrame(c4, fs, DetectedFolder(fs, c4.hint), Unknown);
    if Restores(fs, root) {
      RestoreHolds(r, fs, root);
    } else {
      RestoreFails(r, fs, root);
      RestoreFails(c1, fs, root);
      WeakRungs(c2, fs, DetectedFolder(fs, e.roots), Roots);
      if c3.pin.root == "" {
        RestoreFails(c3, fs, root);
      }
      WeakRungs(c4, fs, DetectedFolder(fs, c4.hint), Unknown);
    }
  }

  /** The restarts of a run: the directory still verifies and no other pin is replayed. */
  predicate Benign(fs: Fs, e: Event, root: Path) {
    e.Restart? ==> Restores(fs, root) && (e.replayed == "" || e.replayed == root)
  }

  /** One event: an accepted session_start takes hold, and anything else leaves the hold alone. */
  lemma StepHolds(c: Conn, fs: Fs, e: Event, root: Path)
    requires HeldAt(c, root) && Benign(fs, e, root)
    ensures HeldAt(Step(c, fs, e), if AcceptedRoot(c, fs, e).Some? then AcceptedRoot(c, fs, e).value else root)
  {
    match e
    case SessionStartCall(_, _, _, _, _, _, _) => SessionStartHolds(c, fs, e);
    case ToolCall(_, _, _, _, _, _, _) => ToolCallHolds(c, fs, e);
    case RootsChanged(_) =>
    case Restart(_, _, _, _, _) => RestartHolds(c, fs, e, root);
  }

  /** The root last accepted over a run, root itself if no session_start moved the connection. */
  function LastAccepted(c: Conn, fs: Fs, run: seq<Event>, root: Path): Path {
    if run == [] then root
    else
      var before := run[..|run| - 1];
      match AcceptedRoot(Exec(c, fs, before), fs, run[|run| - 1])
      case Some(accepted) => accepted
      case None => LastAccepted(c, fs, before, root)
  }

  predicate BenignRun(c: Conn, fs: Fs, run: seq<Event>, root: Path) {
    forall i :: 0 <= i < |run| ==> Benign(fs, run[i], LastAccepted(c, fs, run[..i], root))
  }

  /** Over any run, the connection sits on the last accepted session_start root after every step. */
  lemma {:induction false} RunHolds(c: Conn, fs: Fs, run: seq<Event>, root: Path)
    requires HeldAt(c, root) && BenignRun(c, fs, run, root)
    ensures HeldAt(Exec(c, fs, run), LastAccepted(c, fs, run, root))
  {
    if run == [] {
    } else {
      var last := |run| - 1;
      forall i | 0 <= i < last
        ensures Benign(fs, run[..last][i], LastAccepted(c, fs, run[..last][..i], root))
      {
        assert run[..last][..i] == run[..i];
      }
      RunHolds(c, fs, run[..last], root);
      StepHolds(Exec(c, fs, run[..last]), fs, run[last], LastAccepted(c, fs, run[..last], root));
    }
  }

  /** However a connection came to be, the first accepted session_start establishes the hold. */
  lemma AcceptedHolds(c: Conn, fs: Fs, e: Event)
    requires c.persist && AcceptedRoot(c, fs, e).Some?
    ensures HeldAt(Step(c, fs, e), AcceptedRoot(c, fs, e).value)
  {
    SessionStartHolds(c, fs, e);
  }

  /** A re-pin that lands on the connection lands on the root its workspace resolves to. */
  lemma LandsWhereNamed(c: Conn, fs: Fs, e: Event)
    requires e.SessionStartCall? && RepinWorkspace(c, fs, e).1.ConnScope?
    ensures RepinTarget(fs, e.workspace, SessionStart, Live).Some?
    ensures RepinWorkspace(c, fs, e).1.root == RepinTarget(fs, e.workspace, SessionStart, Live).value.root
  {
  }

  /** Moving a held connection takes force and, once shared, an identified connection-scoped call. */
  lemma MoveIsForced(c: Conn, fs: Fs, e: Event)
    requires HeldAt(c, c.pin.root) && e.SessionStartCall? && RepinWorkspace(c, fs, e).1.ConnScope?
    ensures RepinWorkspace(c, fs, e).1.root != c.pin.root ==>
      e.force && (SharedWith(c.seen, "") ==> CallerOf(e) != "" && e.connScope)
  {
    var id := CallerOf(e);
    RepinIsForced(c, fs, if e.connScope then "" else id, e.connScope, e.workspace, e.force);
    SharedWhoever(c.seen, id);
  }

  lemma SharedWhoever(seen: set<Id>, id: Id)
    ensures SharedWith(seen, "") ==> SharedWith(seen, id)
  {
  }

  lemma RepinIsForced(c: Conn, fs: Fs, id: Id, authorised: bool, folder: Path, force: bool)
    requires HeldAt(c, c.pin.root)
    ensures var out := RepinFrom(c, fs, id, authorised, folder, SessionStart, Live, force).1;
      out.ConnScope? && out.root != c.pin.root ==>
        force && !Routed(c, id) && (SharedWith(c.seen, "") && id == "" ==> authorised)
  {
  }

  /** The state a session_start re-pins from. */
  lemma OrientedHeld(c: Conn, fs: Fs, e: Event)
    requires HeldAt(c, c.pin.root) && e.SessionStartCall?
    ensures var c2 := Orient(BeforeSessionStart(c, fs, e), fs, CallerOf(e));
      HeldAt(c2, c2.pin.root) && c2.pin == c.pin && c2.seen == BeforeTool(c, e.stamp, e.marker).seen
  {
    BeforeToolFrame(c, e.stamp, e.marker);
    BeforeSessionStartFrame(c, fs, e);
    OrientFrame(BeforeSessionStart(c, fs, e), fs, CallerOf(e));
  }

  /**
   What it takes to be accepted: the root is the one the call named, and a call that moves a held
   connection was forced and, on a shared connection, identified.
   */
  lemma AcceptedMoveIsForced(c: Conn, fs: Fs, e: Event, root: Path)
    requires HeldAt(c, root) && AcceptedRoot(c, fs, e).Some?
    ensures RepinTarget(fs, e.workspace, SessionStart, Live).Some?
    ensures AcceptedRoot(c, fs, e).value == RepinTarget(fs, e.workspace, SessionStart, Live).value.root
    ensures AcceptedRoot(c, fs, e).value != root ==>
      e.force && (SharedWith(BeforeTool(c, e.stamp, e.marker).seen, "") ==> CallerOf(e) != "" && e.connScope)
  {
    var c2 := Orient(BeforeSessionStart(c, fs, e), fs, CallerOf(e));
    OrientedHeld(c, fs, e);
    LandsWhereNamed(c2, fs, e);
    MoveIsForced(c2, fs, e);
  }
}
