/**
 What attaching an unattached connection comes to: at a restart and from its first calls. Which authority wins is
 said outright, not by the order in which they are tried.
 */
module AttachOutcomes {
  import opened Ids
  import opened ConnSpec
  import opened Options
  import opened Outcomes

  // ---- one attach -----------------------------------------------------------------------------

  /** The connection's pin is set, and filed unless its origin is incidental; nothing else differs. */
  ghost predicate PinnedAt(c: Conn, pin: Pin, c': Conn) {
    c' == c.(pin := pin, store := c.store.(connPin := c'.store.connPin)) &&
    c'.store.connPin == if c.persist && pin.origin != Unknown then Some(pin) else c.store.connPin
  }

  /** The pin an attach at t under this origin sets. */
  function PinAt(fs: Fs, t: Target, origin: Origin): Pin {
    Pin(t.root, fs.acquire(t.root, t.lang), origin)
  }

  /** This authority may attach there: a wide root takes a declaration. */
  ghost predicate May(fs: Fs, target: Option<Target>, origin: Origin) {
    target.Some? && (fs.wide(target.value.root) ==> origin == SessionStart)
  }

  lemma Attaches(c: Conn, fs: Fs, target: Option<Target>, origin: Origin, c': Conn)
    ensures c' == FirstAttach(c, fs, target, origin) <==>
      if c.pin.root == "" && May(fs, target, origin) then PinnedAt(c, PinAt(fs, target.value, origin), c') else c' == c
  {
  }

  /** The project in a folder, if the folder is one that can be named. */
  function Project(fs: Fs, folder: Path): Option<Target> {
    if folder == "" || folder == "/" then None else fs.detect(folder)
  }

  // ---- restoring a pin ------------------------------------------------------------------------

  /** A pin of this origin would come back to this root: it still stands, and an undeclared one may still be there. */
  ghost predicate Returns(fs: Fs, root: Path, origin: Origin) {
    Stands(fs, root) &&
    (origin == SessionStart || (!fs.wide(root) && exists lang :: Finds(fs, root, false, Target(root, lang))))
  }

  /** A restored pin has its root, the language found there and the origin it was set with. */
  ghost predicate Restored(fs: Fs, root: Path, origin: Origin, pin: Pin) {
    pin.root == root != "" && pin.origin == origin &&
    pin.lang == fs.acquire(root, if fs.detect(root).Some? then fs.detect(root).value.lang else "")
  }

  /** The connection has a row, and this is it. */
  ghost predicate HasRow(c: Conn, row: Pin) {
    c.persist && c.store.connPin == Some(row) && row.root != ""
  }

  /** What is left of the connection when its row is thrown away for a root that no longer stands. */
  ghost function Forgetting(c: Conn, fs: Fs, root: Path): Conn {
    if root != "" && c.persist && c.store.connPin.Some? && c.store.connPin.value.root == root && !Stands(fs, root)
    then c.(store := c.store.(connPin := None)) else c
  }

  lemma ResolvesBack(fs: Fs, root: Root, origin: Origin)
    requires Stands(fs, root)
    ensures Returns(fs, root, origin) <==>
      Resolve(fs, root, origin).Some? && Resolve(fs, root, origin).value.root == root && !UndeclaredWideRoot(fs, root, origin)
    ensures Returns(fs, root, origin) ==>
      Restored(fs, root, origin, PinAt(fs, Resolve(fs, root, origin).value, origin))
  {
    var lang := if fs.detect(root).Some? then fs.detect(root).value.lang else "";
    ResolveFinds(fs, root, origin, Target(root, lang));
  }

  /** A row is restored under its own origin, or forgotten if its root is gone. */
  lemma Rehydrates(c: Conn, fs: Fs, row: Pin) returns (c': Conn)
    requires c.pin.root == "" && HasRow(c, row)
    ensures c' == RehydratePin(c, fs)
    ensures Returns(fs, row.root, row.origin) ==> Restored(fs, row.root, row.origin, c'.pin) && PinnedAt(c, c'.pin, c')
    ensures !Returns(fs, row.root, row.origin) ==> c' == Forgetting(c, fs, row.root)
  {
    c' := RehydratePin(c, fs);
    IntactStands(fs, row.root);
    if Stands(fs, row.root) {
      ResolvesBack(fs, row.root, row.origin);
    }
  }

  // ---- first calls ----------------------------------------------------------------------------

  /** The row comes back, if there is one and its root does. */
  ghost predicate RowReturns(c: Conn, fs: Fs) {
    c.persist && c.store.connPin.Some? && Returns(fs, c.store.connPin.value.root, c.store.connPin.value.origin)
  }

  /** The connection without a row whose root is gone. */
  ghost function Pruned(c: Conn, fs: Fs): Conn {
    if c.store.connPin.Some? then Forgetting(c, fs, c.store.connPin.value.root) else c
  }

  /**
   A call that names no workspace, made with this absolute path or none: an attached connection stays as it is;
   its row comes back under its own origin; failing that the hint's project, then the path's, is attached to
   incidentally, and neither is filed.
   */
  ghost predicate SeededBy(c: Conn, fs: Fs, seed: Path, c': Conn) {
    var row, hint := c.store.connPin, Project(fs, c.hint);
    var path := if Absolute(seed) then fs.seedRoot(seed, false) else None;
    if c.pin.root != "" then c' == c
    else if RowReturns(c, fs) then Restored(fs, row.value.root, row.value.origin, c'.pin) && PinnedAt(c, c'.pin, c')
    else if May(fs, hint, Unknown) then PinnedAt(Pruned(c, fs), PinAt(fs, hint.value, Unknown), c')
    else if May(fs, path, Unknown) then PinnedAt(Pruned(c, fs), PinAt(fs, path.value, Unknown), c')
    else c' == Pruned(c, fs)
  }

  ghost predicate Absolute(folder: Path) {
    |folder| > 0 && folder[0] == '/'
  }

  lemma RehydratesOrPrunes(c: Conn, fs: Fs) returns (c': Conn)
    requires c.pin.root == ""
    ensures c' == RehydratePin(c, fs)
    ensures RowReturns(c, fs) ==>
      Restored(fs, c.store.connPin.value.root, c.store.connPin.value.origin, c'.pin) && PinnedAt(c, c'.pin, c')
    ensures !RowReturns(c, fs) ==> c' == Pruned(c, fs)
  {
    if c.persist && c.store.connPin.Some? && c.store.connPin.value.root != "" {
      c' := Rehydrates(c, fs, c.store.connPin.value);
    } else {
      c' := RehydratePin(c, fs);
    }
  }

  lemma CallSeeds(c: Conn, fs: Fs, seed: Path)
    ensures SeededBy(c, fs, seed, SeedFromCall(c, fs, seed))
  {
    if c.pin.root == "" {
      var c1 := RehydratesOrPrunes(c, fs);
      var c2 := if c1.pin.root == "" then FirstAttach(c1, fs, DetectedFolder(fs, c1.hint), Unknown) else c1;
      Attaches(c1, fs, DetectedFolder(fs, c1.hint), Unknown, c2);
      Attaches(c2, fs, fs.seedRoot(seed, false), Unknown, SeedFromCall(c, fs, seed));
    }
  }

  lemma SeededOnce(c: Conn, fs: Fs, seed: Path, c1: Conn, c2: Conn)
    requires SeededBy(c, fs, seed, c1) && SeededBy(c, fs, seed, c2)
    ensures c1 == c2
  {
  }

  /** A workspace argument attaches an unattached connection for a caller that named no agent, wide or not. */
  ghost predicate DeclaredBy(c: Conn, fs: Fs, caller: Id, workspace: Path, c': Conn) {
    if c.pin.root == "" && caller == "" && Absolute(workspace) && fs.seedRoot(workspace, true).Some?
    then PinnedAt(c, PinAt(fs, fs.seedRoot(workspace, true).value, SessionStart), c')
    else c' == c
  }

  lemma CallDeclares(c: Conn, fs: Fs, caller: Id, workspace: Path, c': Conn)
    ensures DeclaredBy(c, fs, caller, workspace, c') <==> c' == AttachDeclared(c, fs, caller, workspace)
  {
    Attaches(c, fs, fs.seedRoot(workspace, true), SessionStart, c');
  }

  // ---- restarts -------------------------------------------------------------------------------

  /** A pin handed back at a restart is taken if it is an absolute root below "/" and comes back. */
  ghost predicate Replayable(fs: Fs, root: Path, origin: Origin) {
    |root| > 1 && root[0] == '/' && Returns(fs, root, origin)
  }

  /** What a reconnecting connection has before anything attaches it: its rows, the linkages they vouch for, no shard. */
  ghost predicate Afresh(c: Conn, e: Event, c': Conn)
    requires e.Restart?
  {
    c'.shards == map[] && c'.refused == map[] && c'.seen == {} && c'.hint == e.hint && c'.persist == c.persist &&
    c'.priorShared == (c.persist && e.recentlyShared) && c'.linked == (if c.persist then c.store.linkage else "") &&
    c'.store == c.store.(connPin := c'.store.connPin) &&
    forall l :: l in c'.declared <==>
      c.persist && l != "" &&
      (l == LinkageOf(c.store.linkage) || exists d :: d in c.store.declared && d in e.keptDeclared && LinkageOf(d) == l)
  }

  /** The pin the reconnecting proxy hands back is a declaration, but not one of a wide root. */
  ghost predicate HandedBack(fs: Fs, replayed: Path) {
    !fs.wide(replayed) && Replayable(fs, replayed, SessionStart)
  }

  ghost predicate RowReplays(c: Conn, fs: Fs) {
    c.persist && c.store.connPin.Some? && Replayable(fs, c.store.connPin.value.root, c.store.connPin.value.origin)
  }

  /**
   Where a restart leaves the connection's pin. The declaration handed back wins; else a declaration in the row;
   else the project of the client's roots; else a row of another origin, under that origin; else the project of
   the hint; else nothing.
   */
  ghost predicate Reattached(c: Conn, fs: Fs, replayed: Path, roots: Path, pin: Pin) {
    var row, project, hint := c.store.connPin, Project(fs, roots), Project(fs, c.hint);
    var declared := RowReplays(c, fs) && row.value.origin == SessionStart;
    (HandedBack(fs, replayed) ==> Restored(fs, replayed, SessionStart, pin)) &&
    (declared && !HandedBack(fs, replayed) ==> Restored(fs, row.value.root, SessionStart, pin)) &&
    (!declared && !HandedBack(fs, replayed) ==>
       (May(fs, project, Roots) ==> pin == PinAt(fs, project.value, Roots)) &&
       (!May(fs, project, Roots) && RowReplays(c, fs) ==> Restored(fs, row.value.root, row.value.origin, pin)) &&
       (!May(fs, project, Roots) && !RowReplays(c, fs) ==>
          pin == if May(fs, hint, Unknown) then PinAt(fs, hint.value, Unknown) else NoPin))
  }

  /** The row it leaves: the new pin unless that is incidental, and never one whose root is gone. */
  ghost predicate Refiled(c: Conn, fs: Fs, pin: Pin, row: Option<Pin>) {
    row ==
      if c.persist && pin.root != "" && pin.origin != Unknown then Some(pin)
      else Pruned(c, fs).store.connPin
  }

  ghost predicate RestartComesTo(c: Conn, fs: Fs, e: Event, c': Conn)
    requires e.Restart?
  {
    Afresh(c, e, c') && Reattached(c.(hint := e.hint), fs, e.replayed, e.roots, c'.pin) && Refiled(c, fs, c'.pin, c'.store.connPin)
  }

  lemma TargetReturns(fs: Fs, root: Path, origin: Origin)
    requires Stands(fs, root)
    ensures RepinTarget(fs, root, origin, Restore).Some? <==> Replayable(fs, root, origin)
    ensures Replayable(fs, root, origin) ==>
      RepinTarget(fs, root, origin, Restore) == Resolve(fs, root, origin) &&
      RepinTarget(fs, root, origin, Restore).value.root == root
  {
    ResolvesBack(fs, root, origin);
  }

  /** Nothing hangs on the pin of a connection that has no shards. */
  lemma NothingFollows(c: Conn, prevRoot: Path)
    requires c.shards == map[]
    ensures FollowConnection(c, prevRoot) == c
  {
    var c1 := FollowConnection(c, prevRoot);
    assert c1.shards == c.shards && c1.refused == c.refused && c1.store.agentPins == c.store.agentPins;
  }

  /** The replay of one pin on a connection that has none. */
  lemma Replays(c: Conn, fs: Fs, root: Path, origin: Origin) returns (c': Conn)
    requires c.pin == NoPin && c.shards == map[]
    ensures c' == AttachReplayedPin(c, fs, root, origin)
    ensures Replayable(fs, root, origin) ==> Restored(fs, root, origin, c'.pin) && PinnedAt(c, c'.pin, c')
    ensures !Replayable(fs, root, origin) ==> c' == Forgetting(c, fs, root)
  {
    c' := AttachReplayedPin(c, fs, root, origin);
    IntactStands(fs, root);
    if Stands(fs, root) {
      TargetReturns(fs, root, origin);
      if Replayable(fs, root, origin) {
        var t := Resolve(fs, root, origin).value;
        ResolvesBack(fs, root, origin);
        var (c1, moved) := AttachOrRepin(c, fs, "", false, t, origin, Restore, false);
        assert c1 == PersistConnPin(c.(pin := PinAt(fs, t, origin)), PinAt(fs, t, origin)) && moved == ConnMoved;
        NothingFollows(c1, c.pin.root);
        assert c' == c1;
      }
    }
  }

  /** Throwing the row away can only prune it. */
  lemma ForgetsOrNot(c: Conn, c1: Conn, fs: Fs, root: Path)
    requires c1 == c || c1 == Pruned(c, fs)
    ensures Forgetting(c1, fs, root) == c || Forgetting(c1, fs, root) == Pruned(c, fs)
    ensures c.store.connPin.Some? && root == c.store.connPin.value.root ==> Forgetting(c1, fs, root) == Pruned(c, fs)
  {
  }

  lemma FirstRung(c: Conn, fs: Fs, replayed: Path) returns (c1: Conn)
    requires c.pin == NoPin && c.shards == map[]
    ensures c1 == if replayed == "" || fs.wide(replayed) then c else AttachReplayedPin(c, fs, replayed, SessionStart)
    ensures HandedBack(fs, replayed) ==> Restored(fs, replayed, SessionStart, c1.pin) && PinnedAt(c, c1.pin, c1)
    ensures !HandedBack(fs, replayed) ==> c1 == c || c1 == Pruned(c, fs)
  {
    if replayed == "" || fs.wide(replayed) {
      c1 := c;
    } else {
      c1 := Replays(c, fs, replayed, SessionStart);
      ForgetsOrNot(c, c, fs, replayed);
    }
  }

  /** A rung that replays the row loaded at the start, on a connection nothing has attached yet. */
  lemma RowRung(c: Conn, c1: Conn, fs: Fs) returns (c2: Conn)
    requires c.pin == NoPin && c.shards == map[] && LoadConnPin(c).Some? && (c1 == c || c1 == Pruned(c, fs))
    ensures var row := c.store.connPin.value;
      c2 == AttachReplayedPin(c1, fs, row.root, row.origin) &&
      (RowReplays(c, fs) ==> Restored(fs, row.root, row.origin, c2.pin) && PinnedAt(c, c2.pin, c2)) &&
      (!RowReplays(c, fs) ==> c2 == Pruned(c, fs))
  {
    var row := c.store.connPin.value;
    c2 := Replays(c1, fs, row.root, row.origin);
    ForgetsOrNot(c, c1, fs, row.root);
  }

  /** The rungs below the declarations. */
  lemma LowerRungs(c: Conn, c2: Conn, fs: Fs, replayed: Path, roots: Path) returns (c5: Conn)
    requires c.pin == NoPin && c.shards == map[] && (c2 == c || c2 == Pruned(c, fs))
    requires RowReplays(c, fs) ==> c.store.connPin.value.origin != SessionStart
    ensures var row := LoadConnPin(c);
      var c3 := FirstAttach(c2, fs, DetectedFolder(fs, roots), Roots);
      var c4 := if c3.pin.root == "" && row.Some?
                then AttachReplayedPin(c3, fs, row.value.root, row.value.origin) else c3;
      c5 == FirstAttach(c4, fs, DetectedFolder(fs, c4.hint), Unknown)
    ensures !HandedBack(fs, replayed) ==> Reattached(c, fs, replayed, roots, c5.pin)
    ensures c5 == c.(pin := c5.pin, store := c5.store) && c5.store == c.store.(connPin := c5.store.connPin)
    ensures Refiled(c, fs, c5.pin, c5.store.connPin)
  {
    var row := LoadConnPin(c);
    var c3 := FirstAttach(c2, fs, DetectedFolder(fs, roots), Roots);
    Attaches(c2, fs, DetectedFolder(fs, roots), Roots, c3);
    if May(fs, Project(fs, roots), Roots) {
      c5 := c3;
    } else {
      var c4 := c3;
      if row.Some? {
        c4 := RowRung(c, c3, fs);
      }
      c5 := FirstAttach(c4, fs, DetectedFolder(fs, c4.hint), Unknown);
      Attaches(c4, fs, DetectedFolder(fs, c4.hint), Unknown, c5);
    }
  }

  lemma LadderReattaches(c: Conn, fs: Fs, replayed: Path, roots: Path) returns (c': Conn)
    requires c.pin == NoPin && c.shards == map[]
    ensures c' == AttachOnInit(c, fs, replayed, roots)
    ensures Reattached(c, fs, replayed, roots, c'.pin) && Refiled(c, fs, c'.pin, c'.store.connPin)
    ensures c' == c.(pin := c'.pin, store := c'.store) && c'.store == c.store.(connPin := c'.store.connPin)
  {
    var row := LoadConnPin(c);
    var c1 := FirstRung(c, fs, replayed);
    if c1.pin.root != "" {
      c' := c1;
    } else if row.Some? && row.value.origin == SessionStart {
      var c2 := RowRung(c, c1, fs);
      if c2.pin.root != "" {
        c' := c2;
      } else {
        c' := LowerRungs(c, c2, fs, replayed, roots);
      }
    } else {
      c' := LowerRungs(c, c1, fs, replayed, roots);
    }
  }

  /** What attaching it at its start leaves of a connection that has no pin and no shards. */
  ghost predicate Settles(c: Conn, fs: Fs, replayed: Path, roots: Path, c': Conn) {
    c.pin == NoPin && c.shards == map[] ==>
      Reattached(c, fs, replayed, roots, c'.pin) && Refiled(c, fs, c'.pin, c'.store.connPin) &&
      c' == c.(pin := c'.pin, store := c.store.(connPin := c'.store.connPin))
  }

  lemma LadderSettles(c: Conn, fs: Fs, replayed: Path, roots: Path)
    ensures Settles(c, fs, replayed, roots, AttachOnInit(c, fs, replayed, roots))
  {
    if c.pin == NoPin && c.shards == map[] {
      var c' := LadderReattaches(c, fs, replayed, roots);
    }
  }

  lemma StartsAfresh(c: Conn, e: Event)
    requires e.Restart?
    ensures Afresh(c, e, Reconnected(c, e))
  {
  }

  /** A restart comes to exactly this. */
  lemma RestartReattaches(c: Conn, fs: Fs, e: Event)
    requires e.Restart?
    ensures RestartComesTo(c, fs, e, RestartStep(c, fs, e))
  {
    var c0 := Reconnected(c, e);
    StartsAfresh(c, e);
    var c' := LadderReattaches(c0, fs, e.replayed, e.roots);
    assert c0.persist == c.persist && c0.store == c.store && c0.hint == e.hint;
    SameRow(c0, c.(hint := e.hint), fs, e.replayed, e.roots, c'.pin);
    hide Reattached;
    hide Refiled;
    hide AttachOnInit;
    hide Reconnected;
  }

  /** Where a restart leaves the pin is a matter of the connection's row and hint alone. */
  lemma SameRow(c: Conn, c': Conn, fs: Fs, replayed: Path, roots: Path, pin: Pin)
    requires c.persist == c'.persist && c.store.connPin == c'.store.connPin && c.hint == c'.hint
    ensures Reattached(c, fs, replayed, roots, pin) <==> Reattached(c', fs, replayed, roots, pin)
    ensures forall row :: Refiled(c, fs, pin, row) <==> Refiled(c', fs, pin, row)
  {
  }

  /** And to nothing else: the outcome decides the state. */
  lemma RestartDecided(c: Conn, fs: Fs, e: Event, c': Conn)
    requires e.Restart?
    ensures RestartComesTo(c, fs, e, c') <==> c' == RestartStep(c, fs, e)
  {
    RestartReattaches(c, fs, e);
    var c1 := RestartStep(c, fs, e);
    if RestartComesTo(c, fs, e, c') {
      assert c'.pin == c1.pin && c'.store.connPin == c1.store.connPin;
      assert c'.declared == c1.declared;
    }
  }
}
