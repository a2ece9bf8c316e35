/** What each critical section of the connection leaves alone. */
module ConnFrames {
  import opened Ids
  import opened ConnSpec
  import opened Options

  /** Identity bookkeeping moves no pin, no shard and no refused declaration; the identities only grow. */
  predicate OnlyIdentities(c: Conn, c': Conn) {
    c'.pin == c.pin && c'.shards == c.shards && c'.refused == c.refused && c'.priorShared == c.priorShared &&
    c'.persist == c.persist && c'.hint == c.hint &&
    c'.store.connPin == c.store.connPin && c'.store.agentPins == c.store.agentPins &&
    c.seen <= c'.seen && c.declared <= c'.declared
  }

  /** Only the connection's own pin and its row may differ. */
  predicate OnlyConnPin(c: Conn, c': Conn) {
    c' == c.(pin := c'.pin, store := c.store.(connPin := c'.store.connPin))
  }

  lemma ExecSnoc(c: Conn, fs: Fs, run: seq<Event>, e: Event)
    ensures Exec(c, fs, run + [e]) == Step(Exec(c, fs, run), fs, e)
  {
  }

  lemma RelinkFrame(c: Conn, id: Id)
    ensures OnlyIdentities(c, RelinkTo(c, id)) && OnlyIdentities(c, RecordAttach(c, id))
  {
    AttachFrame(c, id);
    AttachFrame(c.(linked := LinkageOf(id)), id);
    hide RecordAttach;
  }

  lemma AttachFrame(c: Conn, id: Id)
    ensures OnlyIdentities(c, RecordAttach(c, id))
  {
  }

  lemma BeforeToolFrame(c: Conn, stamp: Id, marker: bool)
    ensures OnlyIdentities(c, BeforeTool(c, stamp, marker))
    ensures stamp != "" ==> stamp in BeforeTool(c, stamp, marker).seen
  {
  }

  lemma CommitIdentityFrame(c: Conn, e: Event)
    requires e.SessionStartCall?
    ensures OnlyIdentities(c, CommitIdentity(c, e))
    ensures e.sessionId != "" ==> e.sessionId in CommitIdentity(c, e).seen
  {
    LinkFrame(c, e.stamp, e.sessionId);
  }

  lemma LinkFrame(c: Conn, stamp: Id, externalId: Id)
    ensures OnlyIdentities(c, LinkExternal(c, stamp, externalId))
    ensures externalId != "" ==> externalId in LinkExternal(c, stamp, externalId).seen
  {
    RelinkFrame(c, externalId);
  }

  lemma FirstAttachFrame(c: Conn, fs: Fs, target: Option<Target>, origin: Origin)
    ensures OnlyConnPin(c, FirstAttach(c, fs, target, origin))
    ensures c.pin.root != "" ==> FirstAttach(c, fs, target, origin) == c
  {
  }

  lemma RehydratePinFrame(c: Conn, fs: Fs)
    ensures OnlyConnPin(c, RehydratePin(c, fs))
  {
  }

  lemma SeedFromCallFrame(c: Conn, fs: Fs, seed: Path)
    ensures OnlyConnPin(c, SeedFromCall(c, fs, seed))
    ensures c.pin.root != "" ==> SeedFromCall(c, fs, seed) == c
  {
    if c.pin.root == "" {
      var c1 := RehydratePin(c, fs);
      RehydratePinFrame(c, fs);
      FirstAttachFrame(c1, fs, DetectedFolder(fs, c1.hint), Unknown);
      var c2 := if c1.pin.root == "" then FirstAttach(c1, fs, DetectedFolder(fs, c1.hint), Unknown) else c1;
      FirstAttachFrame(c2, fs, fs.seedRoot(seed, false), Unknown);
    }
  }

  lemma AttachForCallFrame(c: Conn, fs: Fs, e: Event)
    requires e.ToolCall?
    ensures OnlyConnPin(c, AttachForCall(c, fs, e))
    ensures c.pin.root != "" ==> AttachForCall(c, fs, e) == c
  {
    SeedFromCallFrame(c, fs, e.seed);
    FirstAttachFrame(c, fs, fs.seedRoot(e.seed, true), SessionStart);
  }

  lemma AttachOrRepinFrame(c: Conn, fs: Fs, id: Id, authorised: bool, t: Target, origin: Origin,
                           trigger: Trigger, force: bool)
    ensures var (c', moved) := AttachOrRepin(c, fs, id, authorised, t, origin, trigger, force);
      OnlyConnPin(c, c') && (moved == ConnMoved ==> c'.pin.root == t.root != c.pin.root) &&
      (moved != ConnMoved ==> c'.pin.root == c.pin.root) && (moved == ConnRefused ==> c' == c)
  {
  }

  /** The connection's identities, settings and attachment, as a critical section of a re-pin leaves them. */
  predicate SameIdentities(c: Conn, c': Conn) {
    c'.seen == c.seen && c'.declared == c.declared && c'.linked == c.linked && c'.priorShared == c.priorShared &&
    c'.persist == c.persist && c'.hint == c.hint && c'.store.declared == c.store.declared &&
    c'.store.linkage == c.store.linkage && (c.pin.root != "" ==> c'.pin.root != "")
  }

  lemma ShardOfFrame(c: Conn, fs: Fs, id: Id)
    ensures SameIdentities(c, ShardOf(c, fs, id)) && ShardOf(c, fs, id).pin == c.pin
    ensures ShardOf(c, fs, id).shards.Keys == c.shards.Keys + {id}
    ensures ShardOf(c, fs, id).refused == c.refused && ShardOf(c, fs, id).store == c.store
  {
  }

  lemma OrientFrame(c: Conn, fs: Fs, id: Id)
    ensures SameIdentities(c, Orient(c, fs, id)) && Orient(c, fs, id).pin == c.pin
    ensures c.shards.Keys <= Orient(c, fs, id).shards.Keys <= c.shards.Keys + {id}
    ensures !Routed(c, id) ==> Orient(c, fs, id) == c
    ensures Orient(c, fs, id).refused == c.refused && Orient(c, fs, id).store == c.store
  {
  }

  /** Only shards, refused declarations and per-agent rows may differ, and no shard comes or goes. */
  predicate OnlyAgents(c: Conn, c': Conn) {
    c' == c.(shards := c'.shards, refused := c'.refused, store := c.store.(agentPins := c'.store.agentPins)) &&
    c'.shards.Keys == c.shards.Keys
  }

  lemma RepinAgentFrame(c: Conn, id: Id, t: Target, origin: Origin, force: bool)
    requires id in c.shards
    ensures OnlyAgents(c, RepinAgent(c, id, t, origin, force).0)
  {
  }

  lemma SettleFrame(c: Conn, id: Id, prevRoot: Path, t: Target, origin: Origin, trigger: Trigger, moved: bool)
    ensures OnlyAgents(c, SettleConnection(c, id, prevRoot, t, origin, trigger, moved))
  {
  }

  lemma RepinOnConnectionFrame(c: Conn, fs: Fs, id: Id, authorised: bool, t: Target, origin: Origin,
                               trigger: Trigger, force: bool)
    ensures var c' := RepinOnConnection(c, fs, id, authorised, t, origin, trigger, force).0;
      SameIdentities(c, c') && c'.shards.Keys == c.shards.Keys
  {
    var (c1, moved) := AttachOrRepin(c, fs, id, authorised, t, origin, trigger, force);
    AttachOrRepinFrame(c, fs, id, authorised, t, origin, trigger, force);
    SettleFrame(c1, id, c.pin.root, t, origin, trigger, moved == ConnMoved);
  }

  lemma RepinOnAgentFrame(c: Conn, fs: Fs, id: Id, t: Target, origin: Origin, force: bool)
    ensures var c' := RepinOnAgent(c, fs, id, t, origin, force).0;
      SameIdentities(c, c') && c'.shards.Keys == c.shards.Keys + {id} && c'.pin == c.pin &&
      c'.store.connPin == c.store.connPin
  {
    ShardOfFrame(c, fs, id);
    RepinAgentFrame(ShardOf(c, fs, id), id, t, origin, force);
  }

  lemma RepinFromFrame(c: Conn, fs: Fs, id: Id, authorised: bool, folder: Path, origin: Origin,
                       trigger: Trigger, force: bool)
    ensures var c' := RepinFrom(c, fs, id, authorised, folder, origin, trigger, force).0;
      SameIdentities(c, c') && c'.shards.Keys <= c.shards.Keys + {id}
    ensures !Routed(c, id) ==>
      RepinFrom(c, fs, id, authorised, folder, origin, trigger, force).0.shards.Keys == c.shards.Keys
    ensures Routed(c, id) ==>
      var c' := RepinFrom(c, fs, id, authorised, folder, origin, trigger, force).0;
      c'.pin == c.pin && c'.store.connPin == c.store.connPin
  {
    match RepinTarget(fs, folder, origin, trigger)
    case None =>
    case Some(t) =>
      if Routed(c, id) {
        RepinOnAgentFrame(c, fs, id, t, origin, force);
      } else {
        RepinOnConnectionFrame(c, fs, id, authorised, t, origin, trigger, force);
      }
  }

  lemma RepinWorkspaceFrame(c: Conn, fs: Fs, e: Event)
    requires e.SessionStartCall?
    ensures var c' := RepinWorkspace(c, fs, e).0;
      SameIdentities(c, c') && c'.shards.Keys <= c.shards.Keys + {CallerOf(e)} &&
      (CallerOf(e) == "" ==> c'.shards.Keys == c.shards.Keys)
  {
    var id := CallerOf(e);
    if e.workspace != "" {
      if e.connScope {
        var c1 := RepinFrom(c, fs, "", true, e.workspace, SessionStart, Live, e.force).0;
        RepinFromFrame(c, fs, "", true, e.workspace, SessionStart, Live, e.force);
        OrientFrame(ClearRefused(c1, id), fs, id);
      } else {
        RepinFromFrame(c, fs, id, false, e.workspace, SessionStart, Live, e.force);
      }
    }
  }

  lemma BeforeSessionStartFrame(c: Conn, fs: Fs, e: Event)
    requires e.SessionStartCall?
    ensures var c' := BeforeSessionStart(c, fs, e);
      c'.shards == c.shards && c'.store.agentPins == c.store.agentPins && c'.refused == c.refused &&
      c'.priorShared == c.priorShared && c'.persist == c.persist && c.seen <= c'.seen &&
      c'.seen == BeforeTool(c, e.stamp, e.marker).seen && (e.stamp != "" ==> e.stamp in c'.seen)
    ensures c.pin.root != "" ==> BeforeSessionStart(c, fs, e) == BeforeTool(c, e.stamp, e.marker)
  {
    var c1 := BeforeTool(c, e.stamp, e.marker);
    BeforeToolFrame(c, e.stamp, e.marker);
    SeedFromCallFrame(c1, fs, "");
    FirstAttachFrame(c1, fs, fs.seedRoot(e.workspace, true), SessionStart);
  }

  /** A reconnecting connection has no shard until a call resolves through one. */
  lemma AttachReplayedFrame(c: Conn, fs: Fs, root: Path, origin: Origin)
    ensures SameIdentities(c, AttachReplayedPin(c, fs, root, origin))
    ensures AttachReplayedPin(c, fs, root, origin).shards.Keys == c.shards.Keys
  {
    RepinFromFrame(c, fs, "", false, root, origin, Restore, false);
  }

  lemma RestartFrame(c: Conn, fs: Fs, e: Event)
    requires e.Restart?
    ensures SameIdentities(Reconnected(c, e), RestartStep(c, fs, e))
    ensures RestartStep(c, fs, e).shards == map[]
  {
    var r := Reconnected(c, e);
    var row := LoadConnPin(r);
    var c1 := if e.replayed == "" || fs.wide(e.replayed) then r else AttachReplayedPin(r, fs, e.replayed, SessionStart);
    AttachReplayedFrame(r, fs, e.replayed, SessionStart);
    var c2 := if c1.pin.root == "" && row.Some? && row.value.origin == SessionStart
              then AttachReplayedPin(c1, fs, row.value.root, row.value.origin) else c1;
    if row.Some? {
      AttachReplayedFrame(c1, fs, row.value.root, row.value.origin);
    }
    var c3 := FirstAttach(c2, fs, DetectedFolder(fs, e.roots), Roots);
    FirstAttachFrame(c2, fs, DetectedFolder(fs, e.roots), Roots);
    if row.Some? {
      AttachReplayedFrame(c3, fs, row.value.root, row.value.origin);
    }
    var c4 := if c3.pin.root == "" && row.Some?
              then AttachReplayedPin(c3, fs, row.value.root, row.value.origin) else c3;
    FirstAttachFrame(c4, fs, DetectedFolder(fs, c4.hint), Unknown);
  }
}
