/**
 Which calls keep the connection sheltered, and so converging: all but one kind. A subagent that only types
 its name in session_id, on a connection that has seen its conversation alone, and is turned away, leaves
 behind a shard under a name the connection never committed.
 */
module Shelter {
  import opened Ids
  import opened ConnSpec
  import opened ConnFrames
  import opened Ownership
  import opened Convergence
  import opened Options
  import opened Counting

  /** An unstamped session_start by a new subagent of the one conversation seen; nothing it chose is on file. */
  predicate FirstWord(c: Conn, fs: Fs, e: Event) {
    e.SessionStartCall? && e.stamp == "" && Subagent(e.sessionId) && c.seen == {LinkageOf(e.sessionId)} &&
    !c.priorShared && c.persist && e.sessionId !in c.shards && Restorable(c, fs, e.sessionId).None?
  }

  /** What turns such a call away, or lets it name no workspace and fail on another argument. */
  predicate TurnedAway(c: Conn, fs: Fs, e: Event)
    requires e.SessionStartCall?
  {
    if e.workspace == "" then !e.valid
    else
      match RepinTarget(fs, e.workspace, SessionStart, Live)
      case None => true
      case Some(t) =>
        if e.connScope then !e.valid || StickyPinHolds(c, t.root, Live, e.force)
        else AgentMoveRefused(SeedShard(c, fs, e.sessionId), t.root, e.force)
  }

  /** The one call that costs the connection its shelter. */
  predicate LeavesOrphan(c: Conn, fs: Fs, e: Event) {
    FirstWord(c, fs, e) && TurnedAway(c, fs, e)
  }

  // ---- what re-pins do to choices and markers ---------------------------------------------------

  /** No choice is made or lost, and no declaration newly refused. */
  predicate SameChoices(c: Conn, c': Conn) {
    c'.shards.Keys == c.shards.Keys && (forall x :: x in c.shards ==> Chose(c'.shards[x]) == Chose(c.shards[x])) &&
    c'.refused.Keys <= c.refused.Keys
  }

  /** Only id's choice and id's marker may differ. */
  predicate SameOtherChoices(c: Conn, c': Conn, id: Id) {
    c'.shards.Keys == c.shards.Keys + {id} &&
    (forall x :: x in c.shards && x != id ==> Chose(c'.shards[x]) == Chose(c.shards[x])) &&
    c'.refused.Keys <= c.refused.Keys + {id}
  }

  lemma RepinOnConnectionChoices(c: Conn, fs: Fs, id: Id, authorised: bool, t: Target, origin: Origin,
                                 trigger: Trigger, force: bool)
    ensures SameChoices(c, RepinOnConnection(c, fs, id, authorised, t, origin, trigger, force).0)
  {
    var (c1, moved) := AttachOrRepin(c, fs, id, authorised, t, origin, trigger, force);
    AttachOrRepinFrame(c, fs, id, authorised, t, origin, trigger, force);
    SettleChoices(c1, id, c.pin.root, t, origin, trigger, moved == ConnMoved);
  }

  lemma SettleChoices(c: Conn, id: Id, prevRoot: Path, t: Target, origin: Origin, trigger: Trigger, moved: bool)
    ensures SameChoices(c, SettleConnection(c, id, prevRoot, t, origin, trigger, moved))
  {
  }

  /** The refused declarations are those there were and, if it is marked, id's. */
  ghost predicate Marks(c: Conn, c': Conn, id: Id, marked: bool) {
    forall x :: x in c'.refused <==> x in c.refused || (marked && x == id)
  }

  /** The shard takes the pin its agent named: the agent has chosen, and nobody else's choice differs. */
  predicate Chosen(c: Conn, c': Conn, id: Id) {
    c'.shards.Keys == c.shards.Keys && c'.refused == c.refused && id in c'.shards && c'.shards[id].selfPinned &&
    forall x :: x in c.shards && x != id ==> Chose(c'.shards[x]) == Chose(c.shards[x])
  }

  lemma MoveChoices(c: Conn, id: Id, pin: Pin, prev: Path)
    requires id in c.shards
    ensures Chosen(c, MoveShard(c, id, pin), id) && Chosen(c, FollowParent(MoveShard(c, id, pin), id, prev), id)
  {
  }

  lemma ConfirmChoices(c: Conn, id: Id, root: Path, lang: Lang)
    requires id in c.shards
    ensures Chosen(c, ConfirmShardPin(c, id, root, lang, SessionStart), id)
  {
  }

  lemma RefusalMarks(c: Conn, id: Id, t: Target, force: bool)
    requires id in c.shards && id != "" && AgentMoveRefused(c.shards[id], t.root, force)
    ensures var (c', moved) := RepinAgent(c, id, t, SessionStart, force);
      moved == AgentRefused && c'.shards == c.shards && Marks(c, c', id, !Chose(c.shards[id]))
  {
  }

  lemma RepinAgentChoices(c: Conn, id: Id, t: Target, force: bool)
    requires id in c.shards && id != ""
    ensures var (c', moved) := RepinAgent(c, id, t, SessionStart, force); var sh := c.shards[id];
      if AgentMoveRefused(sh, t.root, force)
      then moved == AgentRefused && c'.shards == c.shards && Marks(c, c', id, !Chose(sh))
      else moved != AgentRefused && Chosen(c, c', id)
  {
    var sh := c.shards[id];
    if AgentMoveRefused(sh, t.root, force) {
      RefusalMarks(c, id, t, force);
    } else if t.root == sh.pin.root && t.lang == sh.pin.lang {
      ConfirmChoices(c, id, t.root, t.lang);
    } else {
      MoveChoices(c, id, Pin(t.root, t.lang, SessionStart), sh.pin.root);
    }
  }

  lemma RepinOnAgentChoices(c: Conn, fs: Fs, id: Id, t: Target, force: bool)
    requires id != ""
    ensures var (c', out) := RepinOnAgent(c, fs, id, t, SessionStart, force); var sh := ShardOf(c, fs, id).shards[id];
      SameOtherChoices(c, c', id) &&
      (if AgentMoveRefused(sh, t.root, force)
       then out == Failed && c'.shards[id] == sh && Marks(c, c', id, !Chose(sh))
       else out == AgentScope(t.root) && c'.shards[id].selfPinned && c'.refused == c.refused - {id})
  {
    ShardOfFrame(c, fs, id);
    RepinAgentChoices(ShardOf(c, fs, id), id, t, force);
  }

  lemma RepinFromChoices(c: Conn, fs: Fs, id: Id, authorised: bool, folder: Path, force: bool)
    requires !Routed(c, id)
    ensures SameChoices(c, RepinFrom(c, fs, id, authorised, folder, SessionStart, Live, force).0)
  {
    var target := RepinTarget(fs, folder, SessionStart, Live);
    if target.Some? {
      RepinOnConnectionChoices(c, fs, id, authorised, target.value, SessionStart, Live, force);
    }
  }

  /** Connection scope: the connection may move, no choice is made, and the caller gets a shard if it is routed. */
  lemma RepinConnectionChoices(c: Conn, fs: Fs, id: Id, folder: Path, force: bool)
    requires id in c.shards || !Routed(c, id)
    ensures SameChoices(c, RepinConnection(c, fs, id, folder, force).0)
  {
    RepinFromChoices(c, fs, "", true, folder, force);
    RepinFromFrame(c, fs, "", true, folder, SessionStart, Live, force);
    var c1 := RepinFrom(c, fs, "", true, folder, SessionStart, Live, force).0;
    StaysPut(ClearRefused(c1, id), fs, id);
  }

  lemma StaysPut(c: Conn, fs: Fs, id: Id)
    requires id in c.shards || !Routed(c, id)
    ensures Orient(c, fs, id) == c
  {
  }

  lemma UnroutedChoices(c: Conn, fs: Fs, e: Event)
    requires e.SessionStartCall? && !Routed(c, CallerOf(e))
    ensures SameChoices(c, RepinWorkspace(c, fs, e).0)
  {
    RepinConnectionChoices(c, fs, CallerOf(e), e.workspace, e.force);
    RepinFromChoices(c, fs, CallerOf(e), false, e.workspace, e.force);
  }

  // ---- the subagent's call ----------------------------------------------------------------------

  /** The connection has seen one conversation alone, nobody is waiting on it, and rows are kept. */
  predicate Alone(c: Conn, a: Id) {
    c.persist && !c.priorShared && c.seen == {a} && NoStray(c, a)
  }

  /** A second identity's unstamped session_start, up to its re-pin: it has a shard, and nothing else moved. */
  lemma SecondOriented(c: Conn, fs: Fs, e: Event, a: Id)
    requires e.SessionStartCall? && e.stamp == "" && e.sessionId !in {"", a} && Alone(c, a) && c.pin.root != ""
    ensures var c2 := Orient(BeforeSessionStart(c, fs, e), fs, e.sessionId);
      Routed(c, e.sessionId) && Repinned(c, fs, e) == RepinWorkspace(c2, fs, e) &&
      (LinkageOf(e.sessionId) == a ==> c2 == ShardOf(c, fs, e.sessionId)) &&
      (c2 == c || c2 == ShardOf(c, fs, e.sessionId))
  {
  }

  lemma ConnScopeFails(c: Conn, fs: Fs, e: Event)
    requires e.SessionStartCall? && CallerOf(e) != "" && e.connScope && e.workspace != ""
    ensures var target := RepinTarget(fs, e.workspace, SessionStart, Live);
      RepinWorkspace(c, fs, e).1 == Failed <==> target.None? || StickyPinHolds(c, target.value.root, Live, e.force)
  {
  }

  /** The shard of a first word is left undecided exactly by a call that is turned away. */
  lemma FirstWordLeaves(c: Conn, fs: Fs, e: Event, a: Id)
    requires Alone(c, a) && c.pin.root != "" && FirstWord(c, fs, e) && a == LinkageOf(e.sessionId)
    ensures var (c3, out) := Repinned(c, fs, e); var id := e.sessionId;
      SameOtherChoices(c, c3, id) &&
      (TurnedAway(c, fs, e) ==> !Succeeds(c, fs, e) && !Chose(c3.shards[id])) &&
      (!TurnedAway(c, fs, e) && !Succeeds(c, fs, e) ==> Chose(c3.shards[id]) && c3.refused == c.refused - {id})
  {
    var id := e.sessionId;
    SecondOriented(c, fs, e, a);
    var c2 := ShardOf(c, fs, id);
    ShardOfFrame(c, fs, id);
    if e.workspace != "" {
      if e.connScope {
        RepinConnectionChoices(c2, fs, id, e.workspace, e.force);
        ConnScopeFails(c2, fs, e);
      } else {
        match RepinTarget(fs, e.workspace, SessionStart, Live)
        case None =>
        case Some(t) => RepinOnAgentChoices(c2, fs, id, t, e.force);
      }
    }
  }
  // ---- whole session_starts ---------------------------------------------------------------------

  lemma BeforeToolSeen(c: Conn, stamp: Id, marker: bool)
    ensures BeforeTool(c, stamp, marker).seen == c.seen + ({stamp} - {""})
  {
  }

  lemma CommitSeen(c: Conn, e: Event)
    requires e.SessionStartCall?
    ensures CommitIdentity(c, e).seen == c.seen + ({e.sessionId} - {""})
  {
    LinkSeen(c, e.stamp, e.sessionId);
  }

  lemma LinkSeen(c: Conn, stamp: Id, id: Id)
    ensures LinkExternal(c, stamp, id).seen == c.seen + ({id} - {""})
  {
    RecordSeen(c, id);
    RecordSeen(c.(linked := LinkageOf(id)), id);
  }

  lemma RecordSeen(c: Conn, id: Id)
    ensures RecordAttach(c, id).seen == c.seen + ({id} - {""})
  {
  }

  lemma RepinnedSeen(c: Conn, fs: Fs, e: Event)
    requires e.SessionStartCall?
    ensures var c' := Repinned(c, fs, e).0;
      c'.persist == c.persist && c'.priorShared == c.priorShared && c'.seen == BeforeTool(c, e.stamp, e.marker).seen
  {
    BeforeSessionStartFrame(c, fs, e);
    var c1 := BeforeSessionStart(c, fs, e);
    OrientFrame(c1, fs, CallerOf(e));
    RepinWorkspaceFrame(Orient(c1, fs, CallerOf(e)), fs, e);
  }

  /** The identities a session_start adds: its stamp, and what it declares if it succeeds. */
  lemma SessionStartSeen(c: Conn, fs: Fs, e: Event)
    requires e.SessionStartCall?
    ensures var c' := SessionStartStep(c, fs, e);
      c'.persist == c.persist && c'.priorShared == c.priorShared &&
      c'.seen == c.seen + ({e.stamp} - {""}) + if Succeeds(c, fs, e) then {e.sessionId} - {""} else {}
  {
    RepinnedSeen(c, fs, e);
    BeforeToolSeen(c, e.stamp, e.marker);
    CommitSeen(Repinned(c, fs, e).0, e);
    CommitIdentityFrame(Repinned(c, fs, e).0, e);
  }

  lemma ManyStays(c: Conn, c': Conn)
    requires (Many(c) || !c.persist) && c.seen <= c'.seen && c'.priorShared == c.priorShared && c'.persist == c.persist
    ensures Sheltered(c')
  {
  }

  lemma ChoicesKeepNoStray(c: Conn, c': Conn, a: Id)
    requires NoStray(c, a) && SameChoices(c, c')
    ensures NoStray(c', a)
  {
  }

  /** The call of the only identity there is, or of none. */
  lemma SoleCallChoices(c: Conn, fs: Fs, e: Event)
    requires e.SessionStartCall? && c.pin.root != "" && !Routed(BeforeTool(c, e.stamp, e.marker), CallerOf(e))
    ensures SameChoices(c, SessionStartStep(c, fs, e))
  {
    BeforeToolFrame(c, e.stamp, e.marker);
    BeforeSessionStartFrame(c, fs, e);
    var c1 := BeforeSessionStart(c, fs, e);
    StaysPut(c1, fs, CallerOf(e));
    UnroutedChoices(c1, fs, e);
    CommitIdentityFrame(Repinned(c, fs, e).0, e);
  }

  /** A second identity's unstamped session_start keeps the shelter unless it leaves an orphan. */
  lemma SecondSheltered(c: Conn, fs: Fs, e: Event, a: Id)
    requires e.SessionStartCall? && e.stamp == "" && e.sessionId !in {"", a} && Alone(c, a) && c.pin.root != ""
    ensures Sheltered(SessionStartStep(c, fs, e)) <==> !LeavesOrphan(c, fs, e)
  {
    var id := e.sessionId;
    var c' := SessionStartStep(c, fs, e);
    SessionStartSeen(c, fs, e);
    if Succeeds(c, fs, e) {
      assert a in c'.seen && id in c'.seen;
      if LeavesOrphan(c, fs, e) {
        FirstWordLeaves(c, fs, e, a);
      }
    } else {
      assert c'.seen == {a};
      assert c' == Repinned(c, fs, e).0;
      SecondFails(c, fs, e, a);
    }
  }

  /** Only id's shard and marker may have come, and nobody else's choice differs. */
  predicate OthersKept(c: Conn, c': Conn, id: Id) {
    c.shards.Keys <= c'.shards.Keys <= c.shards.Keys + {id} && c'.refused.Keys <= c.refused.Keys + {id} &&
    forall x :: x in c.shards && x != id ==> Chose(c'.shards[x]) == Chose(c.shards[x])
  }

  lemma SecondRepins(c: Conn, fs: Fs, e: Event)
    requires e.SessionStartCall? && Routed(c, CallerOf(e))
    ensures OthersKept(c, RepinWorkspace(c, fs, e).0, CallerOf(e))
  {
    var id := CallerOf(e);
    if e.workspace != "" {
      if e.connScope {
        RepinFromChoices(c, fs, "", true, e.workspace, e.force);
        OrientFrame(ClearRefused(RepinFrom(c, fs, "", true, e.workspace, SessionStart, Live, e.force).0, id), fs, id);
      } else {
        match RepinTarget(fs, e.workspace, SessionStart, Live)
        case None =>
        case Some(t) => RepinOnAgentChoices(c, fs, id, t, e.force);
      }
    }
  }

  /** A subagent that had chosen still has, and no refusal of its own is recorded. */
  lemma ChosenRepins(c: Conn, fs: Fs, e: Event)
    requires e.SessionStartCall? && Routed(c, CallerOf(e)) && CallerOf(e) in c.shards && Chose(c.shards[CallerOf(e)])
    ensures var c' := RepinWorkspace(c, fs, e).0;
      CallerOf(e) in c'.shards && Chose(c'.shards[CallerOf(e)]) && c'.refused.Keys <= c.refused.Keys
  {
    var id := CallerOf(e);
    if e.workspace != "" {
      if e.connScope {
        RepinConnectionChoices(c, fs, id, e.workspace, e.force);
      } else {
        match RepinTarget(fs, e.workspace, SessionStart, Live)
        case None =>
        case Some(t) => RepinOnAgentChoices(c, fs, id, t, e.force);
      }
    }
  }

  /** A second identity's failing call, where nothing is left undecided. */
  lemma SecondSpares(c: Conn, c3: Conn, id: Id, a: Id)
    requires NoStray(c, a) && id != a && OthersKept(c, c3, id)
    requires LinkageOf(id) == a ==> (id in c3.shards ==> Chose(c3.shards[id])) && c3.refused.Keys <= c.refused.Keys
    ensures NoStray(c3, a)
  {
  }

  lemma ThenOthersKept(c: Conn, fs: Fs, c2: Conn, c3: Conn, id: Id)
    requires (c2 == c || c2 == ShardOf(c, fs, id)) && OthersKept(c2, c3, id)
    ensures OthersKept(c, c3, id)
  {
  }

  /** A subagent that is not a newcomer is one that chose, in memory or on file. */
  lemma NotFirstChose(c: Conn, fs: Fs, e: Event, a: Id)
    requires e.SessionStartCall? && e.stamp == "" && e.sessionId != a && Alone(c, a) && LinkageOf(e.sessionId) == a
    requires !FirstWord(c, fs, e)
    ensures Chose(ShardOf(c, fs, e.sessionId).shards[e.sessionId])
  {
  }

  lemma SecondFails(c: Conn, fs: Fs, e: Event, a: Id)
    requires e.SessionStartCall? && e.stamp == "" && e.sessionId !in {"", a} && Alone(c, a) && c.pin.root != ""
    requires !Succeeds(c, fs, e)
    ensures NoStray(Repinned(c, fs, e).0, a) <==> !LeavesOrphan(c, fs, e)
  {
    var id := e.sessionId;
    var c3 := Repinned(c, fs, e).0;
    if FirstWord(c, fs, e) {
      FirstWordLeaves(c, fs, e, a);
      ShardStaysThere(c, c3, id);
      if !TurnedAway(c, fs, e) {
        SecondSpares(c, c3, id, a);
      }
    } else {
      SecondOriented(c, fs, e, a);
      var c2 := Orient(BeforeSessionStart(c, fs, e), fs, id);
      ShardOfFrame(c, fs, id);
      SecondRepins(c2, fs, e);
      ThenOthersKept(c, fs, c2, c3, id);
      if LinkageOf(id) == a {
        NotFirstChose(c, fs, e, a);
        ChosenRepins(c2, fs, e);
      }
      SecondSpares(c, c3, id, a);
    }
  }

  lemma ShardStaysThere(c: Conn, c': Conn, id: Id)
    requires SameOtherChoices(c, c', id)
    ensures id in c'.shards
  {
  }
  lemma TwoSeen(seen: set<Id>)
    ensures |seen| > 1 <==> exists a, b :: a in seen && b in seen && a != b
    ensures |seen| == 1 ==> exists a :: seen == {a}
  {
    if seen != {} {
      var a :| a in seen;
      var rest := seen - {a};
      assert seen == rest + {a} && |seen| == |rest| + 1;
      if rest != {} {
        var b :| b in rest;
      } else {
        assert seen == {a};
      }
    }
  }

  lemma SoleCallSheltered(c: Conn, fs: Fs, e: Event)
    requires e.SessionStartCall? && c.pin.root != "" && Sheltered(c) && !Many(c) && c.persist
    requires !Routed(BeforeTool(c, e.stamp, e.marker), CallerOf(e))
    ensures Sheltered(SessionStartStep(c, fs, e)) && !LeavesOrphan(c, fs, e)
  {
    var c' := SessionStartStep(c, fs, e);
    SoleCallChoices(c, fs, e);
    SessionStartSeen(c, fs, e);
    if !Many(c') {
      forall a | a in c'.seen ensures NoStray(c', a) {
        if a in c.seen {
          ChoicesKeepNoStray(c, c', a);
        }
      }
    }
  }

  lemma SessionStartSheltered(c: Conn, fs: Fs, e: Event)
    requires e.SessionStartCall? && c.pin.root != "" && Sheltered(c)
    ensures Sheltered(SessionStartStep(c, fs, e)) <==> !LeavesOrphan(c, fs, e)
  {
    SessionStartSeen(c, fs, e);
    BeforeToolSeen(c, e.stamp, e.marker);
    TwoSeen(c.seen);
    if Many(c) || !c.persist {
      ManyStays(c, SessionStartStep(c, fs, e));
    } else if !Routed(BeforeTool(c, e.stamp, e.marker), CallerOf(e)) {
      SoleCallSheltered(c, fs, e);
    } else if e.stamp != "" {
      StampedMakesTwo(c, e);
    } else {
      var a :| c.seen == {a};
      SecondSheltered(c, fs, e, a);
    }
  }

  lemma StampedMakesTwo(c: Conn, e: Event)
    requires e.SessionStartCall? && e.stamp != "" && !c.priorShared && Routed(BeforeTool(c, e.stamp, e.marker), e.stamp)
    ensures exists a :: a in c.seen && a != e.stamp
  {
    BeforeToolFrame(c, e.stamp, e.marker);
    BeforeToolSeen(c, e.stamp, e.marker);
    TwoSeen(BeforeTool(c, e.stamp, e.marker).seen);
  }

  // ---- the other events -------------------------------------------------------------------------

  /** Nothing but a shard for id may have come, and if it has, id is not alone or is a subagent. */
  predicate MayGainShard(c: Conn, c': Conn, id: Id) {
    c' == c.(shards := c'.shards) && c.shards.Keys <= c'.shards.Keys <= c.shards.Keys + {id} &&
    (forall x :: x in c.shards ==> c'.shards[x] == c.shards[x]) &&
    (c'.shards != c.shards ==> id != "" && (Routed(c, id) || '/' in id))
  }

  lemma OrientGains(c: Conn, fs: Fs, id: Id)
    ensures MayGainShard(c, Orient(c, fs, id), id)
  {
  }

  lemma IdentifyGains(c: Conn, fs: Fs, id: Id)
    ensures MayGainShard(c, Identify(c, fs, id), id)
  {
  }

  lemma GainTwice(c: Conn, c1: Conn, c2: Conn, id: Id)
    requires MayGainShard(c, c1, id) && MayGainShard(c1, c2, id)
    ensures MayGainShard(c, c2, id)
  {
  }

  /** The only shard a tool call creates is its caller's; a caller alone gets one only if it is a subagent. */
  lemma ToolCallGains(c: Conn, fs: Fs, e: Event)
    requires e.ToolCall? && c.pin.root != "" && !RefusedCall(c, e)
    ensures MayGainShard(BeforeTool(c, e.stamp, e.marker), ToolCallStep(c, fs, e), e.stamp)
  {
    var c1 := BeforeTool(c, e.stamp, e.marker);
    BeforeToolFrame(c, e.stamp, e.marker);
    AttachForCallFrame(c1, fs, e);
    OrientGains(c1, fs, e.stamp);
    var c2 := if e.resolves then Orient(c1, fs, e.stamp) else c1;
    IdentifyGains(c2, fs, e.stamp);
    GainTwice(c1, c2, if e.identifies then Identify(c2, fs, e.stamp) else c2, e.stamp);
  }

  lemma ToolCallSheltered(c: Conn, fs: Fs, e: Event)
    requires e.ToolCall? && c.pin.root != "" && Sheltered(c)
    ensures Sheltered(ToolCallStep(c, fs, e))
  {
    if !RefusedCall(c, e) {
      var c1 := BeforeTool(c, e.stamp, e.marker);
      BeforeToolFrame(c, e.stamp, e.marker);
      BeforeToolSeen(c, e.stamp, e.marker);
      ToolCallGains(c, fs, e);
      if Many(c) || !c.persist {
        ManyStays(c, ToolCallStep(c, fs, e));
      } else {
        GainSheltered(c, c1, ToolCallStep(c, fs, e), e.stamp);
      }
    }
  }

  lemma GainSheltered(c: Conn, c1: Conn, c': Conn, id: Id)
    requires c.persist && Sheltered(c) && !Many(c) && OnlyIdentities(c, c1) && c1.seen == c.seen + ({id} - {""})
    requires MayGainShard(c1, c', id)
    ensures Sheltered(c')
  {
    TwoSeen(c'.seen);
    if !Many(c') {
      forall a | a in c'.seen ensures NoStray(c', a) {
        if a in c.seen {
          assert NoStray(c, a);
        }
      }
    }
  }

  lemma RootsChangedSheltered(c: Conn, fs: Fs, folders: seq<Path>)
    requires c.pin.root != "" && Sheltered(c)
    ensures Sheltered(RootsChangedStep(c, fs, folders))
  {
    var c' := RootsChangedStep(c, fs, folders);
    if c' != c {
      RepinFromFrame(c, fs, "", false, folders[0], Roots, Live, false);
      var target := RepinTarget(fs, folders[0], Roots, Live);
      if target.Some? {
        RepinOnConnectionChoices(c, fs, "", false, target.value, Roots, Live, false);
      }
      assert SameChoices(c, c');
      forall a | a in c.seen && NoStray(c, a) ensures NoStray(c', a) {
        ChoicesKeepNoStray(c, c', a);
      }
    }
  }

  lemma ReplayedRefusesNobody(c: Conn, fs: Fs, root: Path, origin: Origin)
    ensures AttachReplayedPin(c, fs, root, origin).refused.Keys <= c.refused.Keys
  {
    var target := RepinTarget(fs, root, origin, Restore);
    if target.Some? {
      RepinOnConnectionChoices(c, fs, "", false, target.value, origin, Restore, false);
    }
  }

  lemma RestartSheltered(c: Conn, fs: Fs, e: Event)
    requires e.Restart?
    ensures Sheltered(RestartStep(c, fs, e))
  {
    RestartFrame(c, fs, e);
    RestartRefusesNobody(c, fs, e);
  }

  lemma RestartRefusesNobody(c: Conn, fs: Fs, e: Event)
    requires e.Restart?
    ensures RestartStep(c, fs, e).refused == map[]
  {
    var r := Reconnected(c, e);
    var row := LoadConnPin(r);
    ReplayedRefusesNobody(r, fs, e.replayed, SessionStart);
    var c1 := if e.replayed == "" || fs.wide(e.replayed) then r else AttachReplayedPin(r, fs, e.replayed, SessionStart);
    var c2 := if c1.pin.root == "" && row.Some? && row.value.origin == SessionStart
              then AttachReplayedPin(c1, fs, row.value.root, row.value.origin) else c1;
    var c3 := FirstAttach(c2, fs, DetectedFolder(fs, e.roots), Roots);
    if row.Some? {
      ReplayedRefusesNobody(c1, fs, row.value.root, row.value.origin);
      ReplayedRefusesNobody(c3, fs, row.value.root, row.value.origin);
    }
    FirstAttachFrame(c2, fs, DetectedFolder(fs, e.roots), Roots);
    var c4 := if c3.pin.root == "" && row.Some?
              then AttachReplayedPin(c3, fs, row.value.root, row.value.origin) else c3;
    FirstAttachFrame(c4, fs, DetectedFolder(fs, c4.hint), Unknown);
  }

  /** One event keeps an attached connection sheltered exactly when it does not leave an orphan. */
  lemma StepSheltered(c: Conn, fs: Fs, e: Event)
    requires c.pin.root != "" && Sheltered(c)
    ensures Sheltered(Step(c, fs, e)) <==> !LeavesOrphan(c, fs, e)
  {
    match e
    case SessionStartCall(_, _, _, _, _, _, _) => SessionStartSheltered(c, fs, e);
    case ToolCall(_, _, _, _, _, _, _) => ToolCallSheltered(c, fs, e);
    case RootsChanged(folders) => RootsChangedSheltered(c, fs, folders);
    case Restart(_, _, _, _, _) => RestartSheltered(c, fs, e);
  }

  // ---- runs -------------------------------------------------------------------------------------

  /** No call of the run leaves an orphan, and every restart comes back attached. */
  predicate OrderlyRun(c: Conn, fs: Fs, run: seq<Event>) {
    forall i :: 0 <= i < |run| ==> Orderly(Exec(c, fs, run[..i]), fs, run[i])
  }

  predicate Orderly(c: Conn, fs: Fs, e: Event) {
    !LeavesOrphan(c, fs, e) && (e.Restart? ==> Step(c, fs, e).pin.root != "")
  }

  lemma {:induction false} RunConverges(c: Conn, fs: Fs, run: seq<Event>)
    requires Converged(c, fs) && Sheltered(c) && OrderlyRun(c, fs, run)
    ensures Converged(Exec(c, fs, run), fs) && Sheltered(Exec(c, fs, run))
  {
    if run == [] {
    } else {
      var last := |run| - 1;
      forall i | 0 <= i < last
        ensures Orderly(Exec(c, fs, run[..last][..i]), fs, run[..last][i])
      {
        assert run[..last][..i] == run[..i];
      }
      RunConverges(c, fs, run[..last]);
      var mid := Exec(c, fs, run[..last]);
      assert Orderly(mid, fs, run[last]);
      StepConverges(mid, fs, run[last]);
      StepSheltered(mid, fs, run[last]);
    }
  }

  /** What convergence means for one shard: with its conversation if that chose a root, else with the connection. */
  predicate AtHome(c: Conn, id: Id)
    requires id in c.shards
  {
    (ParentChose(c.shards, id) ==> c.shards[id].pin.root == c.shards[LinkageOf(id)].pin.root) &&
    (FollowsConnection(c.shards, id) ==> c.shards[id].pin.root == c.pin.root)
  }

  /** Every shard whose agent chose no root is where it should be. */
  predicate AllAtHome(c: Conn) {
    forall id :: id in c.shards && !Chose(c.shards[id]) ==> AtHome(c, id)
  }

  /**
   Subagent and connection convergence over any orderly run, however connection moves, parent moves,
   shard creations and restarts are ordered: a subagent that neither pinned itself nor was restored, and
   whose conversation chose a root, holds exactly its conversation's root; and every shard that follows
   the connection sits exactly where the connection sits.
   */
  lemma SubagentsConverge(c: Conn, fs: Fs, run: seq<Event>)
    requires Converged(c, fs) && Sheltered(c) && OrderlyRun(c, fs, run)
    ensures AllAtHome(Exec(c, fs, run))
  {
    RunConverges(c, fs, run);
    var c' := Exec(c, fs, run);
    forall id | id in c'.shards && !Chose(c'.shards[id]) ensures AtHome(c', id) {
      assert Settled(c', fs, id);
    }
  }
}
