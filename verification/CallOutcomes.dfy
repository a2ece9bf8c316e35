/**
 What a whole event comes to. A call's identity, its attach, the shard it resolves through and the re-pin it asks
 for follow one another; each is said of the fields, and together they leave every event one outcome.
 */
module CallOutcomes {
  import opened Ids
  import opened ConnSpec
  import opened Options
  import opened Outcomes
  import opened AttachOutcomes
  import opened RepinOutcomes
  import Admission

  // ---- identities -----------------------------------------------------------------------------

  /** A conversation nobody has seen, announced by a /clear, follows the only conversation the connection knew. */
  ghost predicate TakesOver(c: Conn, stamp: Id, marker: bool) {
    marker && stamp != "" && '/' !in stamp && stamp !in c.seen && c.seen != {} && c.linked != "" &&
    forall x :: x in c.seen ==> LinkageOf(x) == c.linked
  }

  /** In front of an admitted call its caller is counted, and a successor becomes the connection's conversation. */
  ghost predicate Precedes(c: Conn, stamp: Id, marker: bool, c': Conn) {
    var counted := c.(seen := c.seen + Naming(stamp));
    c' ==
      if TakesOver(c, stamp, marker) then
        counted.(linked := stamp, declared := c.declared + {stamp},
                 store := if c.persist then c.store.(declared := c.store.declared + {stamp}, linkage := stamp) else c.store)
      else counted
  }

  lemma PrecedesDecided(c: Conn, stamp: Id, marker: bool, c': Conn)
    ensures Precedes(c, stamp, marker, c') <==> c' == BeforeTool(c, stamp, marker)
  {
    if '/' !in stamp {
      NoSlashIsOwnLinkage(stamp);
    }
    assert c.seen + {stamp} + {stamp} == c.seen + {stamp} && c.seen + {} == c.seen;
  }

  /** The conversations a session_start vouches for. */
  function Vouches(e: Event): set<Id>
    requires e.SessionStartCall?
  {
    {LinkageOf(e.sessionId), LinkageOf(e.stamp)} - {""}
  }

  /** The connection's conversation becomes the one named, unless a stamped caller names another than it has. */
  ghost predicate Relinks(c: Conn, e: Event)
    requires e.SessionStartCall?
  {
    e.sessionId != "" && (e.stamp == "" || LinkageOf(e.sessionId) == "" || c.linked in {"", LinkageOf(e.sessionId)})
  }

  /** An accepted session_start is committed: its identity counted, its conversations declared and filed. */
  ghost predicate Commits(c: Conn, e: Event, c': Conn)
    requires e.SessionStartCall?
  {
    c' == c.(seen := c.seen + Naming(e.sessionId), declared := c.declared + Vouches(e),
             linked := if Relinks(c, e) then LinkageOf(e.sessionId) else c.linked, store := c'.store) &&
    c'.store ==
      if c.persist then
        c.store.(declared := c.store.declared + Vouches(e),
                 linkage := if Relinks(c, e) then LinkageOf(e.sessionId) else c.store.linkage)
      else c.store
  }

  lemma LinkCommits(c: Conn, stamp: Id, id: Id) returns (c1: Conn)
    requires id != ""
    ensures c1 == LinkExternal(c, stamp, id)
    ensures var l := LinkageOf(id); var relinks := stamp == "" || l == "" || c.linked in {"", l};
      c1 == c.(seen := c.seen + {id}, declared := c.declared + ({l} - {""}),
               linked := if relinks then l else c.linked,
               store := if c.persist then
                 c.store.(declared := c.store.declared + ({l} - {""}), linkage := if relinks then l else c.store.linkage)
                 else c.store)
  {
    c1 := LinkExternal(c, stamp, id);
    if LinkageOf(id) == "" {
      assert c.declared + {} == c.declared && c.store.declared + {} == c.store.declared;
    }
  }

  lemma DeclareCommits(c: Conn, id: Id) returns (c1: Conn)
    ensures c1 == Declare(c, id)
    ensures var l := {LinkageOf(id)} - {""};
      c1 == c.(declared := c.declared + l,
               store := if c.persist then c.store.(declared := c.store.declared + l) else c.store)
  {
    c1 := Declare(c, id);
    if LinkageOf(id) == "" {
      assert c.declared + {} == c.declared && c.store.declared + {} == c.store.declared;
    }
  }

  /** Linking under the name given, if one is. */
  lemma NameCommits(c: Conn, e: Event) returns (c1: Conn)
    requires e.SessionStartCall?
    ensures c1 == if e.sessionId != "" then LinkExternal(c, e.stamp, e.sessionId) else c
    ensures var l := {LinkageOf(e.sessionId)} - {""}; var now := if Relinks(c, e) then LinkageOf(e.sessionId) else c.linked;
      c1 == c.(seen := c.seen + Naming(e.sessionId), declared := c.declared + l, linked := now,
               store := if c.persist then
                 c.store.(declared := c.store.declared + l,
                          linkage := if Relinks(c, e) then LinkageOf(e.sessionId) else c.store.linkage)
                 else c.store)
  {
    if e.sessionId != "" {
      c1 := LinkCommits(c, e.stamp, e.sessionId);
    } else {
      c1 := c;
      assert c.declared + {} == c.declared && c.store.declared + {} == c.store.declared && c.seen + {} == c.seen;
    }
  }

  lemma CommitsDecided(c: Conn, e: Event, c': Conn)
    requires e.SessionStartCall?
    ensures Commits(c, e, c') <==> c' == CommitIdentity(c, e)
  {
    var c1 := NameCommits(c, e);
    var c2 := DeclareCommits(c1, e.stamp);
    hide LinkExternal;
    hide Declare;
    assert c2 == CommitIdentity(c, e) by {
      if e.stamp == "" {
        assert c1.declared + {} == c1.declared && c1.store.declared + {} == c1.store.declared;
      }
    }
    hide CommitIdentity;
    hide Relinks;
    VouchedSets(c.declared, e);
    VouchedSets(c.store.declared, e);
  }

  lemma VouchedSets(known: set<Id>, e: Event)
    requires e.SessionStartCall?
    ensures known + ({LinkageOf(e.sessionId)} - {""}) + ({LinkageOf(e.stamp)} - {""}) == known + Vouches(e)
  {
  }

  // ---- tool calls -----------------------------------------------------------------------------

  /** A state-changing call on a shared connection is turned away if nobody vouches for who makes it. */
  ghost predicate TurnedAway(c: Conn, e: Event)
    requires e.ToolCall?
  {
    e.mutating && Shares(c, e.stamp) &&
    (e.stamp == "" ||
     (LinkageOf(e.stamp) !in c.declared && exists x :: x in c.seen && LinkageOf(x) != LinkageOf(e.stamp)))
  }

  lemma RefusedTurnedAway(c: Conn, e: Event)
    requires e.ToolCall?
    ensures RefusedCall(c, e) <==> TurnedAway(c, e)
  {
    Admission.AdmittedExactly(c, e.stamp);
  }

  /** A workspace argument declares; a path the call merely touches seeds. */
  ghost predicate CallAttaches(c: Conn, fs: Fs, e: Event, c': Conn)
    requires e.ToolCall?
  {
    if e.explicit then DeclaredBy(c, fs, e.stamp, e.seed, c') else SeededBy(c, fs, e.seed, c')
  }

  lemma SeedsDecided(c: Conn, fs: Fs, seed: Path, c': Conn)
    ensures SeededBy(c, fs, seed, c') <==> c' == SeedFromCall(c, fs, seed)
  {
    CallSeeds(c, fs, seed);
    hide SeedFromCall;
    if SeededBy(c, fs, seed, c') {
      SeededOnce(c, fs, seed, c', SeedFromCall(c, fs, seed));
    }
  }

  lemma AttachesDecided(c: Conn, fs: Fs, e: Event, c': Conn)
    requires e.ToolCall?
    ensures CallAttaches(c, fs, e, c') <==> c' == AttachForCall(c, fs, e)
  {
    hide SeededBy;
    hide DeclaredBy;
    hide SeedFromCall;
    hide AttachDeclared;
    SeedsDecided(c, fs, e.seed, c');
    CallDeclares(c, fs, e.stamp, e.seed, c');
  }

  /** The call goes through these states: its caller counted, an unattached connection attached, a shard found. */
  ghost predicate ToolCallVia(c: Conn, fs: Fs, e: Event, c1: Conn, c2: Conn, c3: Conn, c': Conn)
    requires e.ToolCall?
  {
    Precedes(c, e.stamp, e.marker, c1) && CallAttaches(c1, fs, e, c2) &&
    (if e.resolves then Resolves(c2, fs, e.stamp, c3) else c3 == c2) &&
    (if e.identifies then Identifies(c3, fs, e.stamp, c') else c' == c3)
  }

  /** A call turned away leaves no trace. */
  ghost predicate ToolCallComesTo(c: Conn, fs: Fs, e: Event, c': Conn)
    requires e.ToolCall?
  {
    if TurnedAway(c, e) then c' == c else exists c1, c2, c3 :: ToolCallVia(c, fs, e, c1, c2, c3, c')
  }

  lemma ToolCallPath(c: Conn, fs: Fs, e: Event, c1: Conn, c2: Conn, c3: Conn, c': Conn)
    requires e.ToolCall?
    ensures ToolCallVia(c, fs, e, c1, c2, c3, c') <==>
      c1 == BeforeTool(c, e.stamp, e.marker) && c2 == AttachForCall(c1, fs, e) &&
      c3 == (if e.resolves then Orient(c2, fs, e.stamp) else c2) &&
      c' == (if e.identifies then Identify(c3, fs, e.stamp) else c3)
  {
    PrecedesDecided(c, e.stamp, e.marker, c1);
    AttachesDecided(c1, fs, e, c2);
    OrientResolves(c2, fs, e.stamp, c3);
    IdentifyIdentifies(c3, fs, e.stamp, c');
    hide Precedes;
    hide CallAttaches;
    hide Resolves;
    hide Identifies;
    hide BeforeTool;
    hide AttachForCall;
    hide Orient;
    hide Identify;
  }

  lemma ToolCallDecided(c: Conn, fs: Fs, e: Event, c': Conn)
    requires e.ToolCall?
    ensures ToolCallComesTo(c, fs, e, c') <==> c' == ToolCallStep(c, fs, e)
  {
    RefusedTurnedAway(c, e);
    hide ToolCallVia;
    hide BeforeTool;
    hide AttachForCall;
    hide Orient;
    hide Identify;
    hide TurnedAway;
    hide RefusedCall;
    var c1 := BeforeTool(c, e.stamp, e.marker);
    var c2 := AttachForCall(c1, fs, e);
    ToolCallPath(c, fs, e, c1, c2, if e.resolves then Orient(c2, fs, e.stamp) else c2, c');
    if d1, d2, d3 :| ToolCallVia(c, fs, e, d1, d2, d3, c') {
      ToolCallPath(c, fs, e, d1, d2, d3, c');
    }
  }

  // ---- session_start --------------------------------------------------------------------------

  /** What it attaches before it runs: without a workspace what any call would, with one only for a nameless caller. */
  ghost predicate Prepares(c: Conn, fs: Fs, e: Event, id: Id, c': Conn)
    requires e.SessionStartCall?
  {
    if e.workspace == "" then SeededBy(c, fs, "", c') else DeclaredBy(c, fs, id, e.workspace, c')
  }

  /** The re-pin it asks for, if any: the whole connection's, or the caller's own. */
  ghost predicate Asks(c: Conn, fs: Fs, e: Event, id: Id, c': Conn, out: Outcome)
    requires e.SessionStartCall?
  {
    if e.workspace == "" then c' == c && out == AgentScope("")
    else if e.connScope then ScopeComesTo(c, fs, id, e.workspace, e.force, c', out)
    else RepinComesTo(c, fs, id, false, e.workspace, SessionStart, Live, e.force, c', out)
  }

  /**
   The call goes through these states. Its caller is the stamped one or, unstamped, the one it names, and is
   committed only if it succeeds.
   */
  ghost predicate SessionStartVia(c: Conn, fs: Fs, e: Event, c1: Conn, c2: Conn, c3: Conn, c4: Conn, out: Outcome,
                                  c': Conn)
    requires e.SessionStartCall?
  {
    var id := if e.stamp == "" then e.sessionId else e.stamp;
    Precedes(c, e.stamp, e.marker, c1) && Prepares(c1, fs, e, id, c2) && Resolves(c2, fs, id, c3) &&
    Asks(c3, fs, e, id, c4, out) && (if e.valid && out != Failed then Commits(c4, e, c') else c' == c4)
  }

  ghost predicate SessionStartComesTo(c: Conn, fs: Fs, e: Event, c': Conn)
    requires e.SessionStartCall?
  {
    exists c1, c2, c3, c4, out :: SessionStartVia(c, fs, e, c1, c2, c3, c4, out, c')
  }

  lemma PreparesDecided(c: Conn, fs: Fs, e: Event, c': Conn, c2: Conn)
    requires e.SessionStartCall? && Precedes(c, e.stamp, e.marker, c')
    ensures Prepares(c', fs, e, CallerOf(e), c2) <==> c2 == BeforeSessionStart(c, fs, e)
  {
    PrecedesDecided(c, e.stamp, e.marker, c');
    hide BeforeTool;
    SeedsDecided(c', fs, "", c2);
    CallDeclares(c', fs, CallerOf(e), e.workspace, c2);
    AttachedStays(c', fs, e.workspace, CallerOf(e));
    hide SeededBy;
    hide DeclaredBy;
    hide SeedFromCall;
    hide AttachDeclared;
  }

  lemma AttachedStays(c: Conn, fs: Fs, workspace: Path, id: Id)
    ensures c.pin.root != "" ==> SeedFromCall(c, fs, "") == c && AttachDeclared(c, fs, id, workspace) == c
  {
  }

  lemma AsksDecided(c: Conn, fs: Fs, e: Event, c': Conn, out: Outcome)
    requires e.SessionStartCall?
    ensures Asks(c, fs, e, CallerOf(e), c', out) <==> (c', out) == RepinWorkspace(c, fs, e)
  {
    hide ScopeComesTo;
    hide RepinComesTo;
    hide RepinConnection;
    hide RepinFrom;
    ScopeDecided(c, fs, CallerOf(e), e.workspace, e.force, c', out);
    RepinDecided(c, fs, CallerOf(e), false, e.workspace, SessionStart, Live, e.force, c', out);
  }

  lemma SessionStartPath(c: Conn, fs: Fs, e: Event, c1: Conn, c2: Conn, c3: Conn, c4: Conn, out: Outcome, c': Conn)
    requires e.SessionStartCall?
    ensures SessionStartVia(c, fs, e, c1, c2, c3, c4, out, c') <==>
      c1 == BeforeTool(c, e.stamp, e.marker) && c2 == BeforeSessionStart(c, fs, e) && c3 == Orient(c2, fs, CallerOf(e)) &&
      (c4, out) == RepinWorkspace(c3, fs, e) && c' == (if e.valid && out != Failed then CommitIdentity(c4, e) else c4)
  {
    PrecedesDecided(c, e.stamp, e.marker, c1);
    if Precedes(c, e.stamp, e.marker, c1) {
      PreparesDecided(c, fs, e, c1, c2);
    }
    OrientResolves(c2, fs, CallerOf(e), c3);
    AsksDecided(c3, fs, e, c4, out);
    CommitsDecided(c4, e, c');
    hide Precedes;
    hide Prepares;
    hide Resolves;
    hide Asks;
    hide Commits;
    hide BeforeTool;
    hide BeforeSessionStart;
    hide Orient;
    hide RepinWorkspace;
    hide CommitIdentity;
  }

  lemma SessionStartDecided(c: Conn, fs: Fs, e: Event, c': Conn)
    requires e.SessionStartCall?
    ensures SessionStartComesTo(c, fs, e, c') <==> c' == SessionStartStep(c, fs, e)
  {
    hide SessionStartVia;
    hide BeforeTool;
    hide BeforeSessionStart;
    hide Orient;
    hide RepinWorkspace;
    hide CommitIdentity;
    var c2 := BeforeSessionStart(c, fs, e);
    var c3 := Orient(c2, fs, CallerOf(e));
    var (c4, out) := RepinWorkspace(c3, fs, e);
    SessionStartPath(c, fs, e, BeforeTool(c, e.stamp, e.marker), c2, c3, c4, out, c');
    if d1, d2, d3, d4, o :| SessionStartVia(c, fs, e, d1, d2, d3, d4, o, c') {
      SessionStartPath(c, fs, e, d1, d2, d3, d4, o, c');
    }
  }

  // ---- any event ------------------------------------------------------------------------------

  ghost predicate ComesTo(c: Conn, fs: Fs, e: Event, c': Conn) {
    match e
    case SessionStartCall(_, _, _, _, _, _, _) => SessionStartComesTo(c, fs, e, c')
    case ToolCall(_, _, _, _, _, _, _) => ToolCallComesTo(c, fs, e, c')
    case RootsChanged(folders) => RootsComeTo(c, fs, folders, c')
    case Restart(_, _, _, _, _) => RestartComesTo(c, fs, e, c')
  }

  /** Every event comes to this and to nothing else. */
  lemma EventDecided(c: Conn, fs: Fs, e: Event, c': Conn)
    ensures ComesTo(c, fs, e, c') <==> c' == Step(c, fs, e)
  {
    hide SessionStartStep;
    hide ToolCallStep;
    hide RootsChangedStep;
    hide RestartStep;
    hide SessionStartComesTo;
    hide ToolCallComesTo;
    hide RootsComeTo;
    hide RestartComesTo;
    match e
    case SessionStartCall(_, _, _, _, _, _, _) => SessionStartDecided(c, fs, e, c');
    case ToolCall(_, _, _, _, _, _, _) => ToolCallDecided(c, fs, e, c');
    case RootsChanged(folders) => RootsDecided(c, fs, folders, c');
    case Restart(_, _, _, _, _) => RestartDecided(c, fs, e, c');
  }
}
