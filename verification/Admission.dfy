/**
 The fail-closed ceiling over runs: which state-changing calls a shared connection admits, and where the
 declarations that admit them come from.
 */
module Admission {
  import opened Ids
  import opened ConnSpec
  import opened ConnFrames
  import opened Counting

  /** Shared means: counting the caller, more than one identity. */
  lemma SharedWithCounts(seen: set<Id>, id: Id)
    ensures SharedWith(seen, id) <==> |seen + if id == "" then {} else {id}| > 1
  {
    if id != "" && id !in seen {
      assert |seen + {id}| == |seen| + 1;
    } else {
      assert seen + (if id == "" then {} else {id}) == seen;
    }
  }

  /** Exactly the calls the ceiling lets through. */
  lemma AdmittedExactly(c: Conn, id: Id)
    ensures RefusalOf(c, id) == NotRefused <==>
      |c.seen + if id == "" then {} else {id}| <= 1 ||
      (id != "" && (LinkageOf(id) in c.declared || forall other :: other in c.seen ==> LinkageOf(other) == LinkageOf(id)))
  {
    SharedWithCounts(c.seen, id);
  }

  /** The linkages one event declares: those of a session_start that succeeds, and a /clear handover's. */
  function NewlyDeclared(c: Conn, fs: Fs, e: Event): set<Id> {
    if e.SessionStartCall? then
      (if Succeeds(c, fs, e) then {LinkageOf(e.sessionId), LinkageOf(e.stamp)} - {""} else {}) +
      (if HandsOver(c, e.stamp, e.marker) then {e.stamp} else {})
    else if e.ToolCall? && !RefusedCall(c, e) && HandsOver(c, e.stamp, e.marker) then {e.stamp}
    else {}
  }

  /** Everything declared over a run. */
  function DeclaredOver(c: Conn, fs: Fs, run: seq<Event>): set<Id> {
    if run == [] then {}
    else
      var before := run[..|run| - 1];
      DeclaredOver(c, fs, before) + NewlyDeclared(Exec(c, fs, before), fs, run[|run| - 1])
  }

  /** The evidence a connection holds, in memory and durably, that some conversation declared itself. */
  predicate Vouched(c: Conn, known: set<Id>) {
    c.declared <= known && c.store.declared <= known && (c.store.linkage != "" ==> c.store.linkage in known) &&
    (c.linked != "" ==> c.linked in known) && (forall l :: l in known ==> LinkageOf(l) == l)
  }

  /** Identities, declarations and linkage are the business of the identity channel alone. */
  predicate SameEvidence(c: Conn, c': Conn) {
    c'.declared == c.declared && c'.store.declared == c.store.declared &&
    c'.store.linkage == c.store.linkage && c'.linked == c.linked && c'.seen == c.seen
  }

  /** One more linkage may have been declared, and the connection may have been linked to it. */
  predicate AddsLinkage(c: Conn, c': Conn, linkage: Id) {
    c'.declared <= c.declared + ({linkage} - {""}) && c'.store.declared <= c.store.declared + ({linkage} - {""}) &&
    (c'.linked == c.linked || c'.linked == linkage) &&
    (c'.store.linkage == c.store.linkage || c'.store.linkage == linkage)
  }

  lemma AddsVouched(c: Conn, c': Conn, linkage: Id, known: set<Id>)
    requires Vouched(c, known) && AddsLinkage(c, c', linkage) && (linkage == "" || linkage in known)
    ensures Vouched(c', known)
  {
  }

  lemma RelinkAdds(c: Conn, id: Id)
    ensures AddsLinkage(c, RelinkTo(c, id), LinkageOf(id)) && AddsLinkage(c, RecordAttach(c, id), LinkageOf(id))
  {
  }

  lemma DeclareAdds(c: Conn, id: Id)
    ensures AddsLinkage(c, Declare(c, id), LinkageOf(id))
  {
  }

  lemma CommitVouched(c: Conn, e: Event, known: set<Id>)
    requires e.SessionStartCall? && Vouched(c, known)
    requires {LinkageOf(e.sessionId), LinkageOf(e.stamp)} - {""} <= known
    ensures Vouched(CommitIdentity(c, e), known)
  {
    var c1 := if e.sessionId != "" then LinkExternal(c, e.stamp, e.sessionId) else c;
    RelinkAdds(c, e.sessionId);
    assert AddsLinkage(c, c1, LinkageOf(e.sessionId));
    AddsVouched(c, c1, LinkageOf(e.sessionId), known);
    DeclareAdds(c1, e.stamp);
    AddsVouched(c1, Declare(c1, e.stamp), LinkageOf(e.stamp), known);
  }

  lemma BeforeToolVouched(c: Conn, stamp: Id, marker: bool, known: set<Id>)
    requires Vouched(c, known)
    ensures Vouched(BeforeTool(c, stamp, marker), known + if HandsOver(c, stamp, marker) then {stamp} else {})
  {
    if HandsOver(c, stamp, marker) {
      NoSlashIsOwnLinkage(stamp);
      RelinkAdds(c, stamp);
      AddsVouched(c, RelinkTo(c, stamp), stamp, known + {stamp});
    }
  }

  lemma SessionStartEvidence(c: Conn, fs: Fs, e: Event)
    requires e.SessionStartCall?
    ensures SameEvidence(BeforeTool(c, e.stamp, e.marker), Repinned(c, fs, e).0)
  {
    var c0 := BeforeTool(c, e.stamp, e.marker);
    SeedFromCallFrame(c0, fs, "");
    FirstAttachFrame(c0, fs, fs.seedRoot(e.workspace, true), SessionStart);
    var c1 := BeforeSessionStart(c, fs, e);
    assert SameEvidence(c0, c1);
    OrientFrame(c1, fs, CallerOf(e));
    RepinWorkspaceFrame(Orient(c1, fs, CallerOf(e)), fs, e);
  }

  lemma SessionStartVouched(c: Conn, fs: Fs, e: Event, known: set<Id>)
    requires e.SessionStartCall? && Vouched(c, known)
    ensures Vouched(SessionStartStep(c, fs, e), known + NewlyDeclared(c, fs, e))
  {
    var c2 := Repinned(c, fs, e).0;
    RepinnedVouched(c, fs, e, known);
    LinkageIsConversation(e.sessionId);
    LinkageIsConversation(e.stamp);
    var handed := known + if HandsOver(c, e.stamp, e.marker) then {e.stamp} else {};
    assert known + NewlyDeclared(c, fs, e) ==
      handed + if Succeeds(c, fs, e) then {LinkageOf(e.sessionId), LinkageOf(e.stamp)} - {""} else {};
    if Succeeds(c, fs, e) {
      CommitVouched(c2, e, handed + ({LinkageOf(e.sessionId), LinkageOf(e.stamp)} - {""}));
    }
  }

  lemma RepinnedVouched(c: Conn, fs: Fs, e: Event, known: set<Id>)
    requires e.SessionStartCall? && Vouched(c, known)
    ensures Vouched(Repinned(c, fs, e).0, known + if HandsOver(c, e.stamp, e.marker) then {e.stamp} else {})
  {
    BeforeToolVouched(c, e.stamp, e.marker, known);
    SessionStartEvidence(c, fs, e);
  }

  lemma ToolCallEvidence(c: Conn, fs: Fs, e: Event)
    requires e.ToolCall? && !RefusedCall(c, e)
    ensures SameEvidence(BeforeTool(c, e.stamp, e.marker), ToolCallStep(c, fs, e))
  {
    var c0 := BeforeTool(c, e.stamp, e.marker);
    AttachForCallFrame(c0, fs, e);
    var c1 := AttachForCall(c0, fs, e);
    OrientFrame(c1, fs, e.stamp);
    ShardOfFrame(if e.resolves then Orient(c1, fs, e.stamp) else c1, fs, e.stamp);
  }

  lemma ToolCallVouched(c: Conn, fs: Fs, e: Event, known: set<Id>)
    requires e.ToolCall? && Vouched(c, known)
    ensures Vouched(ToolCallStep(c, fs, e), known + NewlyDeclared(c, fs, e))
  {
    if !RefusedCall(c, e) {
      BeforeToolVouched(c, e.stamp, e.marker, known);
      ToolCallEvidence(c, fs, e);
    }
  }

  lemma RootsChangedVouched(c: Conn, fs: Fs, folders: seq<Path>, known: set<Id>)
    requires Vouched(c, known)
    ensures Vouched(RootsChangedStep(c, fs, folders), known)
  {
    if folders != [] {
      FirstAttachFrame(c, fs, DetectedFolder(fs, folders[0]), Roots);
      RepinFromFrame(c, fs, "", false, folders[0], Roots, Live, false);
      assert SameEvidence(c, RootsChangedStep(c, fs, folders));
    }
  }

  lemma RestartVouched(c: Conn, fs: Fs, e: Event, known: set<Id>)
    requires e.Restart? && Vouched(c, known)
    ensures Vouched(RestartStep(c, fs, e), known)
  {
    RestartFrame(c, fs, e);
    var r := Reconnected(c, e);
    forall l | l in r.declared
      ensures l in known
    {
      if l != LinkageOf(c.store.linkage) {
        var row :| row in c.store.declared && row in e.keptDeclared && LinkageOf(row) == l;
        assert row in known;
      } else if c.store.linkage != "" {
        assert c.store.linkage in known;
      }
    }
    assert Vouched(r, known);
    assert SameEvidence(r, RestartStep(c, fs, e));
  }

  lemma StepVouched(c: Conn, fs: Fs, e: Event, known: set<Id>)
    requires Vouched(c, known)
    ensures Vouched(Step(c, fs, e), known + NewlyDeclared(c, fs, e))
  {
    match e
    case SessionStartCall(_, _, _, _, _, _, _) => SessionStartVouched(c, fs, e, known);
    case ToolCall(_, _, _, _, _, _, _) => ToolCallVouched(c, fs, e, known);
    case RootsChanged(folders) => RootsChangedVouched(c, fs, folders, known);
    case Restart(_, _, _, _, _) => RestartVouched(c, fs, e, known);
  }

  lemma {:induction false} RunVouched(c: Conn, fs: Fs, run: seq<Event>, known: set<Id>)
    requires Vouched(c, known)
    ensures Vouched(Exec(c, fs, run), known + DeclaredOver(c, fs, run))
  {
    if run == [] {
    } else {
      var before := run[..|run| - 1];
      RunVouched(c, fs, before, known);
      StepVouched(Exec(c, fs, before), fs, run[|run| - 1], known + DeclaredOver(c, fs, before));
      assert known + DeclaredOver(c, fs, run) ==
        known + DeclaredOver(c, fs, before) + NewlyDeclared(Exec(c, fs, before), fs, run[|run| - 1]);
    }
  }

  /**
   Admission over any run, restarts included: a state-changing call admitted on a connection shared once
   its caller is counted carries an identity whose conversation declared itself (by a session_start of
   the run that succeeded, by a /clear handover of the run, or before the run began), or every identity
   the connection has committed answers to the caller's own conversation.
   */
  lemma AdmittedIsVouched(c: Conn, fs: Fs, run: seq<Event>, known: set<Id>, e: Event)
    requires Vouched(c, known) && e.ToolCall? && e.mutating
    requires var now := Exec(c, fs, run); !RefusedCall(now, e) && SharedWith(now.seen, e.stamp)
    ensures e.stamp != ""
    ensures LinkageOf(e.stamp) in known + DeclaredOver(c, fs, run) || OneConversation(Exec(c, fs, run).seen, LinkageOf(e.stamp))
  {
    RunVouched(c, fs, run, known);
  }

  /** A refused call leaves no trace, and a connection that refuses anonymous calls keeps refusing them. */
  lemma RefusalIsInertAndStaysArmed(c: Conn, fs: Fs, e: Event)
    ensures e.ToolCall? && RefusedCall(c, e) ==> Step(c, fs, e) == c
    ensures !e.Restart? && RefusalOf(c, "") == RefusedAnonymous ==> RefusalOf(Step(c, fs, e), "") == RefusedAnonymous
  {
    IdentitiesGrow(c, fs, e);
    if !e.Restart? && RefusalOf(c, "") == RefusedAnonymous {
      SubsetSize(c.seen, Step(c, fs, e).seen);
    }
  }

  lemma IdentitiesGrow(c: Conn, fs: Fs, e: Event)
    ensures !e.Restart? ==> c.seen <= Step(c, fs, e).seen && c.declared <= Step(c, fs, e).declared
  {
    match e
    case SessionStartCall(_, _, _, _, _, _, _) =>
      BeforeToolFrame(c, e.stamp, e.marker);
      SessionStartEvidence(c, fs, e);
      CommitIdentityFrame(Repinned(c, fs, e).0, e);
    case ToolCall(_, _, _, _, _, _, _) =>
      BeforeToolFrame(c, e.stamp, e.marker);
      if !RefusedCall(c, e) {
        ToolCallEvidence(c, fs, e);
      }
    case RootsChanged(folders) =>
      if folders != [] {
        FirstAttachFrame(c, fs, DetectedFolder(fs, folders[0]), Roots);
        RepinFromFrame(c, fs, "", false, folders[0], Roots, Live, false);
      }
    case Restart(_, _, _, _, _) =>
  }

  // ---- declarations -----------------------------------------------------------------------------

  lemma LinkDeclares(c: Conn, stamp: Id, externalId: Id)
    ensures c.declared + {LinkageOf(externalId)} - {""} <= LinkExternal(c, stamp, externalId).declared
  {
  }

  lemma CommitDeclares(c: Conn, e: Event)
    requires e.SessionStartCall?
    ensures {LinkageOf(e.sessionId), LinkageOf(e.stamp)} - {""} <= CommitIdentity(c, e).declared
  {
    LinkDeclares(c, e.stamp, e.sessionId);
  }

  /** A session_start that succeeds declares the conversation it names and the one it is stamped with. */
  lemma SuccessDeclares(c: Conn, fs: Fs, e: Event, id: Id)
    requires e.SessionStartCall? && Succeeds(c, fs, e) && LinkageOf(id) in {LinkageOf(e.sessionId), LinkageOf(e.stamp)} - {""}
    ensures LinkageOf(id) in Step(c, fs, e).declared
  {
    hide Repinned;
    CommitDeclares(Repinned(c, fs, e).0, e);
  }

  /** Every declaration is on file, if rows are kept, and nothing but conversations is. */
  predicate DeclarationsFiled(c: Conn) {
    (c.persist ==> c.declared <= c.store.declared) && (forall l :: l in c.store.declared ==> LinkageOf(l) == l) &&
    (c.store.linkage != "" ==> LinkageOf(c.store.linkage) in c.store.declared + {""})
  }

  lemma DeclareFiles(c: Conn, id: Id)
    requires DeclarationsFiled(c)
    ensures DeclarationsFiled(Declare(c, id)) && DeclarationsFiled(RecordAttach(c, id)) && DeclarationsFiled(RelinkTo(c, id))
  {
    LinkageIsConversation(id);
  }

  lemma CommitFiles(c: Conn, e: Event)
    requires e.SessionStartCall? && DeclarationsFiled(c)
    ensures DeclarationsFiled(CommitIdentity(c, e))
  {
    DeclareFiles(c, e.sessionId);
    DeclareFiles(if e.sessionId != "" then LinkExternal(c, e.stamp, e.sessionId) else c, e.stamp);
  }

  lemma SameFiles(c: Conn, c': Conn)
    requires DeclarationsFiled(c) && SameEvidence(c, c') && c'.persist == c.persist
    ensures DeclarationsFiled(c')
  {
  }

  lemma SessionStartFiles(c: Conn, fs: Fs, e: Event)
    requires e.SessionStartCall? && DeclarationsFiled(c)
    ensures DeclarationsFiled(SessionStartStep(c, fs, e))
  {
    var c1 := BeforeSessionStart(c, fs, e);
    DeclareFiles(c, e.stamp);
    BeforeToolFrame(c, e.stamp, e.marker);
    BeforeSessionStartFrame(c, fs, e);
    OrientFrame(c1, fs, CallerOf(e));
    RepinWorkspaceFrame(Orient(c1, fs, CallerOf(e)), fs, e);
    SessionStartEvidence(c, fs, e);
    SameFiles(BeforeTool(c, e.stamp, e.marker), Repinned(c, fs, e).0);
    CommitFiles(Repinned(c, fs, e).0, e);
  }

  lemma StepPersist(c: Conn, fs: Fs, e: Event)
    requires e.SessionStartCall? || e.ToolCall?
    ensures Step(c, fs, e).persist == c.persist
  {
    BeforeToolFrame(c, e.stamp, e.marker);
    if e.SessionStartCall? {
      var c1 := BeforeSessionStart(c, fs, e);
      BeforeSessionStartFrame(c, fs, e);
      OrientFrame(c1, fs, CallerOf(e));
      RepinWorkspaceFrame(Orient(c1, fs, CallerOf(e)), fs, e);
      CommitIdentityFrame(Repinned(c, fs, e).0, e);
    } else {
      var c0 := BeforeTool(c, e.stamp, e.marker);
      AttachForCallFrame(c0, fs, e);
      var c1 := AttachForCall(c0, fs, e);
      OrientFrame(c1, fs, e.stamp);
      ShardOfFrame(if e.resolves then Orient(c1, fs, e.stamp) else c1, fs, e.stamp);
    }
  }

  lemma ToolCallFiles(c: Conn, fs: Fs, e: Event)
    requires e.ToolCall? && DeclarationsFiled(c)
    ensures DeclarationsFiled(ToolCallStep(c, fs, e))
  {
    if !RefusedCall(c, e) {
      var c0 := BeforeTool(c, e.stamp, e.marker);
      DeclareFiles(c, e.stamp);
      BeforeToolFrame(c, e.stamp, e.marker);
      ToolCallEvidence(c, fs, e);
      StepPersist(c, fs, e);
      SameFiles(c0, ToolCallStep(c, fs, e));
    }
  }

  lemma StepFiles(c: Conn, fs: Fs, e: Event)
    requires DeclarationsFiled(c)
    ensures DeclarationsFiled(Step(c, fs, e)) && Step(c, fs, e).persist == c.persist
  {
    match e
    case SessionStartCall(_, _, _, _, _, _, _) =>
      SessionStartFiles(c, fs, e);
      StepPersist(c, fs, e);
    case ToolCall(_, _, _, _, _, _, _) =>
      ToolCallFiles(c, fs, e);
      StepPersist(c, fs, e);
    case RootsChanged(folders) =>
      if folders != [] {
        FirstAttachFrame(c, fs, DetectedFolder(fs, folders[0]), Roots);
        RepinFromFrame(c, fs, "", false, folders[0], Roots, Live, false);
      }
    case Restart(_, _, _, _, _) => RestartFrame(c, fs, e);
  }

  /** A restart keeps a declaration exactly if it is on file and not pruned there, or is the linkage's own. */
  lemma RestartDeclares(c: Conn, fs: Fs, e: Event, linkage: Id)
    requires e.Restart? && DeclarationsFiled(c) && linkage in c.declared && LinkageOf(linkage) == linkage && linkage != ""
    ensures linkage in Step(c, fs, e).declared <==>
      c.persist && (linkage in e.keptDeclared || linkage == LinkageOf(c.store.linkage))
  {
    RestartFrame(c, fs, e);
  }

  /** A declaration lasts over any run whose restarts find rows kept and have not pruned it. */
  lemma {:induction false} DeclarationLasts(c: Conn, fs: Fs, run: seq<Event>, id: Id)
    requires id != "" && LinkageOf(id) in c.declared && LinkageOf(id) != "" && DeclarationsFiled(c)
    requires forall e :: e in run && e.Restart? ==> c.persist && LinkageOf(id) in e.keptDeclared
    ensures var c' := Exec(c, fs, run);
      DeclarationsFiled(c') && c'.persist == c.persist && LinkageOf(id) in c'.declared && RefusalOf(c', id) == NotRefused
  {
    if run == [] {
    } else {
      var before, e := run[..|run| - 1], run[|run| - 1];
      DeclarationLasts(c, fs, before, id);
      assert e in run;
      var mid := Exec(c, fs, before);
      StepFiles(mid, fs, e);
      LinkageIsConversation(id);
      if e.Restart? {
        RestartDeclares(mid, fs, e, LinkageOf(id));
      } else {
        IdentitiesGrow(mid, fs, e);
      }
    }
  }
}
