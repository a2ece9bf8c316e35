/**
 Non-interference: on a connection two conversations already share, or two identities if the conversation is
 declared, what its agents resolve against and may change does not depend on any other conversation's
 agent-scoped session_starts.
 */
module NonInterference {
  import opened Ids
  import opened ConnSpec
  import opened ConnFrames
  import opened Projection
  import opened Counting
  import Admission

  /** An agent-scoped session_start by an agent of some other conversation. */
  predicate Foreign(e: Event, conv: Id) {
    e.SessionStartCall? && !e.connScope && CallerOf(e) != "" && LinkageOf(CallerOf(e)) != conv
  }

  /** It declares conversation conv all the same, by naming one of conv's identities as its session_id. */
  predicate Impersonates(e: Event, conv: Id) {
    Foreign(e, conv) && LinkageOf(e.sessionId) == conv
  }

  // ---- identity bookkeeping -----------------------------------------------------------------

  lemma RecordOwn(c: Conn, conv: Id, id: Id)
    requires conv != ""
    ensures Own(RecordAgent(c, id), conv) == Own(c, conv)
    ensures Own(Declare(c, id), conv) == Own(c, conv).(declared := Own(c, conv).declared + {LinkageOf(id)} * {conv})
  {
  }

  lemma BeforeToolOwn(c: Conn, conv: Id, stamp: Id, marker: bool)
    requires conv != "" && Guarded(c, conv)
    ensures Alike(BeforeTool(c, stamp, marker), c, conv)
    ensures Guarded(BeforeTool(c, stamp, marker), conv)
    ensures BeforeTool(c, stamp, marker).pin == c.pin
  {
    BeforeToolFrame(c, stamp, marker);
    GuardedGrows(c, BeforeTool(c, stamp, marker), conv);
    if HandsOver(c, stamp, marker) {
      assert conv in c.declared by {
        if TwoConversations(c.seen) {
          SharedByTwo(c.seen, stamp, c.linked);
        }
      }
      LinkedOwn(c, conv, stamp);
    }
  }

  lemma GuardedGrows(c: Conn, c': Conn, conv: Id)
    requires Guarded(c, conv) && c.seen <= c'.seen && c.declared <= c'.declared
    ensures Guarded(c', conv)
  {
    SubsetSize(c.seen, c'.seen);
  }

  lemma LinkedOwn(c: Conn, conv: Id, stamp: Id)
    requires conv != "" && conv in c.declared
    ensures Alike(RelinkTo(c, stamp), c, conv)
  {
    RecordAttachOwn(c.(linked := LinkageOf(stamp)), conv, stamp);
    assert Own(c, conv).declared + {LinkageOf(stamp)} * {conv} == Own(c, conv).declared;
  }

  lemma LinkOwn(c: Conn, conv: Id, stamp: Id, id: Id)
    requires conv != ""
    ensures Own(LinkExternal(c, stamp, id), conv) ==
      Own(c, conv).(declared := Own(c, conv).declared + {LinkageOf(id)} * {conv})
  {
    RecordAttachOwn(c, conv, id);
    RecordAttachOwn(c.(linked := LinkageOf(id)), conv, id);
  }

  lemma RecordAttachOwn(c: Conn, conv: Id, id: Id)
    requires conv != ""
    ensures Own(RecordAttach(c, id), conv) ==
      Own(c, conv).(declared := Own(c, conv).declared + {LinkageOf(id)} * {conv})
  {
  }

  lemma CommitOwn(c: Conn, conv: Id, e: Event)
    requires conv != "" && e.SessionStartCall?
    ensures Own(CommitIdentity(c, e), conv) == Own(c, conv).(
      declared := Own(c, conv).declared + {LinkageOf(e.sessionId), LinkageOf(e.stamp)} * {conv})
  {
    var c1 := if e.sessionId != "" then LinkExternal(c, e.stamp, e.sessionId) else c;
    LinkOwn(c, conv, e.stamp, e.sessionId);
    var d := Own(c, conv).declared;
    assert {LinkageOf("")} * {conv} == {};
    assert d + {} == d;
    assert Own(c1, conv) == Own(c, conv).(declared := d + {LinkageOf(e.sessionId)} * {conv});
    RecordOwn(c1, conv, e.stamp);
    assert d + {LinkageOf(e.sessionId)} * {conv} + {LinkageOf(e.stamp)} * {conv} ==
      d + {LinkageOf(e.sessionId), LinkageOf(e.stamp)} * {conv};
  }

  // ---- one event ------------------------------------------------------------------------------

  lemma StaysGuarded(c: Conn, fs: Fs, e: Event, conv: Id)
    requires Guarded(c, conv) && c.pin.root != "" && !e.Restart?
    ensures Guarded(Step(c, fs, e), conv) && Step(c, fs, e).pin.root != ""
  {
    Admission.IdentitiesGrow(c, fs, e);
    GuardedGrows(c, Step(c, fs, e), conv);
    StaysAttached(c, fs, e);
  }

  lemma StaysAttached(c: Conn, fs: Fs, e: Event)
    requires c.pin.root != "" && !e.Restart?
    ensures Step(c, fs, e).pin.root != ""
  {
    match e
    case SessionStartCall(_, _, _, _, _, _, _) =>
      BeforeToolFrame(c, e.stamp, e.marker);
      BeforeSessionStartFrame(c, fs, e);
      var c1 := BeforeSessionStart(c, fs, e);
      OrientFrame(c1, fs, CallerOf(e));
      RepinWorkspaceFrame(Orient(c1, fs, CallerOf(e)), fs, e);
      CommitIdentityFrame(Repinned(c, fs, e).0, e);
    case ToolCall(_, _, _, _, _, _, _) =>
      var c0 := BeforeTool(c, e.stamp, e.marker);
      BeforeToolFrame(c, e.stamp, e.marker);
      AttachForCallFrame(c0, fs, e);
      OrientFrame(c0, fs, e.stamp);
      ShardOfFrame(if e.resolves then Orient(c0, fs, e.stamp) else c0, fs, e.stamp);
    case RootsChanged(folders) =>
      if folders != [] {
        RepinFromFrame(c, fs, "", false, folders[0], Roots, Live, false);
      }
  }

  /** Where a retained session_start leaves two look-alike states, and that it comes to the same. */
  lemma RepinnedTogether(s: Conn, t: Conn, fs: Fs, conv: Id, e: Event)
    requires Twins(s, t, conv) && e.SessionStartCall? && !Foreign(e, conv)
    ensures Alike(Repinned(s, fs, e).0, Repinned(t, fs, e).0, conv)
    ensures Succeeds(s, fs, e) == Succeeds(t, fs, e)
  {
    var id := CallerOf(e);
    BeforeToolOwn(s, conv, e.stamp, e.marker);
    BeforeToolOwn(t, conv, e.stamp, e.marker);
    var s1 := BeforeTool(s, e.stamp, e.marker);
    var t1 := BeforeTool(t, e.stamp, e.marker);
    assert BeforeSessionStart(s, fs, e) == s1 && BeforeSessionStart(t, fs, e) == t1;
    GuardedIsShared(s1, conv);
    GuardedIsShared(t1, conv);
    OrientTogether(s1, t1, fs, conv, id);
    OrientFrame(s1, fs, id);
    OrientFrame(t1, fs, id);
    RepinWorkspaceTogether(Orient(s1, fs, id), Orient(t1, fs, id), fs, conv, e);
  }

  lemma RepinWorkspaceTogether(s: Conn, t: Conn, fs: Fs, conv: Id, e: Event)
    requires Twins(s, t, conv) && e.SessionStartCall? && !Foreign(e, conv)
    ensures Alike(RepinWorkspace(s, fs, e).0, RepinWorkspace(t, fs, e).0, conv)
    ensures RepinWorkspace(s, fs, e).1 == RepinWorkspace(t, fs, e).1
  {
    if e.workspace != "" {
      if e.connScope {
        RepinConnectionTogether(s, t, fs, conv, CallerOf(e), e.workspace, e.force);
      } else {
        RepinFromTogether(s, t, fs, conv, CallerOf(e), false, e.workspace, SessionStart, e.force);
      }
    }
  }

  lemma SessionStartTogether(s: Conn, t: Conn, fs: Fs, conv: Id, e: Event)
    requires Twins(s, t, conv) && e.SessionStartCall? && !Foreign(e, conv)
    ensures Alike(SessionStartStep(s, fs, e), SessionStartStep(t, fs, e), conv)
  {
    RepinnedTogether(s, t, fs, conv, e);
    CommitOwn(Repinned(s, fs, e).0, conv, e);
    CommitOwn(Repinned(t, fs, e).0, conv, e);
  }

  lemma ForeignRepinUnseen(c: Conn, fs: Fs, conv: Id, e: Event)
    requires conv != "" && Guarded(c, conv) && c.pin.root != "" && Foreign(e, conv)
    ensures Alike(Repinned(c, fs, e).0, c, conv)
  {
    var id := CallerOf(e);
    BeforeToolOwn(c, conv, e.stamp, e.marker);
    var c1 := BeforeTool(c, e.stamp, e.marker);
    assert BeforeSessionStart(c, fs, e) == c1;
    OrientOther(c1, fs, conv, id);
    OrientFrame(c1, fs, id);
    GuardedIsShared(c1, conv);
    if e.workspace != "" {
      RepinFromOther(Orient(c1, fs, id), fs, conv, id, e.workspace, e.force);
    }
  }

  /** Another conversation's agent-scoped session_start leaves conv nothing to see. */
  lemma ForeignUnseen(c: Conn, fs: Fs, conv: Id, e: Event)
    requires conv != "" && Guarded(c, conv) && c.pin.root != ""
    requires Foreign(e, conv) && (Impersonates(e, conv) ==> conv in c.declared)
    ensures Alike(SessionStartStep(c, fs, e), c, conv)
  {
    ForeignRepinUnseen(c, fs, conv, e);
    var c3 := Repinned(c, fs, e).0;
    CommitOwn(c3, conv, e);
    assert Own(c3, conv).declared == Own(c, conv).declared;
    assert Own(c3, conv).declared + {LinkageOf(e.sessionId), LinkageOf(e.stamp)} * {conv} == Own(c3, conv).declared;
  }

  lemma ToolCallOther(c: Conn, fs: Fs, conv: Id, e: Event)
    requires conv != "" && Guarded(c, conv) && c.pin.root != ""
    requires e.ToolCall? && LinkageOf(e.stamp) != conv
    ensures Alike(ToolCallStep(c, fs, e), c, conv)
  {
    if !RefusedCall(c, e) {
      BeforeToolOwn(c, conv, e.stamp, e.marker);
      var c1 := BeforeTool(c, e.stamp, e.marker);
      OrientOther(c1, fs, conv, e.stamp);
      var c2 := if e.resolves then Orient(c1, fs, e.stamp) else c1;
      ShardOfOther(c2, fs, conv, e.stamp);
    }
  }

  lemma ToolCallOwn(s: Conn, t: Conn, fs: Fs, conv: Id, e: Event)
    requires Twins(s, t, conv) && e.ToolCall? && LinkageOf(e.stamp) == conv
    ensures Alike(ToolCallStep(s, fs, e), ToolCallStep(t, fs, e), conv)
  {
    SameAdmission(s, t, conv, e.stamp);
    if !RefusedCall(s, e) {
      BeforeToolOwn(s, conv, e.stamp, e.marker);
      BeforeToolOwn(t, conv, e.stamp, e.marker);
      var s1 := BeforeTool(s, e.stamp, e.marker);
      var t1 := BeforeTool(t, e.stamp, e.marker);
      GuardedIsShared(s1, conv);
      GuardedIsShared(t1, conv);
      OrientTogether(s1, t1, fs, conv, e.stamp);
      OrientFrame(s1, fs, e.stamp);
      OrientFrame(t1, fs, e.stamp);
      var s2 := if e.resolves then Orient(s1, fs, e.stamp) else s1;
      var t2 := if e.resolves then Orient(t1, fs, e.stamp) else t1;
      IdentifyTogether(s2, t2, fs, conv, e.stamp);
    }
  }

  lemma IdentifyTogether(s: Conn, t: Conn, fs: Fs, conv: Id, id: Id)
    requires Twins(s, t, conv) && LinkageOf(id) == conv
    ensures Alike(Identify(s, fs, id), Identify(t, fs, id), conv)
  {
    TwinsShared(s, t, conv, id);
    ShardOfOwn(s, fs, conv, id);
    ShardOfOwn(t, fs, conv, id);
  }

  lemma SameAdmission(s: Conn, t: Conn, conv: Id, id: Id)
    requires Twins(s, t, conv) && LinkageOf(id) == conv
    ensures RefusalOf(s, id) == RefusalOf(t, id)
  {
    assert conv in s.declared <==> conv in Own(s, conv).declared;
    assert conv in t.declared <==> conv in Own(t, conv).declared;
    TwinsShared(s, t, conv, id);
    if conv !in s.declared {
      SharedByTwo(s.seen, id, conv);
      SharedByTwo(t.seen, id, conv);
    }
  }

  lemma RootsChangedTogether(s: Conn, t: Conn, fs: Fs, conv: Id, folders: seq<Path>)
    requires Twins(s, t, conv)
    ensures Alike(RootsChangedStep(s, fs, folders), RootsChangedStep(t, fs, folders), conv)
  {
    TwinsShared(s, t, conv, "");
    if folders != [] {
      RepinFromTogether(s, t, fs, conv, "", false, folders[0], Roots, false);
    }
  }

  lemma StepTogether(s: Conn, t: Conn, fs: Fs, conv: Id, e: Event)
    requires Twins(s, t, conv) && !e.Restart? && !Foreign(e, conv)
    ensures Twins(Step(s, fs, e), Step(t, fs, e), conv)
  {
    StaysGuarded(s, fs, e, conv);
    TwinsShared(s, t, conv, "");
    StaysGuarded(t, fs, e, conv);
    match e
    case SessionStartCall(_, _, _, _, _, _, _) => SessionStartTogether(s, t, fs, conv, e);
    case ToolCall(_, _, _, _, _, _, _) =>
      if LinkageOf(e.stamp) == conv {
        ToolCallOwn(s, t, fs, conv, e);
      } else {
        ToolCallOther(s, fs, conv, e);
        ToolCallOther(t, fs, conv, e);
      }
    case RootsChanged(folders) => RootsChangedTogether(s, t, fs, conv, folders);
  }

  // ---- runs -----------------------------------------------------------------------------------

  /** The run without the other conversations' agent-scoped session_starts. */
  function Erase(run: seq<Event>, conv: Id): seq<Event> {
    if run == [] then []
    else
      var kept := Erase(run[..|run| - 1], conv);
      if Foreign(run[|run| - 1], conv) then kept else kept + [run[|run| - 1]]
  }

  lemma EraseSnoc(run: seq<Event>, e: Event, conv: Id)
    ensures Erase(run + [e], conv) == Erase(run, conv) + if Foreign(e, conv) then [] else [e]
  {
    assert (run + [e])[..|run|] == run;
  }

  /** No restart, and nobody else declares conv before conv is declared. */
  predicate Undisturbed(c: Conn, fs: Fs, run: seq<Event>, conv: Id) {
    forall i :: 0 <= i < |run| ==>
      !run[i].Restart? && (Impersonates(run[i], conv) ==> conv in Exec(c, fs, run[..i]).declared)
  }

  lemma UndisturbedBefore(c: Conn, fs: Fs, run: seq<Event>, conv: Id)
    requires Undisturbed(c, fs, run, conv) && run != []
    ensures var last := |run| - 1;
      Undisturbed(c, fs, run[..last], conv) && !run[last].Restart? &&
      (Impersonates(run[last], conv) ==> conv in Exec(c, fs, run[..last]).declared)
  {
    var last := |run| - 1;
    forall i | 0 <= i < last
      ensures !run[..last][i].Restart? &&
        (Impersonates(run[..last][i], conv) ==> conv in Exec(c, fs, run[..last][..i]).declared)
    {
      assert run[..last][..i] == run[..i];
    }
  }

  lemma {:induction false} RunTogether(c: Conn, fs: Fs, run: seq<Event>, conv: Id)
    requires Twins(c, c, conv) && Undisturbed(c, fs, run, conv)
    ensures Twins(Exec(c, fs, run), Exec(c, fs, Erase(run, conv)), conv)
  {
    if run == [] {
    } else {
      var before := run[..|run| - 1];
      var e := run[|run| - 1];
      UndisturbedBefore(c, fs, run, conv);
      RunTogether(c, fs, before, conv);
      var s := Exec(c, fs, before);
      var t := Exec(c, fs, Erase(before, conv));
      if Foreign(e, conv) {
        ForeignUnseen(s, fs, conv, e);
        StaysGuarded(s, fs, e, conv);
      } else {
        StepTogether(s, t, fs, conv, e);
        var kept := Erase(before, conv) + [e];
        assert kept[..|kept| - 1] == Erase(before, conv);
      }
    }
  }

  /** What an agent can tell: where its calls resolve, its refused declaration, and what it may change. */
  predicate SameSight(s: Conn, t: Conn, fs: Fs, id: Id) {
    WorkspaceFor(s, fs, id) == WorkspaceFor(t, fs, id) && (id in s.refused) == (id in t.refused) &&
    (id in s.refused ==> s.refused[id] == t.refused[id]) && RefusalOf(s, id) == RefusalOf(t, id)
  }

  lemma TwinsResolveAlike(s: Conn, t: Conn, fs: Fs, conv: Id, id: Id)
    requires Twins(s, t, conv) && LinkageOf(id) == conv
    ensures WorkspaceFor(s, fs, id) == WorkspaceFor(t, fs, id)
    ensures (id in s.refused) == (id in t.refused)
    ensures id in s.refused ==> s.refused[id] == t.refused[id]
  {
    TwinsShared(s, t, conv, id);
    PendingOwn(s, conv, id);
    PendingOwn(t, conv, id);
    SeedOwn(s, fs, conv, id);
    SeedOwn(t, fs, conv, id);
    PartAt(s.shards, conv, id);
    PartAt(t.shards, conv, id);
    PartAt(s.refused, conv, id);
    PartAt(t.refused, conv, id);
  }

  lemma PartAt<V>(m: map<Id, V>, conv: Id, id: Id)
    requires LinkageOf(id) == conv
    ensures (id in m) == (id in Part(m, conv))
    ensures id in m ==> m[id] == Part(m, conv)[id]
  {
  }

  /**
   Non-interference over any run of an attached connection that guards conv: erasing every agent-scoped
   session_start of other conversations leaves the root each agent of conv resolves against, the
   refused-declaration marker it carries, and whether its state-changing calls are admitted, exactly as they
   were. The run is arbitrary, so this holds after every one of its steps.
   */
  lemma ErasingOthersChangesNothing(c: Conn, fs: Fs, run: seq<Event>, conv: Id, id: Id)
    requires conv != "" && LinkageOf(id) == conv
    requires Guarded(c, conv) && c.pin.root != "" && Undisturbed(c, fs, run, conv)
    ensures SameSight(Exec(c, fs, run), Exec(c, fs, Erase(run, conv)), fs, id)
  {
    RunTogether(c, fs, run, conv);
    var full, erased := Exec(c, fs, run), Exec(c, fs, Erase(run, conv));
    TwinsResolveAlike(full, erased, fs, conv, id);
    SameAdmission(full, erased, conv, id);
  }
}
