/**
 Why non-interference needs what it asks: on an attached connection whose identities answer to at most one
 conversation, another's arrival is visible to whoever is not declared, and so is a caller that declares
 somebody else.
 */
module Leaks {
  import opened Ids
  import opened ConnSpec
  import opened ConnFrames
  import opened Projection
  import opened NonInterference
  import opened Counting
  import Admission

  /** A session_start that names no workspace, by agent id and scoped to it. */
  function Arrives(id: Id): Event {
    SessionStartCall(id, "", "", false, false, false, true)
  }

  /** An unstamped session_start that declares id and asks for connection scope. */
  function Announces(id: Id): Event {
    SessionStartCall("", id, "", false, true, false, true)
  }

  /** The first call of a conversation a /clear has just opened. */
  function FirstCallAfterClear(id: Id): Event {
    ToolCall(id, false, true, "", false, false, false)
  }

  lemma {:induction false} Longer(ids: set<Id>) returns (n: nat)
    ensures forall id :: id in ids ==> |id| < n
  {
    if ids == {} {
      n := 0;
    } else {
      var id :| id in ids;
      var m := Longer(ids - {id});
      n := m + |id| + 1;
    }
  }

  /** A conversation nobody has used. */
  lemma FreshConversation(ids: set<Id>) returns (conv: Id)
    ensures conv !in ids && conv != "" && LinkageOf(conv) == conv && '/' !in conv
  {
    var n := Longer(ids);
    conv := seq(n + 1, _ => 'c');
    NoSlashIsOwnLinkage(conv);
  }

  lemma ArrivalStanding(c: Conn, fs: Fs, id: Id)
    requires c.pin.root != "" && id != "" && LinkageOf(id) == id
    ensures var c' := Step(c, fs, Arrives(id));
      c'.pin.root != "" && c'.seen == c.seen + {id} && c'.declared == c.declared + {id} && c'.linked == c.linked
  {
  }

  lemma AnnouncementStanding(c: Conn, fs: Fs, id: Id)
    requires c.pin.root != "" && id != "" && LinkageOf(id) == id
    ensures var c' := Step(c, fs, Announces(id));
      c'.pin.root != "" && c'.seen == c.seen + {id} && c'.declared == c.declared + {id} && c'.linked == id
  {
    Admission.SessionStartEvidence(c, fs, Announces(id));
    StaysAttached(c, fs, Announces(id));
  }

  lemma ClearStanding(c: Conn, fs: Fs, id: Id)
    requires c.pin.root != "" && id != "" && LinkageOf(id) == id && '/' !in id && id !in c.seen
    ensures var c' := Step(c, fs, FirstCallAfterClear(id));
      c'.seen == c.seen + {id} &&
      c'.declared == c.declared + if SoleConversationIs(c.seen, c.linked) then {id} else {}
  {
  }

  lemma ExecOne(c: Conn, fs: Fs, a: Event)
    ensures Exec(c, fs, [a]) == Step(c, fs, a)
  {
  }

  lemma ExecTwo(c: Conn, fs: Fs, a: Event, b: Event)
    ensures Exec(c, fs, [a, b]) == Step(Step(c, fs, a), fs, b)
  {
    ExecOne(c, fs, a);
    ExecSnoc(c, fs, [a], b);
    assert [a] + [b] == [a, b];
  }

  lemma ExecThree(c: Conn, fs: Fs, a: Event, b: Event, d: Event)
    ensures Exec(c, fs, [a, b, d]) == Exec(Step(c, fs, a), fs, [b, d])
  {
    ExecTwo(c, fs, a, b);
    ExecSnoc(c, fs, [a, b], d);
    assert [a, b] + [d] == [a, b, d];
    ExecTwo(Step(c, fs, a), fs, b, d);
  }

  lemma EraseThree(a: Event, b: Event, d: Event, conv: Id)
    requires Foreign(a, conv) && !Foreign(b, conv) && !Foreign(d, conv)
    ensures Erase([a, b, d], conv) == [b, d]
  {
    EraseSnoc([], a, conv);
    assert [] + [a] == [a];
    EraseSnoc([a], b, conv);
    assert [a] + [b] == [a, b];
    EraseSnoc([a, b], d, conv);
    assert [a, b] + [d] == [a, b, d];
  }

  /** A /clear hands the connection over exactly while one conversation holds it alone. */
  lemma ClearAdmits(c: Conn, fs: Fs, home: Id, conv: Id)
    requires c.pin.root != "" && home != "" && LinkageOf(home) == home
    requires conv !in c.seen + c.declared + {home, ""} && LinkageOf(conv) == conv && '/' !in conv
    ensures var end := Exec(c, fs, [Announces(home), FirstCallAfterClear(conv)]);
      RefusalOf(end, conv) == if OneConversation(c.seen, home) then NotRefused else RefusedUndeclared
  {
    var c1 := Step(c, fs, Announces(home));
    AnnouncementStanding(c, fs, home);
    ClearStanding(c1, fs, conv);
    ExecTwo(c, fs, Announces(home), FirstCallAfterClear(conv));
    var end := Step(c1, fs, FirstCallAfterClear(conv));
    assert {home, conv} <= end.seen && LinkageOf(home) != LinkageOf(conv);
    SharedByTwo(end.seen, conv, conv);
    assert OneConversation(c1.seen, home) == OneConversation(c.seen, home);
    assert home in c1.seen;
  }

  /** The linkage an attached connection's identities all answer to, or a new one when it has none. */
  lemma HomeOf(c: Conn) returns (home: Id)
    requires !TwoConversations(c.seen) && (forall id :: id in c.seen ==> LinkageOf(id) != "")
    ensures home != "" && LinkageOf(home) == home && OneConversation(c.seen, home)
  {
    if c.seen == {} {
      home := FreshConversation({});
    } else {
      var id :| id in c.seen;
      home := LinkageOf(id);
      LinkageIsConversation(id);
    }
  }

  /** The guarantee: whatever the run, erasing the others' session_starts changes nothing conv can observe. */
  ghost predicate ShieldedFor(c: Conn, fs: Fs, conv: Id) {
    forall run: seq<Event>, id: Id | LinkageOf(id) == conv && Undisturbed(c, fs, run, conv) ::
      SameSight(Exec(c, fs, run), Exec(c, fs, Erase(run, conv)), fs, id)
  }

  ghost predicate Shielded(c: Conn, fs: Fs) {
    forall conv: Id | conv != "" :: ShieldedFor(c, fs, conv)
  }

  /** Another conversation arrives just before the /clear, and the connection is no longer handed over. */
  lemma ArrivalIsSeen(c: Conn, fs: Fs, home: Id, other: Id, conv: Id)
    requires c.pin.root != "" && home != "" && LinkageOf(home) == home && OneConversation(c.seen, home)
    requires other !in {home, ""} && LinkageOf(other) == other
    requires conv !in c.seen + c.declared + {home, other, ""} && LinkageOf(conv) == conv && '/' !in conv
    ensures var run := [Arrives(other), Announces(home), FirstCallAfterClear(conv)];
      RefusalOf(Exec(c, fs, run), conv) == RefusedUndeclared && RefusalOf(Exec(c, fs, run[1..]), conv) == NotRefused
  {
    ExecThree(c, fs, Arrives(other), Announces(home), FirstCallAfterClear(conv));
    ArrivalStanding(c, fs, other);
    var c1 := Step(c, fs, Arrives(other));
    assert other in c1.seen;
    ClearAdmits(c, fs, home, conv);
    ClearAdmits(c1, fs, home, conv);
    assert [Arrives(other), Announces(home), FirstCallAfterClear(conv)][1..] == [Announces(home), FirstCallAfterClear(conv)];
  }

  /** One run that conv can tell from its erasure is enough. */
  lemma LeakFound(c: Conn, fs: Fs, conv: Id, run: seq<Event>, kept: seq<Event>)
    requires LinkageOf(conv) == conv && Undisturbed(c, fs, run, conv) && Erase(run, conv) == kept
    requires RefusalOf(Exec(c, fs, run), conv) != RefusalOf(Exec(c, fs, kept), conv)
    ensures !ShieldedFor(c, fs, conv)
  {
    assert !SameSight(Exec(c, fs, run), Exec(c, fs, Erase(run, conv)), fs, conv);
  }

  /** The arrival leaks to every conversation but home that is not declared. */
  lemma GuestUnshielded(c: Conn, fs: Fs, home: Id, conv: Id)
    requires c.pin.root != "" && home != "" && LinkageOf(home) == home && OneConversation(c.seen, home)
    requires conv !in c.declared + {home, ""} && LinkageOf(conv) == conv
    ensures !ShieldedFor(c, fs, conv)
  {
    var other := FreshConversation({home, conv});
    var run := [Arrives(other), Announces(home), FirstCallAfterClear(conv)];
    LinkageIsConversation(conv);
    LeakyRun(c, fs, home, other, conv);
    ArrivalIsSeen(c, fs, home, other, conv);
    LeakFound(c, fs, conv, run, run[1..]);
  }

  lemma LeakyRun(c: Conn, fs: Fs, home: Id, other: Id, conv: Id)
    requires other != "" && conv != "" && LinkageOf(other) == other && other != conv
    ensures var run := [Arrives(other), Announces(home), FirstCallAfterClear(conv)];
      Undisturbed(c, fs, run, conv) && Erase(run, conv) == run[1..]
  {
    var run := [Arrives(other), Announces(home), FirstCallAfterClear(conv)];
    EraseThree(run[0], run[1], run[2], conv);
    assert run[1..] == [run[1], run[2]];
  }

  /** It leaks to home itself, if it is not declared: its state-changing calls are refused from then on. */
  lemma HomeUnshielded(c: Conn, fs: Fs, home: Id)
    requires c.pin.root != "" && home !in c.declared + {""} && LinkageOf(home) == home
    requires OneConversation(c.seen, home) && |c.seen| > 1
    ensures !ShieldedFor(c, fs, home)
  {
    var other := FreshConversation({home});
    var run := [Arrives(other)];
    Alone(c, fs, run, home);
    ArrivalRefuses(c, fs, home, other);
    LeakFound(c, fs, home, run, []);
  }

  lemma ArrivalRefuses(c: Conn, fs: Fs, home: Id, other: Id)
    requires c.pin.root != "" && home !in c.declared + {""} && LinkageOf(home) == home && OneConversation(c.seen, home)
    requires |c.seen| > 1 && other !in {home, ""} && LinkageOf(other) == other
    ensures RefusalOf(Exec(c, fs, [Arrives(other)]), home) == RefusedUndeclared && RefusalOf(Exec(c, fs, []), home) == NotRefused
  {
  }

  lemma Alone(c: Conn, fs: Fs, run: seq<Event>, conv: Id)
    requires |run| == 1 && Foreign(run[0], conv) && !Impersonates(run[0], conv)
    ensures Undisturbed(c, fs, run, conv) && Erase(run, conv) == []
  {
  }

  lemma GuardedIsShielded(c: Conn, fs: Fs, conv: Id)
    requires c.pin.root != "" && conv != "" && Guarded(c, conv)
    ensures ShieldedFor(c, fs, conv)
  {
    forall run: seq<Event>, id: Id | LinkageOf(id) == conv && Undisturbed(c, fs, run, conv)
      ensures SameSight(Exec(c, fs, run), Exec(c, fs, Erase(run, conv)), fs, id)
    {
      ErasingOthersChangesNothing(c, fs, run, conv, id);
    }
  }

  /**
   On an attached connection two identities share, a conversation is shielded exactly when two conversations
   share it or the conversation itself is declared.
   */
  lemma ShieldedForIffGuarded(c: Conn, fs: Fs, conv: Id)
    requires c.pin.root != "" && |c.seen| > 1 && (forall id :: id in c.seen ==> LinkageOf(id) != "")
    requires conv != "" && LinkageOf(conv) == conv
    ensures ShieldedFor(c, fs, conv) <==> Guarded(c, conv)
  {
    if Guarded(c, conv) {
      GuardedIsShielded(c, fs, conv);
    } else {
      var home := HomeOf(c);
      if conv == home {
        HomeUnshielded(c, fs, home);
      } else {
        GuestUnshielded(c, fs, home, conv);
      }
    }
  }

  /** Every conversation is shielded, on an attached connection, exactly when two conversations already share it. */
  lemma ShieldedIffTwoConversations(c: Conn, fs: Fs)
    requires c.pin.root != "" && (forall id :: id in c.seen ==> LinkageOf(id) != "")
    ensures Shielded(c, fs) <==> TwoConversations(c.seen)
  {
    if TwoConversations(c.seen) {
      forall conv: Id | conv != "" ensures ShieldedFor(c, fs, conv) {
        GuardedIsShielded(c, fs, conv);
      }
    } else {
      var home := HomeOf(c);
      var conv := FreshConversation(c.declared + {home});
      GuestUnshielded(c, fs, home, conv);
    }
  }

  /** A caller that names another conversation as its session_id declares it, so erasing that is visible. */
  lemma ImpersonationIsSeen(c: Conn, fs: Fs, caller: Id, conv: Id)
    requires c.pin.root != "" && TwoConversations(c.seen)
    requires conv != "" && LinkageOf(conv) == conv && conv !in c.declared
    requires caller != "" && LinkageOf(caller) != conv
    ensures var e := SessionStartCall(caller, conv, "", false, false, false, true);
      Impersonates(e, conv) && Erase([e], conv) == [] &&
      RefusalOf(c, conv) == RefusedUndeclared && RefusalOf(Exec(c, fs, [e]), conv) == NotRefused
  {
    var e := SessionStartCall(caller, conv, "", false, false, false, true);
    assert [e][..0] == [];
    SharedByTwo(c.seen, conv, conv);
    Admission.SessionStartEvidence(c, fs, e);
    var c1 := Repinned(c, fs, e).0;
    CommitOwn(c1, conv, e);
    assert conv in Own(CommitIdentity(c1, e), conv).declared;
    ExecOne(c, fs, e);
  }
}
