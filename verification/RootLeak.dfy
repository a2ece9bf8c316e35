/**
 Exactly when roots and markers are shielded from the other conversations' session_starts: the three ways an
 attached connection can fail to be, each with the calls that show it, and the theorem that there is no fourth.
 */
module RootLeak {
  import opened Ids
  import opened ConnSpec
  import opened ConnFrames
  import opened Ownership
  import opened Convergence
  import opened Shelter
  import opened Standing
  import opened Projection
  import opened NonInterference
  import opened RootShield
  import opened Leaks
  import opened Options
  import opened Counting
  import Admission

  /** The guarantee about roots and markers alone. */
  ghost predicate RootShielded(c: Conn, fs: Fs) {
    forall run: seq<Event>, conv: Id, id: Id | conv != "" && LinkageOf(id) == conv && Undisturbed(c, fs, run, conv) ::
      SameRoots(Exec(c, fs, run), Exec(c, fs, Erase(run, conv)), fs, id)
  }

  /** One run that an agent can tell from its erasure is enough. */
  lemma LeakFound(c: Conn, fs: Fs, conv: Id, id: Id, run: seq<Event>, kept: seq<Event>)
    requires conv != "" && LinkageOf(id) == conv && Undisturbed(c, fs, run, conv) && Erase(run, conv) == kept
    requires !SameRoots(Exec(c, fs, run), Exec(c, fs, kept), fs, id)
    ensures !RootShielded(c, fs)
  {
  }

  /** Two conversations; or two identities, a session_start's pin, and every latent agent's conversation declared. */
  predicate RootSafe(c: Conn, fs: Fs) {
    TwoConversations(c.seen) ||
    (|c.seen| > 1 && c.pin.origin == SessionStart &&
     forall x :: x in c.store.agentPins && Latent(c, fs, x) ==> LinkageOf(x) in c.declared)
  }

  /** The filesystem resolves each of the two workspaces to itself, and neither lies within the other. */
  predicate Apart(fs: Fs, here: Path, there: Target) {
    RepinTarget(fs, here, SessionStart, Live).Some? && RepinTarget(fs, here, SessionStart, Live).value.root == here &&
    RepinTarget(fs, there.root, SessionStart, Live) == Some(there) &&
    here != there.root && !WithinRoot(here, there.root) && !WithinRoot(there.root, here)
  }

  /** An unidentified session_start that names the root the connection already holds. */
  function Confirms(root: Path): Event {
    SessionStartCall("", "", root, false, false, false, true)
  }

  /** An unidentified session_start that forces another. */
  function Forces(root: Path): Event {
    SessionStartCall("", "", root, true, false, false, true)
  }

  /** id's own session_start, for a workspace. */
  function Asks(id: Id, root: Path): Event {
    SessionStartCall(id, "", root, false, false, false, true)
  }

  /** A forced, connection-scoped session_start. */
  function Leads(id: Id, root: Path): Event {
    SessionStartCall(id, "", root, true, true, false, true)
  }

  /** A state-changing call that resolves a path, or asks who its caller is. */
  function Writes(id: Id, resolves: bool): Event {
    ToolCall(id, true, false, "", false, resolves, !resolves)
  }

  // ---- calls that leave everybody where they are ------------------------------------------------

  /** Nothing but identities and new shards, for ids, tells the two apart. */
  predicate Grew(c: Conn, c': Conn, ids: set<Id>) {
    c'.pin == c.pin && c'.refused == c.refused && c'.persist == c.persist && c'.priorShared == c.priorShared &&
    c'.store.agentPins == c.store.agentPins && c.seen <= c'.seen &&
    c.shards.Keys <= c'.shards.Keys <= c.shards.Keys + ids && forall x :: x in c.shards ==> c'.shards[x] == c.shards[x]
  }

  /** A session_start that names no workspace. */
  lemma IdleStartGrew(c: Conn, fs: Fs, e: Event)
    requires e.SessionStartCall? && e.workspace == "" && c.pin.root != ""
    ensures Grew(c, Step(c, fs, e), {CallerOf(e)})
  {
    BeforeToolFrame(c, e.stamp, e.marker);
    BeforeSessionStartFrame(c, fs, e);
    var c1 := BeforeSessionStart(c, fs, e);
    OrientGains(c1, fs, CallerOf(e));
    CommitIdentityFrame(Repinned(c, fs, e).0, e);
  }

  lemma FirstCallGrew(c: Conn, fs: Fs, id: Id)
    requires c.pin.root != ""
    ensures Grew(c, Step(c, fs, FirstCallAfterClear(id)), {})
  {
    var e := FirstCallAfterClear(id);
    BeforeToolFrame(c, e.stamp, e.marker);
    AttachForCallFrame(BeforeTool(c, e.stamp, e.marker), fs, e);
  }

  /** Nothing is filed under id. */
  predicate Stranger(c: Conn, id: Id) {
    id != "" && LinkageOf(id) == id && id !in c.shards && id !in c.refused && id !in c.store.agentPins
  }

  lemma StrangerStands(c: Conn, fs: Fs, id: Id)
    requires Stranger(c, id)
    ensures WorkspaceFor(c, fs, id) == c.pin.root && SeedShard(c, fs, id) == Shard(c.pin, false, false, false)
  {
  }

  /** Everything an identity could be known by. */
  function Names(c: Conn): set<Id> {
    c.seen + c.declared + c.shards.Keys + c.refused.Keys + c.store.agentPins.Keys
  }

  // ---- one identity or none ---------------------------------------------------------------------

  /** An anonymous move is refused once two identities are seen, and accepted before. */
  lemma ForcedStep(c: Conn, fs: Fs, there: Target)
    requires c.pin.root != "" && c.pin.root != there.root && RepinTarget(fs, there.root, SessionStart, Live) == Some(there)
    ensures |c.seen| > 1 ==> Step(c, fs, Forces(there.root)) == c
    ensures |c.seen| <= 1 ==>
      var c' := Step(c, fs, Forces(there.root));
      c'.pin.root == there.root && c'.shards.Keys == c.shards.Keys && c'.refused.Keys <= c.refused.Keys &&
      c'.store.agentPins.Keys <= c.store.agentPins.Keys
  {
  }
  /** Two others arrive; the connection then refuses the move that would have taken a newcomer along. */
  lemma FewLeak(c: Conn, fs: Fs, there: Target)
    requires c.pin.root != "" && |c.seen| <= 1
    requires c.pin.root != there.root && RepinTarget(fs, there.root, SessionStart, Live) == Some(there)
    ensures !RootShielded(c, fs)
  {
    var f := FreshConversation(Names(c));
    var g := FreshConversation(Names(c) + {f});
    var conv := FreshConversation(Names(c) + {f, g});
    ArrivalsErased(c, fs, f, g, conv, there.root);
    ArrivalsLeak(c, fs, f, g, conv, there);
    LeakFound(c, fs, conv, conv, [Arrives(f), Arrives(g), Forces(there.root)], [Forces(there.root)]);
  }

  lemma ArrivalsLeak(c: Conn, fs: Fs, f: Id, g: Id, conv: Id, there: Target)
    requires c.pin.root !in {"", there.root} && RepinTarget(fs, there.root, SessionStart, Live) == Some(there)
    requires f != g && f != "" && g != "" && LinkageOf(f) == f && LinkageOf(g) == g && |c.seen| <= 1
    requires Stranger(c, conv) && conv !in {f, g}
    ensures var run := [Arrives(f), Arrives(g), Forces(there.root)];
      !SameRoots(Exec(c, fs, run), Exec(c, fs, [run[2]]), fs, conv)
  {
    var run := [Arrives(f), Arrives(g), Forces(there.root)];
    ExecThree(c, fs, run[0], run[1], run[2]);
    ExecTwo(Step(c, fs, run[0]), fs, run[1], run[2]);
    ExecOne(c, fs, run[2]);
    WithArrivals(c, fs, f, g, conv, there);
    ForcedStep(c, fs, there);
    StrangerStands(Step(c, fs, run[2]), fs, conv);
  }

  lemma ArrivalsErased(c: Conn, fs: Fs, f: Id, g: Id, conv: Id, root: Path)
    requires f !in {"", conv} && g !in {"", conv} && LinkageOf(f) == f && LinkageOf(g) == g && conv != ""
    ensures var run := [Arrives(f), Arrives(g), Forces(root)]; Undisturbed(c, fs, run, conv) && Erase(run, conv) == [run[2]]
  {
    var run := [Arrives(f), Arrives(g), Forces(root)];
    EraseSnoc([], run[0], conv);
    assert [] + [run[0]] == [run[0]];
    EraseSnoc([run[0]], run[1], conv);
    assert [run[0]] + [run[1]] == [run[0], run[1]];
    EraseSnoc([run[0], run[1]], run[2], conv);
    assert [run[0], run[1]] + [run[2]] == run;
  }

  lemma WithArrivals(c: Conn, fs: Fs, f: Id, g: Id, conv: Id, there: Target)
    requires c.pin.root !in {"", there.root} && RepinTarget(fs, there.root, SessionStart, Live) == Some(there)
    requires f != g && f != "" && g != "" && LinkageOf(f) == f && LinkageOf(g) == g
    requires Stranger(c, conv) && conv !in {f, g}
    ensures WorkspaceFor(Step(Step(Step(c, fs, Arrives(f)), fs, Arrives(g)), fs, Forces(there.root)), fs, conv) == c.pin.root
  {
    var c1 := Step(c, fs, Arrives(f));
    IdleStartGrew(c, fs, Arrives(f));
    ArrivalStanding(c, fs, f);
    var c2 := Step(c1, fs, Arrives(g));
    IdleStartGrew(c1, fs, Arrives(g));
    ArrivalStanding(c1, fs, g);
    TwoSeen(c2.seen);
    ForcedStep(c2, fs, there);
    StrangerStands(c2, fs, conv);
  }

  // ---- a pin no session_start has confirmed -----------------------------------------------------

  /** Confirming the pin changes its origin, and nobody's shard. */
  lemma ConfirmStep(c: Conn, fs: Fs, here: Path)
    requires c.pin.root == here && here != ""
    requires RepinTarget(fs, here, SessionStart, Live).Some? && RepinTarget(fs, here, SessionStart, Live).value.root == here
    ensures var c' := Step(c, fs, Confirms(here)); OnlyConnPin(c, c') && c'.pin == c.pin.(origin := SessionStart)
  {
  }

  /** What precedes a newcomer's re-pin: its shard, built where the connection sits if it had none. */
  lemma AskOriented(c: Conn, fs: Fs, conv: Id, root: Path)
    requires |c.seen| > 1 && conv in c.seen && conv != "" && c.pin.root != "" && root != "" && !PendingForCall(c, conv)
    ensures Repinned(c, fs, Asks(conv, root)) ==
      RepinFrom(ShardOf(c, fs, conv), fs, conv, false, root, SessionStart, Live, false)
  {
    assert RecordAgent(c, conv) == c;
    assert BeforeSessionStart(c, fs, Asks(conv, root)) == c;
  }

  /** conv has no shard yet: it is seeded where the connection now sits, stickily, and the move is refused. */
  lemma AskRefused(c: Conn, fs: Fs, conv: Id, there: Target)
    requires Stranger(c, conv) && |c.seen| > 1 && conv in c.seen && c.pin.root != ""
    requires c.pin.origin == SessionStart && Apart(fs, c.pin.root, there)
    ensures conv in Step(c, fs, Asks(conv, there.root)).refused
  {
    AskOriented(c, fs, conv, there.root);
    StrangerStands(c, fs, conv);
    var c0 := ShardOf(c, fs, conv);
    RepinOnAgentChoices(c0, fs, conv, there, false);
  }

  /** conv's shard dates from before the pin was confirmed, so it may still be moved. */
  lemma AskGranted(c: Conn, fs: Fs, conv: Id, there: Target)
    requires conv != "" && LinkageOf(conv) == conv && conv !in c.refused && |c.seen| > 1 && conv in c.seen && c.pin.root != ""
    requires conv in c.shards && c.shards[conv].pin.origin != SessionStart && Apart(fs, c.pin.root, there)
    ensures conv !in Step(c, fs, Asks(conv, there.root)).refused
  {
  }

  /** A newcomer's state-changing call: refused while it is undeclared, else it gets a shard at the present pin. */
  lemma NewcomerWrites(c: Conn, fs: Fs, conv: Id)
    requires Stranger(c, conv) && |c.seen| > 1 && conv in c.seen && c.pin.root != ""
    ensures RefusalOf(c, conv) != NotRefused ==> Step(c, fs, Writes(conv, true)) == c
    ensures RefusalOf(c, conv) == NotRefused ==> Step(c, fs, Writes(conv, true)) == ShardOf(c, fs, conv)
  {
    assert RecordAgent(c, conv) == c;
  }

  /** The calls that end with a newcomer asking for another workspace. */
  function Newcomer(home: Id, conv: Id, here: Path, there: Path): seq<Event> {
    [Announces(home), FirstCallAfterClear(conv)] + [Writes(conv, true), Confirms(here), Asks(conv, there)]
  }

  lemma NewcomerRun(c: Conn, fs: Fs, home: Id, conv: Id, here: Path, there: Path) returns (c2: Conn)
    ensures c2 == Step(Step(c, fs, Announces(home)), fs, FirstCallAfterClear(conv))
    ensures Exec(c, fs, Newcomer(home, conv, here, there)) ==
      Step(Step(Step(c2, fs, Writes(conv, true)), fs, Confirms(here)), fs, Asks(conv, there))
  {
    c2 := Exec(c, fs, [Announces(home), FirstCallAfterClear(conv)]);
    ExecTwo(c, fs, Announces(home), FirstCallAfterClear(conv));
    ExecAppend(c, fs, [Announces(home), FirstCallAfterClear(conv)], [Writes(conv, true), Confirms(here), Asks(conv, there)]);
    ExecThree(c2, fs, Writes(conv, true), Confirms(here), Asks(conv, there));
    ExecTwo(Step(c2, fs, Writes(conv, true)), fs, Confirms(here), Asks(conv, there));
  }

  lemma {:induction false} ExecAppend(c: Conn, fs: Fs, run: seq<Event>, more: seq<Event>)
    ensures Exec(c, fs, run + more) == Exec(Exec(c, fs, run), fs, more)
  {
    hide Step;
    if more == [] {
      assert run + more == run;
    } else {
      var last := |more| - 1;
      ExecAppend(c, fs, run, more[..last]);
      ExecSnoc(c, fs, run + more[..last], more[last]);
      ExecSnoc(Exec(c, fs, run), fs, more[..last], more[last]);
      assert (run + more[..last]) + [more[last]] == run + more;
      assert more[..last] + [more[last]] == more;
    }
  }

  /** The newcomer at its first call: seen and shardless, and admitted if the connection was handed over to it. */
  lemma NewcomerArrives(c: Conn, fs: Fs, home: Id, conv: Id)
    requires c.pin.root != "" && home != "" && LinkageOf(home) == home && Stranger(c, conv) && conv != home && '/' !in conv
    requires conv !in c.seen + c.declared
    ensures var c2 := Step(Step(c, fs, Announces(home)), fs, FirstCallAfterClear(conv));
      c2.pin == c.pin && Stranger(c2, conv) && |c2.seen| > 1 && conv in c2.seen &&
      (RefusalOf(c2, conv) == NotRefused <==> OneConversation(c.seen, home))
  {
    var c1 := Step(c, fs, Announces(home));
    IdleStartGrew(c, fs, Announces(home));
    FirstCallGrew(c1, fs, conv);
    ClearAdmits(c, fs, home, conv);
    ExecTwo(c, fs, Announces(home), FirstCallAfterClear(conv));
    AnnouncementStanding(c, fs, home);
    ClearStanding(c1, fs, conv);
    TwoSeen(Step(c1, fs, FirstCallAfterClear(conv)).seen);
  }

  /** How it fares from there: it is marked exactly when its state-changing call is refused. */
  lemma NewcomerFate(c: Conn, fs: Fs, conv: Id, there: Target)
    requires c.pin.root != "" && c.pin.origin != SessionStart && Apart(fs, c.pin.root, there)
    requires Stranger(c, conv) && |c.seen| > 1 && conv in c.seen
    ensures var end := Step(Step(Step(c, fs, Writes(conv, true)), fs, Confirms(c.pin.root)), fs, Asks(conv, there.root));
      conv in end.refused <==> RefusalOf(c, conv) != NotRefused
  {
    NewcomerWrites(c, fs, conv);
    StrangerStands(c, fs, conv);
    var c3 := Step(c, fs, Writes(conv, true));
    ConfirmStep(c3, fs, c.pin.root);
    var c4 := Step(c3, fs, Confirms(c.pin.root));
    if RefusalOf(c, conv) == NotRefused {
      AskGranted(c4, fs, conv, there);
    } else {
      AskRefused(c4, fs, conv, there);
    }
  }

  lemma NewcomerMarked(c: Conn, fs: Fs, home: Id, conv: Id, there: Target)
    requires c.pin.root != "" && c.pin.origin != SessionStart && Apart(fs, c.pin.root, there)
    requires home != "" && LinkageOf(home) == home && Stranger(c, conv) && conv != home && '/' !in conv
    requires conv !in c.seen + c.declared
    ensures conv in Exec(c, fs, Newcomer(home, conv, c.pin.root, there.root)).refused <==> !OneConversation(c.seen, home)
  {
    var c2 := NewcomerRun(c, fs, home, conv, c.pin.root, there.root);
    NewcomerArrives(c, fs, home, conv);
    NewcomerFate(c2, fs, conv, there);
  }

  /** After any head that lets a second conversation in, the newcomer is marked; without it, it is not. */
  lemma NewcomerLeak(c: Conn, c1: Conn, fs: Fs, head: seq<Event>, home: Id, conv: Id, there: Target)
    requires c.pin.root != "" && c.pin.origin != SessionStart && Apart(fs, c.pin.root, there)
    requires home != "" && LinkageOf(home) == home && OneConversation(c.seen, home) && !OneConversation(c1.seen, home)
    requires c1 == Exec(c, fs, head) && c1.pin == c.pin && Stranger(c1, conv) && conv !in c1.seen + c1.declared
    requires Stranger(c, conv) && conv != home && '/' !in conv && conv !in c.seen + c.declared
    ensures var rest := Newcomer(home, conv, c.pin.root, there.root);
      !SameRoots(Exec(c, fs, head + rest), Exec(c, fs, rest), fs, conv)
  {
    ExecAppend(c, fs, head, Newcomer(home, conv, c.pin.root, there.root));
    NewcomerMarked(c, fs, home, conv, there);
    NewcomerMarked(c1, fs, home, conv, there);
  }

  lemma ArrivedStranger(c: Conn, fs: Fs, home: Id, other: Id, conv: Id) returns (c1: Conn)
    requires c.pin.root != "" && other !in {"", home, conv} && LinkageOf(other) == other
    requires Stranger(c, conv) && conv !in c.seen + c.declared
    ensures c1 == Exec(c, fs, [Arrives(other)]) && c1.pin == c.pin && Stranger(c1, conv)
    ensures conv !in c1.seen + c1.declared && !OneConversation(c1.seen, home)
  {
    c1 := Step(c, fs, Arrives(other));
    ArrivalStanding(c, fs, other);
    IdleStartGrew(c, fs, Arrives(other));
    ExecOne(c, fs, Arrives(other));
    assert other in c1.seen;
  }

  lemma Newcomers(c: Conn, home: Id) returns (other: Id, conv: Id)
    ensures other !in {"", home, conv} && LinkageOf(other) == other
    ensures Stranger(c, conv) && conv != home && '/' !in conv && conv !in c.seen + c.declared
  {
    other := FreshConversation({home});
    conv := FreshConversation(Names(c) + {home, other});
  }

  /** Another conversation's arrival decides whether a newcomer's session_start is refused. */
  lemma UnconfirmedLeak(c: Conn, fs: Fs, home: Id, there: Target)
    requires c.pin.root != "" && c.pin.origin != SessionStart && Apart(fs, c.pin.root, there)
    requires home != "" && LinkageOf(home) == home && OneConversation(c.seen, home)
    ensures !RootShielded(c, fs)
  {
    var other, conv := Newcomers(c, home);
    var rest := Newcomer(home, conv, c.pin.root, there.root);
    var c1 := ArrivedStranger(c, fs, home, other, conv);
    NewcomerErased(c, fs, other, home, conv, c.pin.root, there.root);
    NewcomerLeak(c, c1, fs, [Arrives(other)], home, conv, there);
    LeakFound(c, fs, conv, conv, [Arrives(other)] + rest, rest);
  }

  /** The arrival is the only event of such a run that conv's view erases. */
  lemma NewcomerErased(c: Conn, fs: Fs, other: Id, home: Id, conv: Id, here: Path, there: Path)
    requires other !in {"", conv} && LinkageOf(other) == other && conv != "" && LinkageOf(conv) == conv
    ensures var rest := Newcomer(home, conv, here, there);
      Undisturbed(c, fs, [Arrives(other)] + rest, conv) && Erase([Arrives(other)] + rest, conv) == rest
  {
    OnlyHeadErased(c, fs, Arrives(other), Newcomer(home, conv, here, there), conv);
  }

  lemma {:induction false} EraseHead(first: Event, rest: seq<Event>, conv: Id)
    requires Foreign(first, conv) && forall e :: e in rest ==> !Foreign(e, conv)
    ensures Erase([first] + rest, conv) == rest
  {
    if rest == [] {
      EraseSnoc([], first, conv);
      assert [] + [first] == [first] == [first] + rest;
    } else {
      var last := |rest| - 1;
      var init, e := rest[..last], rest[last];
      EraseHead(first, init, conv);
      EraseSnoc([first] + init, e, conv);
      assert init + [e] == rest && ([first] + init) + [e] == [first] + rest;
    }
  }
  // ---- a decision only a row knows --------------------------------------------------------------

  /** x decided on file alone, and its conversation has not. */
  predicate Brink(c: Conn, fs: Fs, x: Id) {
    Held(c, fs) && Latent(c, fs, x)
  }

  lemma BrinkGrows(c: Conn, c': Conn, fs: Fs, ids: set<Id>, x: Id)
    requires Brink(c, fs, x) && Grew(c, c', ids) && Held(c', fs) && x !in ids && LinkageOf(x) !in ids
    ensures Brink(c', fs, x)
  {
  }

  /** A forced move of the connection: whoever follows it is now there, on a session_start's pin. */
  lemma LeadsCarries(c: Conn, fs: Fs, g: Id, there: Target, y: Id)
    requires Held(c, fs) && g != "" && c.pin.root != there.root && RepinTarget(fs, there.root, SessionStart, Live) == Some(there)
    ensures var c' := Step(c, fs, Leads(g, there.root));
      c'.pin.root == there.root && Decided(c', fs, y) == Decided(c, fs, y) &&
      (y != g ==> (y in c'.shards) == (y in c.shards)) &&
      (!Decided(c, fs, y) && !ParentDecided(c, fs, y) ==> SeatOrigin(c', y) == SessionStart)
  {
    var e := Leads(g, there.root);
    OrientedQuiet(c, fs, e, LinkageOf(y));
    OrientedQuiet(c, fs, e, LinkageOf(LinkageOf(y)));
    var c2 := Orient(BeforeSessionStart(c, fs, e), fs, g);
    BeforeSessionStartFrame(c, fs, e);
    OrientFrame(BeforeSessionStart(c, fs, e), fs, g);
    ConnectionLeads(c2, fs, g, there, y);
    CommitQuiet(Repinned(c, fs, e).0, fs, e, LinkageOf(y), Succeeds(c, fs, e));
    CommitIdentityFrame(Repinned(c, fs, e).0, e);
    assert SameStanding(c, c2, fs, y) && SameStanding(c, c2, fs, LinkageOf(y));
    assert SameStanding(Repinned(c, fs, e).0, SessionStartStep(c, fs, e), fs, y);
  }

  lemma ConnectionLeads(c: Conn, fs: Fs, g: Id, there: Target, y: Id)
    requires Held(c, fs) && g != "" && c.pin.root != there.root && RepinTarget(fs, there.root, SessionStart, Live) == Some(there)
    ensures var c' := RepinConnection(c, fs, g, there.root, true).0;
      c'.pin.root == there.root && Decided(c', fs, y) == Decided(c, fs, y) &&
      (y != g ==> (y in c'.shards) == (y in c.shards)) &&
      (!Decided(c, fs, y) && !ParentDecided(c, fs, y) ==> SeatOrigin(c', y) == SessionStart)
  {
    var c2 := StrippedLeads(c, fs, there, y);
    var c3 := ClearRefused(c2, g);
    MarkersApart(c2, c3, fs, y);
    OrientQuiet(c3, fs, g, LinkageOf(y));
    OrientFrame(c3, fs, g);
    assert SameStanding(c3, Orient(c3, fs, g), fs, y);
  }

  lemma StrippedLeads(c: Conn, fs: Fs, there: Target, y: Id) returns (c2: Conn)
    requires Held(c, fs) && c.pin.root != there.root && RepinTarget(fs, there.root, SessionStart, Live) == Some(there)
    ensures RepinFrom(c, fs, "", true, there.root, SessionStart, Live, true) == (c2, ConnScope(there.root))
    ensures c2.pin.root == there.root && Firm(c2) && Carried(c, c2, fs, y)
  {
    var (c1, moved) := AttachOrRepin(c, fs, "", true, there, SessionStart, Live, true);
    AttachOrRepinFrame(c, fs, "", true, there, SessionStart, Live, true);
    Anonymous(c1, c.pin.root, there, true);
    c2 := FollowConnection(c1, c.pin.root);
    FollowCarries(c, c1, fs, y);
    RepinFromOwnership(c, fs, "", true, there.root, SessionStart, Live, true);
  }

  /** p has not decided: its session_start for an unrelated root is refused, and marks it. */
  lemma UndecidedIsMarked(c: Conn, fs: Fs, p: Id, here: Path)
    requires Held(c, fs) && p != "" && LinkageOf(p) == p && !Decided(c, fs, p) && SeatOrigin(c, p) == SessionStart
    requires RepinTarget(fs, here, SessionStart, Live).Some? && RepinTarget(fs, here, SessionStart, Live).value.root == here
    requires here != "" && here != c.pin.root && !WithinRoot(here, c.pin.root) && !WithinRoot(c.pin.root, here)
    ensures var c' := Step(c, fs, Asks(p, here));
      p in c'.refused && c.shards.Keys <= c'.shards.Keys <= c.shards.Keys + {p}
  {
    var e := Asks(p, here);
    OrientedQuiet(c, fs, e, p);
    BeforeSessionStartFrame(c, fs, e);
    OrientFrame(BeforeSessionStart(c, fs, e), fs, p);
    var c2 := Orient(BeforeSessionStart(c, fs, e), fs, p);
    var c3 := ShardOf(c2, fs, p);
    ShardOfQuiet(c2, fs, p, p);
    ShardOfConverges(c2, fs, p);
    assert SameStanding(c, c2, fs, p) && SameStanding(c2, c3, fs, p);
    SitsWhereItStands(c3, fs, p);
    RepinOnAgentChoices(c2, fs, p, RepinTarget(fs, here, SessionStart, Live).value, false);
  }

  /** x's state-changing call, then a move of the connection, then its conversation's refused session_start. */
  function Silencing(x: Id, g: Id, here: Path, there: Path): seq<Event> {
    [Writes(x, false), Leads(g, there), Asks(LinkageOf(x), here)]
  }

  lemma SilencingStates(c: Conn, fs: Fs, x: Id, g: Id, there: Target) returns (c1: Conn, c2: Conn, c3: Conn)
    requires Held(c, fs)
    ensures c1 == Step(c, fs, Writes(x, false)) && c2 == Step(c1, fs, Leads(g, there.root))
    ensures c3 == Exec(c, fs, Silencing(x, g, c.pin.root, there.root)) == Step(c2, fs, Asks(LinkageOf(x), c.pin.root))
    ensures Held(c1, fs) && Held(c2, fs) && Held(c3, fs)
  {
    c1 := Step(c, fs, Writes(x, false));
    c2 := Step(c1, fs, Leads(g, there.root));
    c3 := Step(c2, fs, Asks(LinkageOf(x), c.pin.root));
    StepHeld(c, fs, Writes(x, false));
    StepHeld(c1, fs, Leads(g, there.root));
    StepHeld(c2, fs, Asks(LinkageOf(x), c.pin.root));
    ExecThree(c, fs, Writes(x, false), Leads(g, there.root), Asks(LinkageOf(x), c.pin.root));
    ExecTwo(c1, fs, Leads(g, there.root), Asks(LinkageOf(x), c.pin.root));
  }

  /** The conversation ends up marked, whether or not x's call was admitted. */
  lemma SilencedParent(c: Conn, c1: Conn, fs: Fs, x: Id, g: Id, there: Target)
    requires Held(c1, fs) && c1.pin == c.pin && Apart(fs, c.pin.root, there) && Subagent(x) && g != "" && g !in {x, LinkageOf(x)}
    requires !Decided(c1, fs, LinkageOf(x))
    ensures var c2 := Step(c1, fs, Leads(g, there.root)); var c3 := Step(c2, fs, Asks(LinkageOf(x), c.pin.root));
      LinkageOf(x) in c3.refused && (x in c3.shards <==> x in c1.shards) && (x in c2.shards <==> x in c1.shards)
  {
    var p := LinkageOf(x);
    LinkageIsConversation(x);
    LeadsCarries(c1, fs, g, there, p);
    LeadsCarries(c1, fs, g, there, x);
    StepHeld(c1, fs, Leads(g, there.root));
    UndecidedIsMarked(Step(c1, fs, Leads(g, there.root)), fs, p, c.pin.root);
  }

  /** If x's call is refused, its row is never read, and the marker on its conversation silences it. */
  lemma Silenced(c: Conn, fs: Fs, x: Id, g: Id, there: Target)
    requires Brink(c, fs, x) && RefusalOf(c, x) != NotRefused && Apart(fs, c.pin.root, there) && g != "" && g !in {x, LinkageOf(x)}
    ensures WorkspaceFor(Exec(c, fs, Silencing(x, g, c.pin.root, there.root)), fs, x) == ""
  {
    var c1, c2, c3 := SilencingStates(c, fs, x, g, there);
    assert c1 == c;
    SilencedParent(c, c1, fs, x, g, there);
  }

  /** If it is admitted, x works on in the root it had decided on. */
  lemma Unsilenced(c: Conn, fs: Fs, x: Id, g: Id, there: Target)
    requires Brink(c, fs, x) && RefusalOf(c, x) == NotRefused && Apart(fs, c.pin.root, there) && g != "" && g !in {x, LinkageOf(x)}
    ensures WorkspaceFor(Exec(c, fs, Silencing(x, g, c.pin.root, there.root)), fs, x) != ""
  {
    var p := LinkageOf(x);
    LinkageIsConversation(x);
    var c1, c2, c3 := SilencingStates(c, fs, x, g, there);
    ToolCallQuiet(c, fs, p, Writes(x, false));
    assert SameStanding(c, c1, fs, x) && SameStanding(c, c1, fs, p);
    WriterHasShard(c, fs, x);
    SilencedParent(c, c1, fs, x, g, there);
    LeadsCarries(c1, fs, g, there, x);
    StepOwnership(c2, fs, Asks(p, c.pin.root), x);
  }

  lemma WriterHasShard(c: Conn, fs: Fs, x: Id)
    requires Held(c, fs) && x != "" && RefusalOf(c, x) == NotRefused
    ensures x in Step(c, fs, Writes(x, false)).shards
  {
    var c1 := BeforeTool(c, x, false);
    BeforeToolFrame(c, x, false);
    SubsetSize(c.seen, c1.seen);
    AttachForCallFrame(c1, fs, Writes(x, false));
  }
  /** What comes before: another conversation's arrival, and the /clear that declares x's conversation if it may. */
  function Opening(home: Id, p: Id): seq<Event> {
    if p == home then [] else [Announces(home), FirstCallAfterClear(p)]
  }

  /** After the opening x is still on the brink, and its calls are admitted exactly if one conversation was seen. */
  lemma OpeningBrink(c: Conn, fs: Fs, home: Id, x: Id) returns (c': Conn)
    requires Brink(c, fs, x) && home != "" && LinkageOf(home) == home && LinkageOf(x) !in c.declared
    requires LinkageOf(x) == home || (LinkageOf(x) !in c.seen && LinkageOf(x) != home)
    ensures c' == Exec(c, fs, Opening(home, LinkageOf(x))) && Brink(c', fs, x) && c'.pin == c.pin
    ensures RefusalOf(c', x) == NotRefused <==> OneConversation(c.seen, home)
  {
    hide Step;
    if LinkageOf(x) == home {
      c' := c;
    } else {
      var c1 := AnnouncedBrink(c, fs, home, x);
      c' := ClearedBrink(c1, fs, x);
      ExecTwo(c, fs, Announces(home), FirstCallAfterClear(LinkageOf(x)));
      OpeningAdmits(c, c1, c', home, x);
    }
  }

  lemma AnnouncedBrink(c: Conn, fs: Fs, home: Id, x: Id) returns (c1: Conn)
    requires Brink(c, fs, x) && home != "" && LinkageOf(home) == home && LinkageOf(x) != home
    ensures c1 == Step(c, fs, Announces(home)) && Brink(c1, fs, x) && c1.pin == c.pin
    ensures c1.seen == c.seen + {home} && c1.declared == c.declared + {home} && c1.linked == home
  {
    c1 := Step(c, fs, Announces(home));
    AnnouncementStanding(c, fs, home);
    IdleStartGrew(c, fs, Announces(home));
    StepHeld(c, fs, Announces(home));
    BrinkGrows(c, c1, fs, {home}, x);
  }

  lemma ClearedBrink(c: Conn, fs: Fs, x: Id) returns (c1: Conn)
    requires Brink(c, fs, x) && LinkageOf(x) !in c.seen
    ensures c1 == Step(c, fs, FirstCallAfterClear(LinkageOf(x))) && Brink(c1, fs, x) && c1.pin == c.pin
    ensures c1.seen == c.seen + {LinkageOf(x)}
    ensures c1.declared == c.declared + if SoleConversationIs(c.seen, c.linked) then {LinkageOf(x)} else {}
  {
    var p := LinkageOf(x);
    c1 := Step(c, fs, FirstCallAfterClear(p));
    LinkageIsConversation(x);
    LinkageIsConversation(p);
    ClearStanding(c, fs, p);
    FirstCallGrew(c, fs, p);
    StepHeld(c, fs, FirstCallAfterClear(p));
    BrinkGrows(c, c1, fs, {}, x);
  }

  lemma OpeningAdmits(c: Conn, c1: Conn, c2: Conn, home: Id, x: Id)
    requires |c.seen| > 1 && home != "" && LinkageOf(home) == home && x != "" && LinkageOf(x) !in c.declared + c.seen + {home, ""}
    requires c1.seen == c.seen + {home} && c1.declared == c.declared + {home} && c1.linked == home
    requires c2.seen == c1.seen + {LinkageOf(x)}
    requires c2.declared == c1.declared + if SoleConversationIs(c1.seen, c1.linked) then {LinkageOf(x)} else {}
    ensures RefusalOf(c2, x) == NotRefused <==> OneConversation(c.seen, home)
  {
  }

  lemma LatentRun(c: Conn, fs: Fs, home: Id, x: Id, g: Id, there: Target)
    requires Brink(c, fs, x) && home != "" && LinkageOf(home) == home && LinkageOf(x) !in c.declared
    requires LinkageOf(x) == home || (LinkageOf(x) !in c.seen && LinkageOf(x) != home)
    requires Apart(fs, c.pin.root, there) && g != "" && g !in {x, LinkageOf(x)}
    ensures var rest := Opening(home, LinkageOf(x)) + Silencing(x, g, c.pin.root, there.root);
      WorkspaceFor(Exec(c, fs, rest), fs, x) == "" <==> !OneConversation(c.seen, home)
  {
    var c' := OpeningBrink(c, fs, home, x);
    ExecAppend(c, fs, Opening(home, LinkageOf(x)), Silencing(x, g, c.pin.root, there.root));
    if RefusalOf(c', x) == NotRefused {
      Unsilenced(c', fs, x, g, there);
    } else {
      Silenced(c', fs, x, g, there);
    }
  }

  lemma LatentErased(c: Conn, fs: Fs, other: Id, home: Id, x: Id, g: Id, here: Path, there: Path)
    requires Subagent(x) && other !in {"", LinkageOf(x)} && LinkageOf(other) == other
    ensures var p := LinkageOf(x); var rest := Opening(home, p) + Silencing(x, g, here, there);
      Undisturbed(c, fs, [Arrives(other)] + rest, p) && Erase([Arrives(other)] + rest, p) == rest
  {
    var p := LinkageOf(x);
    LinkageIsConversation(x);
    forall e | e in Opening(home, p) + Silencing(x, g, here, there)
      ensures !Foreign(e, p) && !e.Restart?
    {
      assert e in Opening(home, p) || e in Silencing(x, g, here, there);
    }
    OnlyHeadErased(c, fs, Arrives(other), Opening(home, p) + Silencing(x, g, here, there), p);
  }

  lemma OnlyHeadErased(c: Conn, fs: Fs, first: Event, rest: seq<Event>, conv: Id)
    requires Foreign(first, conv) && !Impersonates(first, conv) && forall e :: e in rest ==> !Foreign(e, conv) && !e.Restart?
    ensures Undisturbed(c, fs, [first] + rest, conv) && Erase([first] + rest, conv) == rest
  {
    EraseHead(first, rest, conv);
  }

  /** After any head that lets a second conversation in, x is silenced; without it, it is not. */
  lemma LatentDiffers(c: Conn, c1: Conn, fs: Fs, head: seq<Event>, home: Id, x: Id, g: Id, there: Target)
    requires Brink(c, fs, x) && home != "" && LinkageOf(home) == home && OneConversation(c.seen, home)
    requires c1 == Exec(c, fs, head) && Brink(c1, fs, x) && c1.pin == c.pin && !OneConversation(c1.seen, home)
    requires LinkageOf(x) !in c.declared + c1.declared && (LinkageOf(x) == home || LinkageOf(x) !in c.seen + c1.seen)
    requires Apart(fs, c.pin.root, there) && g != "" && g !in {x, LinkageOf(x)}
    ensures var rest := Opening(home, LinkageOf(x)) + Silencing(x, g, c.pin.root, there.root);
      !SameRoots(Exec(c, fs, head + rest), Exec(c, fs, rest), fs, x)
  {
    ExecAppend(c, fs, head, Opening(home, LinkageOf(x)) + Silencing(x, g, c.pin.root, there.root));
    LatentRun(c, fs, home, x, g, there);
    LatentRun(c1, fs, home, x, g, there);
  }

  lemma Bystanders(home: Id, p: Id, x: Id) returns (other: Id, g: Id)
    ensures other !in {"", home, p, x} && LinkageOf(other) == other && g != "" && g !in {x, p}
  {
    other := FreshConversation({home, p, x});
    g := FreshConversation({x, p});
  }

  lemma GuestsUnseen(c: Conn, home: Id, p: Id)
    requires OneConversation(c.seen, home) && LinkageOf(p) == p
    ensures p == home || p !in c.seen
  {
  }

  /** Another conversation's arrival keeps x's row unread, and so its agent silent. */
  lemma LatentLeak(c: Conn, fs: Fs, home: Id, x: Id, there: Target)
    requires Brink(c, fs, x) && home != "" && LinkageOf(home) == home && OneConversation(c.seen, home)
    requires LinkageOf(x) !in c.declared && Apart(fs, c.pin.root, there)
    ensures !RootShielded(c, fs)
  {
    var p := LinkageOf(x);
    LinkageIsConversation(x);
    GuestsUnseen(c, home, p);
    var other, g := Bystanders(home, p, x);
    var rest := Opening(home, p) + Silencing(x, g, c.pin.root, there.root);
    var c1 := ArrivedBrink(c, fs, home, other, x);
    LatentErased(c, fs, other, home, x, g, c.pin.root, there.root);
    LatentDiffers(c, c1, fs, [Arrives(other)], home, x, g, there);
    LeakFound(c, fs, p, x, [Arrives(other)] + rest, rest);
  }

  lemma ArrivedBrink(c: Conn, fs: Fs, home: Id, other: Id, x: Id) returns (c1: Conn)
    requires Brink(c, fs, x) && other !in {"", home, LinkageOf(x), x} && LinkageOf(other) == other
    ensures c1 == Exec(c, fs, [Arrives(other)]) && Brink(c1, fs, x) && c1.pin == c.pin
    ensures c1.seen == c.seen + {other} && c1.declared == c.declared + {other} && !OneConversation(c1.seen, home)
  {
    c1 := Step(c, fs, Arrives(other));
    ArrivalStanding(c, fs, other);
    IdleStartGrew(c, fs, Arrives(other));
    StepHeld(c, fs, Arrives(other));
    BrinkGrows(c, c1, fs, {other}, x);
    ExecOne(c, fs, Arrives(other));
    assert other in c1.seen;
  }

  // ---- the theorem ------------------------------------------------------------------------------

  lemma SafeIsShielded(c: Conn, fs: Fs)
    requires Converged(c, fs) && MarkersHeld(c) && RootSafe(c, fs)
    ensures RootShielded(c, fs)
  {
    forall run: seq<Event>, conv: Id, id: Id | conv != "" && LinkageOf(id) == conv && Undisturbed(c, fs, run, conv)
      ensures SameRoots(Exec(c, fs, run), Exec(c, fs, Erase(run, conv)), fs, id)
    {
      if Guarded(c, conv) {
        ErasingOthersChangesNothing(c, fs, run, conv, id);
      } else {
        ErasingOthersMovesNobody(c, fs, run, conv, id);
      }
    }
  }

  /**
   On a converged connection whose filesystem has two unrelated workspaces, the other conversations'
   agent-scoped session_starts can be erased from any run without moving a root or a marker of anybody else if
   and only if two conversations are seen, or two identities are, the pin is a session_start's, and every agent
   that decided on file alone under an undecided conversation is of a declared one.
   */
  lemma RootShieldedIff(c: Conn, fs: Fs, there: Target)
    requires Converged(c, fs) && MarkersHeld(c) && (forall id :: id in c.seen ==> LinkageOf(id) != "")
    requires Apart(fs, c.pin.root, there)
    ensures RootShielded(c, fs) <==> RootSafe(c, fs)
  {
    if RootSafe(c, fs) {
      SafeIsShielded(c, fs);
    } else {
      var home := HomeOf(c);
      if |c.seen| <= 1 {
        FewLeak(c, fs, there);
      } else if c.pin.origin != SessionStart {
        UnconfirmedLeak(c, fs, home, there);
      } else {
        var x :| x in c.store.agentPins && Latent(c, fs, x) && LinkageOf(x) !in c.declared;
        LatentLeak(c, fs, home, x, there);
      }
    }
  }
}
