/**
 Who a connection is linked to: many connections, one table of /clear markers between them. A connection
 linked to one conversation changes hands only at an unstamped session_start or by consuming a marker.
 */
module Linkage {
  import opened Ids
  import opened ConnSpec
  import opened ConnFrames
  import Admission
  import CM = ClearMarkers
  import opened Options

  // ---- one connection -------------------------------------------------------------------------

  /** The durable record mirrors the linkage. */
  predicate LinkStored(c: Conn) {
    c.persist ==> c.store.linkage == c.linked
  }

  /** The call consumes a /clear marker and takes the connection over. */
  predicate HandedOver(c: Conn, e: Event) {
    (e.SessionStartCall? || (e.ToolCall? && !RefusedCall(c, e))) && HandsOver(c, e.stamp, e.marker)
  }

  /** A session_start that succeeds naming a conversation, or no conversation at all. */
  predicate Names(c: Conn, fs: Fs, e: Event, linkage: Id) {
    e.SessionStartCall? && Succeeds(c, fs, e) && e.sessionId != "" && LinkageOf(e.sessionId) == linkage
  }

  lemma BeforeToolLink(c: Conn, stamp: Id, marker: bool)
    requires LinkStored(c)
    ensures LinkStored(BeforeTool(c, stamp, marker))
    ensures BeforeTool(c, stamp, marker).linked == if HandsOver(c, stamp, marker) then stamp else c.linked
    ensures BeforeTool(c, stamp, marker).persist == c.persist
  {
  }

  lemma CommitLink(c: Conn, e: Event)
    requires e.SessionStartCall? && LinkStored(c)
    ensures LinkStored(CommitIdentity(c, e))
    ensures CommitIdentity(c, e).linked ==
      if e.sessionId == "" || KeepsLinkageFor(c, e.stamp, LinkageOf(e.sessionId)) then c.linked
      else LinkageOf(e.sessionId)
  {
  }

  lemma SessionStartLink(c: Conn, fs: Fs, e: Event)
    requires e.SessionStartCall? && LinkStored(c)
    ensures LinkStored(SessionStartStep(c, fs, e))
    ensures var held := if HandsOver(c, e.stamp, e.marker) then e.stamp else c.linked;
      SessionStartStep(c, fs, e).linked ==
        if !Succeeds(c, fs, e) || e.sessionId == "" ||
           (e.stamp != "" && LinkageOf(e.sessionId) != "" && held != "" && held != LinkageOf(e.sessionId))
        then held else LinkageOf(e.sessionId)
  {
    BeforeToolLink(c, e.stamp, e.marker);
    Admission.SessionStartEvidence(c, fs, e);
    BeforeSessionStartFrame(c, fs, e);
    var c1 := BeforeSessionStart(c, fs, e);
    OrientFrame(c1, fs, CallerOf(e));
    RepinWorkspaceFrame(Orient(c1, fs, CallerOf(e)), fs, e);
    CommitLink(Repinned(c, fs, e).0, e);
  }

  lemma ToolCallLink(c: Conn, fs: Fs, e: Event)
    requires e.ToolCall? && LinkStored(c)
    ensures LinkStored(ToolCallStep(c, fs, e))
    ensures ToolCallStep(c, fs, e).linked == if HandedOver(c, e) then e.stamp else c.linked
  {
    if !RefusedCall(c, e) {
      BeforeToolLink(c, e.stamp, e.marker);
      Admission.ToolCallEvidence(c, fs, e);
      ToolCallPersist(c, fs, e);
    }
  }

  lemma ToolCallPersist(c: Conn, fs: Fs, e: Event)
    requires e.ToolCall?
    ensures ToolCallStep(c, fs, e).persist == c.persist
  {
    var c0 := BeforeTool(c, e.stamp, e.marker);
    BeforeToolFrame(c, e.stamp, e.marker);
    AttachForCallFrame(c0, fs, e);
    var c1 := AttachForCall(c0, fs, e);
    OrientFrame(c1, fs, e.stamp);
    ShardOfFrame(if e.resolves then Orient(c1, fs, e.stamp) else c1, fs, e.stamp);
  }

  lemma OtherLink(c: Conn, fs: Fs, e: Event)
    requires (e.RootsChanged? || e.Restart?) && LinkStored(c)
    ensures LinkStored(Step(c, fs, e))
    ensures Step(c, fs, e).linked == if e.Restart? && !c.persist then "" else c.linked
  {
    if e.Restart? {
      RestartFrame(c, fs, e);
    } else if e.folders != [] {
      FirstAttachFrame(c, fs, DetectedFolder(fs, e.folders[0]), Roots);
      RepinFromFrame(c, fs, "", false, e.folders[0], Roots, Live, false);
    }
  }

  lemma StepLinkStored(c: Conn, fs: Fs, e: Event)
    requires LinkStored(c)
    ensures LinkStored(Step(c, fs, e))
  {
    match e
    case SessionStartCall(_, _, _, _, _, _, _) => SessionStartLink(c, fs, e);
    case ToolCall(_, _, _, _, _, _, _) => ToolCallLink(c, fs, e);
    case RootsChanged(_) => OtherLink(c, fs, e);
    case Restart(_, _, _, _, _) => OtherLink(c, fs, e);
  }

  /**
   One step of a connection linked to a conversation: it changes hands only by an unstamped session_start
   naming the new conversation, or by the new conversation's own first call consuming its /clear marker
   while every identity seen answered to the old one; it is unlinked only by a session_start whose
   session_id names no conversation, or by a restart without durable state.
   */
  lemma LinkageOwnership(c: Conn, fs: Fs, e: Event)
    requires LinkStored(c) && c.linked != "" && Step(c, fs, e).linked != c.linked
    ensures var now := Step(c, fs, e).linked;
      if now == "" then Names(c, fs, e, "") || (e.Restart? && !c.persist)
      else
        (Names(c, fs, e, now) && e.stamp == "") ||
        (HandedOver(c, e) && now == e.stamp && now !in c.seen && c.seen != {} && OneConversation(c.seen, c.linked))
  {
    match e
    case SessionStartCall(_, _, _, _, _, _, _) => SessionStartLink(c, fs, e);
    case ToolCall(_, _, _, _, _, _, _) => ToolCallLink(c, fs, e);
    case RootsChanged(_) => OtherLink(c, fs, e);
    case Restart(_, _, _, _, _) => OtherLink(c, fs, e);
  }

  /** A handover leaves the connection linked to its caller, unless the same call goes on to unlink it. */
  lemma HandoverLinks(c: Conn, fs: Fs, e: Event)
    requires LinkStored(c) && HandedOver(c, e)
    ensures Step(c, fs, e).linked == e.stamp || (Step(c, fs, e).linked == "" && Names(c, fs, e, ""))
  {
    if e.SessionStartCall? {
      SessionStartLink(c, fs, e);
    } else {
      ToolCallLink(c, fs, e);
    }
  }

  // ---- many connections, one marker table -----------------------------------------------------

  /** A marker waiting in the table: when it was made, and which of all the announcements it is. */
  datatype Waiting = Waiting(at: int, serial: nat)

  datatype Handover = Handover(conn: nat, key: Id, at: int, serial: nat)

  datatype World = World(
    conns: map<nat, Conn>,
    namespaces: map<nat, string>,
    marks: map<Id, Waiting>,
    announced: seq<CM.Mark>,
    handovers: seq<Handover>,
    clock: int)

  datatype Act =
    | Cleared(raw: string, now: int)
    | Call(k: nat, fs: Fs, event: Event, now: int)

  /** The table's key for a conversation heard on a connection. */
  function MarkerKey(namespace: string, stamp: Id): Id {
    if namespace == "" then stamp else namespace + ":" + stamp
  }

  /** No conversation's key spells another's, of its own namespace or any other, as ids hold no ':'. */
  lemma KeysApart(namespace: string, stamp: Id, namespace': string, stamp': Id)
    requires ':' !in stamp && ':' !in stamp'
    ensures MarkerKey(namespace, stamp) == MarkerKey(namespace', stamp') <==> namespace == namespace' && stamp == stamp'
  {
    var key := MarkerKey(namespace, stamp);
    if key == MarkerKey(namespace', stamp') {
      ColonAt(namespace, stamp);
      ColonAt(namespace', stamp');
      if namespace != "" {
        assert key[..|namespace|] == namespace && key[|namespace| + 1..] == stamp;
      }
      if namespace' != "" {
        assert key[..|namespace'|] == namespace' && key[|namespace'| + 1..] == stamp';
      }
    }
  }

  /** The last ':' of a key ends its namespace; a key of the default namespace has none. */
  lemma ColonAt(namespace: string, stamp: Id)
    requires ':' !in stamp
    ensures var key := MarkerKey(namespace, stamp);
      if namespace == "" then ':' !in key
      else |namespace| < |key| && key[|namespace|] == ':' && forall i :: |namespace| < i < |key| ==> key[i] != ':'
  {
    var key := MarkerKey(namespace, stamp);
    assert namespace != "" ==> forall i :: |namespace| < i < |key| ==> key[i] == stamp[i - |namespace| - 1];
  }

  predicate Waits(w: World, key: Id, now: int) {
    key in w.marks && now < w.marks[key].at + CM.TTL
  }

  /** The marker a call finds is one the table still has, as TakeClear shows of the table's answer. */
  predicate Enabled(w: World, a: Act) {
    w.clock <= a.now &&
    match a
    case Cleared(_, _) => true
    case Call(k, _, e, now) =>
      k in w.conns && k in w.namespaces && (HandedOver(w.conns[k], e) ==> Waits(w, MarkerKey(w.namespaces[k], e.stamp), now))
  }

  /** The table holds no marker the world does not, and knows when each was made. */
  ghost predicate Backs(t: CM.MarkerTable, w: World)
    reads t
  {
    t.Valid() && t.clock == w.clock && forall key :: key in t.marks ==> key in w.marks && t.marks[key] == w.marks[key].at
  }

  /** An announcement goes into the table and the world alike. */
  method AnnounceClear(t: CM.MarkerTable, ghost w: World, raw: string, now: int)
    requires Backs(t, w) && w.clock <= now
    modifies t
    ensures Enabled(w, Cleared(raw, now)) && Backs(t, Apply(w, Cleared(raw, now)))
  {
    t.MarkCleared(raw, now);
  }

  /** A call made on the table's answer is one the world enables, and afterwards the table still backs the world. */
  method TakeClear(t: CM.MarkerTable, ghost w: World, k: nat, fs: Fs, e: Event, namespace: string, now: int)
      returns (live: bool)
    requires Backs(t, w) && w.clock <= now && k in w.conns && k in w.namespaces && w.namespaces[k] == namespace
    requires e.SessionStartCall? || e.ToolCall?
    modifies t
    ensures var call := Call(k, fs, e.(marker := live), now); Enabled(w, call) && Backs(t, Apply(w, call))
  {
    live := t.Take(MarkerKey(namespace, e.stamp), now);
  }

  function Apply(w: World, a: Act): World
    requires Enabled(w, a)
  {
    match a
    case Cleared(raw, now) =>
      var id := CM.TrimSpace(raw);
      if !CM.ValidClearId(id) then w.(clock := now)
      else w.(marks := w.marks[id := Waiting(now, |w.announced|)],
              announced := w.announced + [CM.Mark(id, now)], clock := now)
    case Call(k, fs, e, now) =>
      var c := w.conns[k];
      var w1 := w.(conns := w.conns[k := Step(c, fs, e)], clock := now);
      if !HandedOver(c, e) then w1
      else
        var key := MarkerKey(w.namespaces[k], e.stamp);
        w1.(marks := w.marks - {key},
            handovers := w.handovers + [Handover(k, key, now, w.marks[key].serial)])
  }

  function Play(w: World, acts: seq<Act>): Option<World>
    decreases |acts|
  {
    if acts == [] then Some(w)
    else if !Enabled(w, acts[0]) then None
    else Play(Apply(w, acts[0]), acts[1..])
  }

  /** The announcement a handover consumed: same conversation, made within the TTL before it. */
  predicate Matches(h: Handover, announced: seq<CM.Mark>) {
    h.serial < |announced| && announced[h.serial].id == h.key &&
    announced[h.serial].at <= h.at < announced[h.serial].at + CM.TTL
  }

  predicate Accounted(w: World) {
    (forall key :: key in w.marks ==>
       w.marks[key].serial < |w.announced| && w.announced[w.marks[key].serial] == CM.Mark(key, w.marks[key].at) &&
       w.marks[key].at <= w.clock && !Spent(w, w.marks[key].serial)) &&
    (forall i :: 0 <= i < |w.handovers| ==> Matches(w.handovers[i], w.announced)) &&
    (forall i, j :: 0 <= i < j < |w.handovers| ==> w.handovers[i].serial != w.handovers[j].serial) &&
    (forall k :: k in w.conns ==> LinkStored(w.conns[k]))
  }

  /** Some handover consumed this announcement. */
  predicate Spent(w: World, serial: nat) {
    exists i :: 0 <= i < |w.handovers| && w.handovers[i].serial == serial
  }

  lemma ClearedAccounted(w: World, a: Act)
    requires Accounted(w) && Enabled(w, a) && a.Cleared?
    ensures Accounted(Apply(w, a))
  {
    var w' := Apply(w, a);
    assert forall serial :: Spent(w', serial) == Spent(w, serial);
  }

  lemma CallAccounted(w: World, a: Act)
    requires Accounted(w) && Enabled(w, a) && a.Call?
    ensures Accounted(Apply(w, a))
  {
    var w' := Apply(w, a);
    var c := w.conns[a.k];
    StepLinkStored(c, a.fs, a.event);
    if HandedOver(c, a.event) {
      var key := MarkerKey(w.namespaces[a.k], a.event.stamp);
      HandoverAccounted(w, w', a.k, key, a.now);
    } else {
      assert forall serial :: Spent(w', serial) == Spent(w, serial);
    }
  }

  lemma HandoverAccounted(w: World, w': World, k: nat, key: Id, now: int)
    requires Accounted(w) && w.clock <= now && key in w.marks && now < w.marks[key].at + CM.TTL
    requires w' == w.(conns := w'.conns, clock := now, marks := w.marks - {key},
                      handovers := w.handovers + [Handover(k, key, now, w.marks[key].serial)])
    requires forall x :: x in w'.conns ==> LinkStored(w'.conns[x])
    ensures Accounted(w')
  {
  }

  lemma {:induction false} PlayAccounted(w: World, acts: seq<Act>)
    requires Accounted(w) && Play(w, acts).Some?
    ensures Accounted(Play(w, acts).value)
    decreases |acts|
  {
    if acts == [] {
    } else {
      if acts[0].Cleared? {
        ClearedAccounted(w, acts[0]);
      } else {
        CallAccounted(w, acts[0]);
      }
      PlayAccounted(Apply(w, acts[0]), acts[1..]);
    }
  }

  /**
   Over any run of any number of connections that share the marker table: the handovers are matched
   one-to-one with announcements of the same conversation made no more than the TTL before them.
   */
  lemma HandoversMatched(w: World, acts: seq<Act>)
    requires w.marks == map[] && w.announced == [] && w.handovers == [] && Play(w, acts).Some?
    requires forall k :: k in w.conns ==> LinkStored(w.conns[k])
    ensures var end := Play(w, acts).value;
      (forall i :: 0 <= i < |end.handovers| ==> Matches(end.handovers[i], end.announced)) &&
      (forall i, j :: 0 <= i < j < |end.handovers| ==> end.handovers[i].serial != end.handovers[j].serial)
  {
    PlayAccounted(w, acts);
  }

  /**
   A connection of the run that was linked to one conversation and now is linked to another: an unstamped
   session_start named it, or the call is filed as a handover of a /clear the conversation announced.
   */
  lemma LinkageMovesAccounted(w: World, a: Act, k: nat)
    requires Accounted(w) && Enabled(w, a) && k in w.conns
    requires var before, after := w.conns[k].linked, Apply(w, a).conns[k].linked;
      before != "" && after != "" && after != before
    ensures a.Call? && a.k == k
    ensures var now, w' := Apply(w, a).conns[k].linked, Apply(w, a);
      (Names(w.conns[k], a.fs, a.event, now) && a.event.stamp == "") ||
      (|w'.handovers| == |w.handovers| + 1 && w'.handovers[|w.handovers|].conn == k &&
       w'.handovers[|w.handovers|].key == MarkerKey(w.namespaces[k], now) &&
       Matches(w'.handovers[|w.handovers|], w'.announced) &&
       now !in w.conns[k].seen && OneConversation(w.conns[k].seen, w.conns[k].linked))
  {
    LinkageOwnership(w.conns[k], a.fs, a.event);
    CallAccounted(w, a);
  }
}
