/**
 What the connection's operations come to, read off the fields they leave and the filesystem's answers. Nothing
 here is defined by the functions of ConnSpec that produce it; each predicate is proved to hold of what they
 produce, and to leave them no other choice. This file says when a stored root still stands, where a new shard
 starts and where a call resolves.
 */
module Outcomes {
  import opened Ids
  import opened ConnSpec
  import opened Options
  import Admission

  // ---- folders and rows -----------------------------------------------------------------------

  /** The project found in the folder or, failing that, what the folder makes of itself. */
  ghost predicate Finds(fs: Fs, folder: Path, declared: bool, t: Target) {
    fs.detect(folder) == Some(t) ||
    (fs.detect(folder) == None && t.root == fs.synthesise(folder, declared) && t.lang == "")
  }

  /** A stored root is still a directory that leads to itself. */
  ghost predicate Stands(fs: Fs, root: Path) {
    root != "" && fs.isDir(root) && exists lang :: Finds(fs, root, true, Target(root, lang))
  }

  lemma ResolveFinds(fs: Fs, folder: Path, origin: Origin, t: Target)
    ensures Resolve(fs, folder, origin) == Some(t) <==> Finds(fs, folder, origin == SessionStart, t)
  {
  }

  lemma IntactStands(fs: Fs, root: Path)
    ensures RestoreRootIntact(fs, root) <==> Stands(fs, root)
  {
    if RestoreRootIntact(fs, root) {
      assert Finds(fs, root, true, Target(root, if fs.detect(root).Some? then fs.detect(root).value.lang else ""));
    }
  }

  /** The agent's own row, unless it was written for a shard that was dragged there or its root is gone. */
  ghost predicate OnFile(c: Conn, fs: Fs, id: Id) {
    c.persist && id in c.store.agentPins && c.store.agentPins[id].origin != Roots && Stands(fs, c.store.agentPins[id].root)
  }

  lemma RestorableOnFile(c: Conn, fs: Fs, id: Id)
    ensures Restorable(c, fs, id) == if OnFile(c, fs, id) then Some(c.store.agentPins[id]) else None
  {
    if id in c.store.agentPins {
      IntactStands(fs, c.store.agentPins[id].root);
    }
  }

  // ---- shards ---------------------------------------------------------------------------------

  /** The set of identities a request under id adds to. */
  function Naming(id: Id): set<Id> {
    if id == "" then {} else {id}
  }

  /** Counting this caller, more than one identity uses the connection. */
  ghost predicate Shares(c: Conn, id: Id) {
    |c.seen + Naming(id)| > 1
  }

  /** A named caller of a connection that is shared, or was before the restart, has a shard of its own. */
  ghost predicate Sharded(c: Conn, id: Id) {
    id != "" && (Shares(c, id) || c.priorShared)
  }

  lemma RoutedSharded(c: Conn, id: Id)
    ensures Routed(c, id) <==> Sharded(c, id)
  {
    Admission.SharedWithCounts(c.seen, id);
  }

  ghost predicate HasParent(id: Id) {
    LinkageOf(id) != id && LinkageOf(id) != ""
  }

  ghost predicate Decided(sh: Shard) {
    sh.selfPinned || sh.restored
  }

  /**
   A new shard. It starts from its own row; failing that from its conversation's choice, from its shard or, if it
   has none yet, from its row; failing that from the connection.
   */
  ghost predicate Starts(c: Conn, fs: Fs, id: Id, sh: Shard) {
    var conv := LinkageOf(id);
    !sh.selfPinned && (sh.restored <==> OnFile(c, fs, id)) &&
    (sh.parentSeeded <==> HasParent(id) && conv !in c.shards && OnFile(c, fs, conv)) &&
    (OnFile(c, fs, id) ==> sh.pin == c.store.agentPins[id]) &&
    (!OnFile(c, fs, id) ==>
       (sh.parentSeeded ==> sh.pin == c.store.agentPins[conv]) &&
       (HasParent(id) && conv in c.shards && Decided(c.shards[conv]) ==> sh.pin == c.shards[conv].pin) &&
       (!sh.parentSeeded && !(HasParent(id) && conv in c.shards && Decided(c.shards[conv])) ==> sh.pin == c.pin))
  }

  lemma SeedStarts(c: Conn, fs: Fs, id: Id, sh: Shard)
    ensures Starts(c, fs, id, sh) <==> sh == SeedShard(c, fs, id)
  {
    RestorableOnFile(c, fs, id);
    RestorableOnFile(c, fs, LinkageOf(id));
  }

  /** id has a shard, built just now if there was none; nothing else differs. */
  ghost predicate Builds(c: Conn, fs: Fs, id: Id, c': Conn) {
    c' == c.(shards := c'.shards) && c'.shards.Keys == c.shards.Keys + {id} &&
    (forall x :: x in c.shards ==> c'.shards[x] == c.shards[x]) &&
    (id !in c.shards ==> Starts(c, fs, id, c'.shards[id]))
  }

  lemma ShardBuilt(c: Conn, fs: Fs, id: Id, c': Conn)
    ensures Builds(c, fs, id, c') <==> c' == ShardOf(c, fs, id)
  {
    SeedStarts(c, fs, id, SeedShard(c, fs, id));
    if Builds(c, fs, id, c') {
      SeedStarts(c, fs, id, c'.shards[id]);
      assert c'.shards == ShardOf(c, fs, id).shards;
    }
  }

  /** A refused declaration hangs over the call: the caller's own, or its conversation's while it has chosen nothing. */
  ghost predicate Silenced(c: Conn, id: Id) {
    (id != "" && id in c.refused) ||
    (HasParent(id) && LinkageOf(id) in c.refused && (id in c.shards ==> !Decided(c.shards[id])))
  }

  /** The state a call resolves in. */
  ghost predicate Resolves(c: Conn, fs: Fs, id: Id, c': Conn) {
    if !Silenced(c, id) && Sharded(c, id) then Builds(c, fs, id, c') else c' == c
  }

  lemma EmptyIsOwnLinkage(id: Id)
    requires HasParent(id)
    ensures id != ""
  {
  }

  lemma PendingSilences(c: Conn, id: Id)
    ensures PendingForCall(c, id) <==> Silenced(c, id)
  {
    if HasParent(id) {
      EmptyIsOwnLinkage(id);
    }
  }

  lemma OrientResolves(c: Conn, fs: Fs, id: Id, c': Conn)
    ensures Resolves(c, fs, id, c') <==> c' == Orient(c, fs, id)
  {
    PendingSilences(c, id);
    RoutedSharded(c, id);
    ShardBuilt(c, fs, id, c');
  }

  /** The root it resolves against: none while silenced, its shard's if it has one, else the connection's. */
  ghost predicate Answers(c: Conn, fs: Fs, id: Id, root: Path) {
    if Silenced(c, id) then root == ""
    else if !Sharded(c, id) then root == c.pin.root
    else exists c' :: Builds(c, fs, id, c') && c'.shards[id].pin.root == root
  }

  lemma WorkspaceAnswers(c: Conn, fs: Fs, id: Id, root: Path)
    ensures Answers(c, fs, id, root) <==> root == WorkspaceFor(c, fs, id)
  {
    PendingSilences(c, id);
    RoutedSharded(c, id);
    ShardBuilt(c, fs, id, ShardOf(c, fs, id));
    forall c' | Builds(c, fs, id, c') ensures c' == ShardOf(c, fs, id) {
      ShardBuilt(c, fs, id, c');
    }
  }

  /** A caller asked who it is: a lone subagent of the conversation the connection is linked to gets a shard too. */
  ghost predicate Identifies(c: Conn, fs: Fs, id: Id, c': Conn) {
    if Sharded(c, id) || (HasParent(id) && LinkageOf(id) == c.linked) then Builds(c, fs, id, c') else c' == c
  }

  lemma SlashHasParent(id: Id)
    ensures HasParent(id) <==> '/' in id && LinkageOf(id) != ""
  {
    LinkageIsConversation(id);
  }

  lemma IdentifyIdentifies(c: Conn, fs: Fs, id: Id, c': Conn)
    ensures Identifies(c, fs, id, c') <==> c' == Identify(c, fs, id)
  {
    RoutedSharded(c, id);
    SlashHasParent(id);
    ShardBuilt(c, fs, id, c');
  }
}
