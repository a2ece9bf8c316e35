/** Logical-agent identities and filesystem paths. */
module Ids {

  /** A logical-agent identity: a conversation, or `<conversation>/<agent>` for a subagent. "" is anonymous. */
  type Id = string

  type Path = string

  /** The conversation half of an identity; a plain id is its own linkage. */
  function LinkageOf(id: Id): (linkage: Id)
    ensures linkage <= id
    ensures '/' !in linkage
    ensures |linkage| < |id| ==> id[|linkage|] == '/'
  {
    if id == "" || id[0] == '/' then "" else [id[0]] + LinkageOf(id[1..])
  }

  /** A conversation is its own linkage, so conversations and subagents form a two-level tree. */
  lemma {:induction false} LinkageIsConversation(id: Id)
    ensures LinkageOf(LinkageOf(id)) == LinkageOf(id)
    ensures LinkageOf(id) == id <==> '/' !in id
  {
  }

  lemma {:induction false} NoSlashIsOwnLinkage(id: Id)
    requires '/' !in id
    ensures LinkageOf(id) == id
  {
  }

  /** Containment of canonical roots: path is root or lies beneath it. */
  predicate WithinRoot(path: Path, root: Path) {
    root != "" && (path == root || root + "/" <= path)
  }
}
