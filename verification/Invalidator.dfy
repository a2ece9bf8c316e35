/**
 The diagnostics invalidator: pushed and pulled snapshots per document, the generation that guards pulled
 result IDs against a server restart, and the merged view readers get.
 */
module Invalidator {
  import opened Uris
  import W = Waiters
  import MD = MergeDedup
  import opened Options

  /** One document's part of a pull report. */
  datatype Doc<D> = Full(resultId: string, items: seq<D>) | Unchanged(resultId: string) | Unrecognised

  /** A document report and the reports of its related documents. */
  datatype Report<D> = Report(primary: Doc<D>, related: map<Uri, Doc<D>>)

  // ---- what a report means for one document ----------------------------------------------------

  /** A document's pulled snapshot, the result ID known for it, and when it was last confirmed. */
  datatype Slot<D> = Slot(items: Option<seq<D>>, id: Option<string>, at: Option<int>)

  /** The slot after one document report, and whether the report could be applied. */
  function Take<D>(slot: Slot<D>, doc: Doc<D>, now: int): (Slot<D>, bool) {
    match doc
    case Full(resultId, items) => (Slot(Some(items), if resultId == "" then None else Some(resultId), Some(now)), true)
    case Unchanged(resultId) => if slot.id == Some(resultId) then (slot.(at := Some(now)), true) else (slot, false)
    case Unrecognised => (slot, false)
  }

  /** What a report says about u: its primary part first, then its related part if u is among those done. */
  function DocsAmong<D>(uri: Uri, report: Report<D>, done: set<Uri>, u: Uri): seq<Doc<D>>
    requires done <= report.related.Keys
  {
    if u == "" then []
    else (if u == uri then [report.primary] else []) + (if u in done then [report.related[u]] else [])
  }

  /** What the whole report says about u. */
  function DocsFor<D>(uri: Uri, report: Report<D>, u: Uri): seq<Doc<D>> {
    DocsAmong(uri, report, report.related.Keys, u)
  }

  /** The slot after several reports, and whether every one could be applied. */
  function TakeAll<D>(slot: Slot<D>, docs: seq<Doc<D>>, now: int): (Slot<D>, bool) {
    if docs == [] then (slot, true)
    else
      var (before, ok) := TakeAll(slot, docs[..|docs| - 1], now);
      var (after, last) := Take(before, docs[|docs| - 1], now);
      (after, ok && last)
  }

  /** The documents a report covers. */
  function Covered<D>(uri: Uri, report: Report<D>): set<Uri> {
    ({uri} + report.related.Keys) - {""}
  }

  /** The pulled state as a value. */
  datatype Pulls<D> = Pulls(items: map<Uri, seq<D>>, ids: map<Uri, string>, times: map<Uri, int>)

  function SlotOf<D>(p: Pulls<D>, u: Uri): Slot<D> {
    Slot(if u in p.items then Some(p.items[u]) else None, if u in p.ids then Some(p.ids[u]) else None,
         if u in p.times then Some(p.times[u]) else None)
  }

  /** Where the recording of a report has got to with document u: its slot, and the two verdict sets. */
  ghost predicate ProgressAt<D>(was: Pulls<D>, now: Pulls<D>, clock: int, docs: seq<Doc<D>>, applied: set<Uri>,
                                unresolved: set<Uri>, u: Uri) {
    SlotOf(now, u) == TakeAll(SlotOf(was, u), docs, clock).0 &&
    (u in unresolved <==> docs != [] && !TakeAll(SlotOf(was, u), docs, clock).1) &&
    (u in applied || u in unresolved <==> docs != []) &&
    (u in applied ==> u in now.items)
  }

  ghost predicate Progress<D>(was: Pulls<D>, now: Pulls<D>, clock: int, uri: Uri, report: Report<D>, done: set<Uri>,
                              applied: set<Uri>, unresolved: set<Uri>)
    requires done <= report.related.Keys
  {
    forall u :: ProgressAt(was, now, clock, DocsAmong(uri, report, done, u), applied, unresolved, u)
  }

  lemma TakeAllSnoc<D>(slot: Slot<D>, docs: seq<Doc<D>>, doc: Doc<D>, now: int)
    ensures var (before, ok) := TakeAll(slot, docs, now);
      TakeAll(slot, docs + [doc], now) == (Take(before, doc, now).0, ok && Take(before, doc, now).1)
  {
  }

  /** Recording one more report on u. */
  lemma ProgressHere<D>(was: Pulls<D>, now: Pulls<D>, now': Pulls<D>, clock: int, docs: seq<Doc<D>>, doc: Doc<D>,
                        applied: set<Uri>, unresolved: set<Uri>, u: Uri, ok: bool)
    requires ProgressAt(was, now, clock, docs, applied, unresolved, u)
    requires (SlotOf(now', u), ok) == Take(SlotOf(now, u), doc, clock) && (ok ==> u in now'.items)
    ensures ProgressAt(was, now', clock, docs + [doc], if ok then applied + {u} else applied,
                       if ok then unresolved else unresolved + {u}, u)
  {
  }

  /** It changes nothing for any other document. */
  lemma ProgressThere<D>(was: Pulls<D>, now: Pulls<D>, now': Pulls<D>, clock: int, docs: seq<Doc<D>>,
                         applied: set<Uri>, unresolved: set<Uri>, u: Uri, ok: bool, v: Uri)
    requires ProgressAt(was, now, clock, docs, applied, unresolved, v) && v != u && SlotOf(now', v) == SlotOf(now, v)
    ensures ProgressAt(was, now', clock, docs, if ok then applied + {u} else applied,
                       if ok then unresolved else unresolved + {u}, v)
  {
  }

  lemma DocsAmongStep<D>(uri: Uri, report: Report<D>, done: set<Uri>, u: Uri, v: Uri)
    requires done <= report.related.Keys && u in report.related && u !in done && u != ""
    ensures DocsAmong(uri, report, done + {u}, v) ==
      DocsAmong(uri, report, done, v) + if v == u then [report.related[u]] else []
  {
  }

  /** The verdict sets of a whole report. */
  lemma Verdicts<D>(was: Pulls<D>, now: Pulls<D>, clock: int, uri: Uri, report: Report<D>, applied: set<Uri>, unresolved: set<Uri>)
    requires Progress(was, now, clock, uri, report, report.related.Keys, applied, unresolved)
    ensures applied + unresolved == Covered(uri, report)
    ensures forall u :: u in applied ==> u in now.items
    ensures forall u :: SlotOf(now, u) == TakeAll(SlotOf(was, u), DocsFor(uri, report, u), clock).0
    ensures forall u :: u in Covered(uri, report) ==>
      (u in unresolved <==> !TakeAll(SlotOf(was, u), DocsFor(uri, report, u), clock).1)
  {
    forall u
      ensures u in applied + unresolved <==> u in Covered(uri, report)
      ensures u in applied ==> u in now.items
      ensures SlotOf(now, u) == TakeAll(SlotOf(was, u), DocsFor(uri, report, u), clock).0
      ensures u in Covered(uri, report) ==>
        (u in unresolved <==> !TakeAll(SlotOf(was, u), DocsFor(uri, report, u), clock).1)
    {
      assert ProgressAt(was, now, clock, DocsFor(uri, report, u), applied, unresolved, u);
    }
  }

  lemma EmptyUriCoversNothing<D>(was: Pulls<D>, now: Pulls<D>, clock: int, uri: Uri, report: Report<D>, done: set<Uri>,
                                 applied: set<Uri>, unresolved: set<Uri>)
    requires done <= report.related.Keys && "" in report.related
    requires Progress(was, now, clock, uri, report, done, applied, unresolved)
    ensures Progress(was, now, clock, uri, report, done + {""}, applied, unresolved)
  {
    forall v ensures ProgressAt(was, now, clock, DocsAmong(uri, report, done + {""}, v), applied, unresolved, v) {
      assert DocsAmong(uri, report, done + {""}, v) == DocsAmong(uri, report, done, v);
    }
  }

  lemma ProgressStep<D>(was: Pulls<D>, now: Pulls<D>, now': Pulls<D>, clock: int, uri: Uri, report: Report<D>, done: set<Uri>,
                        applied: set<Uri>, unresolved: set<Uri>, u: Uri, ok: bool)
    requires done <= report.related.Keys && u in report.related && u !in done && u != ""
    requires Progress(was, now, clock, uri, report, done, applied, unresolved)
    requires (SlotOf(now', u), ok) == Take(SlotOf(now, u), report.related[u], clock) && (ok ==> u in now'.items)
    requires forall v :: v != u ==> SlotOf(now', v) == SlotOf(now, v)
    ensures Progress(was, now', clock, uri, report, done + {u}, if ok then applied + {u} else applied,
                     if ok then unresolved else unresolved + {u})
  {
    forall v
      ensures ProgressAt(was, now', clock, DocsAmong(uri, report, done + {u}, v), if ok then applied + {u} else applied,
                         if ok then unresolved else unresolved + {u}, v)
    {
      var docs := DocsAmong(uri, report, done, v);
      assert ProgressAt(was, now, clock, docs, applied, unresolved, v);
      DocsAmongStep(uri, report, done, u, v);
      if v == u {
        ProgressHere(was, now, now', clock, docs, report.related[u], applied, unresolved, u, ok);
      } else {
        assert docs + [] == docs;
        ProgressThere(was, now, now', clock, docs, applied, unresolved, u, ok, v);
      }
    }
  }

  // ---- what a report does to a document -------------------------------------------------------

  /**
   One part of a report: a full one is held as it came, its ID kept unless empty; an unchanged one is good only
   if it names the ID held, and confirms what is held; an unrecognised one does nothing and is not good.
   */
  ghost predicate PartSays<D>(was: Slot<D>, now: Slot<D>, doc: Doc<D>, ok: bool, clock: int) {
    match doc
    case Full(id, items) =>
      ok && now.items == Some(items) && now.at == Some(clock) && (now.id.Some? <==> id != "") && now.id != Some("") &&
      (now.id.Some? ==> now.id.value == id)
    case Unchanged(id) =>
      (ok <==> was.id.Some? && was.id.value == id) && now.items == was.items && now.id == was.id &&
      (if ok then now.at == Some(clock) else now.at == was.at)
    case Unrecognised => !ok && now == was
  }

  /** The only part of the report about u, if it has just one. */
  predicate OnePart<D>(uri: Uri, report: Report<D>, u: Uri) {
    u != "" && ((u == uri && u !in report.related) || (u != uri && u in report.related))
  }

  function PartOf<D>(uri: Uri, report: Report<D>, u: Uri): Doc<D>
    requires OnePart(uri, report, u)
  {
    if u == uri then report.primary else report.related[u]
  }

  /** What the whole report does to u: nothing, its one part, or its primary part and then its related one. */
  ghost predicate Recorded<D(!new)>(uri: Uri, report: Report<D>, u: Uri, was: Slot<D>, now: Slot<D>, ok: bool, clock: int) {
    (u == "" || (u != uri && u !in report.related) ==> now == was && !ok) &&
    (OnePart(uri, report, u) ==> PartSays(was, now, PartOf(uri, report, u), ok, clock)) &&
    (u != "" && u == uri && u in report.related ==>
       exists mid, first, second ::
         PartSays(was, mid, report.primary, first, clock) &&
         PartSays(mid, now, report.related[u], second, clock) && ok == (first && second))
  }

  lemma TakeSays<D>(slot: Slot<D>, doc: Doc<D>, clock: int)
    ensures PartSays(slot, Take(slot, doc, clock).0, doc, Take(slot, doc, clock).1, clock)
  {
  }

  lemma TakesRecord<D(!new)>(uri: Uri, report: Report<D>, u: Uri, was: Slot<D>, now: Slot<D>, ok: bool, clock: int)
    requires now == TakeAll(was, DocsFor(uri, report, u), clock).0
    requires ok <==> u in Covered(uri, report) && TakeAll(was, DocsFor(uri, report, u), clock).1
    ensures Recorded(uri, report, u, was, now, ok, clock)
  {
    if OnePart(uri, report, u) {
      var doc := PartOf(uri, report, u);
      assert DocsFor(uri, report, u) == [] + [doc];
      TakeAllSnoc(was, [], doc, clock);
      TakeSays(was, doc, clock);
    } else if u != "" && u == uri {
      var (mid, first) := Take(was, report.primary, clock);
      assert DocsFor(uri, report, u) == [report.primary] + [report.related[u]];
      assert [report.primary] == [] + [report.primary];
      TakeAllSnoc(was, [], report.primary, clock);
      TakeAllSnoc(was, [report.primary], report.related[u], clock);
      TakeSays(was, report.primary, clock);
      TakeSays(mid, report.related[u], clock);
    }
  }

  lemma ReportRecorded<D(!new)>(was: Pulls<D>, now: Pulls<D>, clock: int, uri: Uri, report: Report<D>, applied: set<Uri>,
                                unresolved: set<Uri>)
    requires applied !! unresolved && applied + unresolved == Covered(uri, report)
    requires forall u :: SlotOf(now, u) == TakeAll(SlotOf(was, u), DocsFor(uri, report, u), clock).0
    requires forall u :: u in Covered(uri, report) ==>
      (u in unresolved <==> !TakeAll(SlotOf(was, u), DocsFor(uri, report, u), clock).1)
    ensures forall u :: Recorded(uri, report, u, SlotOf(was, u), SlotOf(now, u), u in applied, clock)
    ensures forall u :: OnePart(uri, report, u) && PartOf(uri, report, u).Unchanged? ==>
      (u in applied <==> u in was.ids && was.ids[u] == PartOf(uri, report, u).resultId)
    ensures forall u :: OnePart(uri, report, u) && PartOf(uri, report, u).Full? ==>
      u in applied && u in now.items && now.items[u] == PartOf(uri, report, u).items
  {
    forall u ensures Recorded(uri, report, u, SlotOf(was, u), SlotOf(now, u), u in applied, clock) {
      TakesRecord(uri, report, u, SlotOf(was, u), SlotOf(now, u), u in applied, clock);
    }
    forall u | OnePart(uri, report, u)
      ensures PartSays(SlotOf(was, u), SlotOf(now, u), PartOf(uri, report, u), u in applied, clock)
    {
      assert Recorded(uri, report, u, SlotOf(was, u), SlotOf(now, u), u in applied, clock);
    }
  }

  // ---- the invalidator ------------------------------------------------------------------------

  class Invalidator<D(!new), K(==)> {
    const keyOf: D -> K
    const waiters: W.WaiterTable
    var diags: map<Uri, seq<D>>
    var diagTimes: map<Uri, int>
    var pullDiags: map<Uri, seq<D>>
    var pullResultIDs: map<Uri, string>
    var pullTimes: map<Uri, int>
    var pullGen: nat
    /** The generation of the request each pulled snapshot answered. */
    ghost var asked: map<Uri, nat>

    ghost predicate Valid()
      reads this, waiters
    {
      waiters.Valid() && diagTimes.Keys == diags.Keys && PullsSound()
    }

    ghost predicate PullsSound()
      reads this
    {
      pullResultIDs.Keys <= pullDiags.Keys && pullTimes.Keys == pullDiags.Keys && asked.Keys == pullDiags.Keys &&
      "" !in pullDiags
    }

    /** No pulled snapshot, and no result ID, is left from an earlier generation. */
    ghost predicate Current()
      reads this
    {
      forall u :: u in asked ==> asked[u] == pullGen
    }

    ghost function View(): Pulls<D>
      reads this
    {
      Pulls(pullDiags, pullResultIDs, pullTimes)
    }

    constructor (keyOf: D -> K)
      ensures Valid() && Current() && this.keyOf == keyOf
    {
      this.keyOf := keyOf;
      waiters := new W.WaiterTable();
      diags, diagTimes := map[], map[];
      pullDiags, pullResultIDs, pullTimes, pullGen, asked := map[], map[], map[], 0, map[];
    }

    /** One publishDiagnostics notification. */
    method Handle(uri: Uri, items: seq<D>, now: int)
      requires Valid()
      modifies this`diags, this`diagTimes, waiters
      ensures Valid()
      ensures uri == "" ==> diags == old(diags) && diagTimes == old(diagTimes) && waiters.waits == old(waiters.waits)
      ensures uri != "" ==> diags == old(diags)[uri := items] && diagTimes == old(diagTimes)[uri := now]
      ensures uri != "" ==> waiters.waits == W.Wake(W.Wake(old(waiters.waits), uri), W.ANY_URI)
    {
      if uri == "" {
        return;
      }
      diags := diags[uri := items];
      diagTimes := diagTimes[uri := now];
      waiters.Publish(uri);
    }

    // ---- pulls ----------------------------------------------------------------------------------

    method RecordPullFull(uri: Uri, resultId: string, items: seq<D>, now: int, ghost generation: nat)
      requires PullsSound() && uri != ""
      modifies this`pullDiags, this`pullResultIDs, this`pullTimes, this`asked
      ensures PullsSound() && asked == old(asked)[uri := generation]
      ensures pullDiags == old(pullDiags)[uri := items] && pullTimes == old(pullTimes)[uri := now]
      ensures pullResultIDs == if resultId == "" then old(pullResultIDs) - {uri} else old(pullResultIDs)[uri := resultId]
    {
      pullDiags := pullDiags[uri := items];
      pullTimes := pullTimes[uri := now];
      asked := asked[uri := generation];
      if resultId != "" {
        pullResultIDs := pullResultIDs[uri := resultId];
      } else {
        pullResultIDs := pullResultIDs - {uri};
      }
    }

    method RecordPullUnchanged(uri: Uri, resultId: string, now: int) returns (ok: bool)
      requires PullsSound() && uri != ""
      modifies this`pullTimes
      ensures PullsSound() && ok == (uri in pullResultIDs && pullResultIDs[uri] == resultId)
      ensures pullTimes == if ok then old(pullTimes)[uri := now] else old(pullTimes)
    {
      if uri !in pullResultIDs || pullResultIDs[uri] != resultId {
        return false;
      }
      pullTimes := pullTimes[uri := now];
      return true;
    }

    /** Records one document of a report. */
    method RecordDoc(uri: Uri, doc: Doc<D>, now: int, ghost generation: nat) returns (ok: bool)
      requires PullsSound() && uri != ""
      modifies this`pullDiags, this`pullResultIDs, this`pullTimes, this`asked
      ensures PullsSound() && (SlotOf(View(), uri), ok) == Take(SlotOf(old(View()), uri), doc, now)
      ensures forall u :: u != uri ==> SlotOf(View(), u) == SlotOf(old(View()), u)
      ensures ok ==> uri in pullDiags
      ensures asked == if doc.Full? then old(asked)[uri := generation] else old(asked)
    {
      match doc
      case Full(resultId, items) =>
        RecordPullFull(uri, resultId, items, now, generation);
        return true;
      case Unchanged(resultId) =>
        ok := RecordPullUnchanged(uri, resultId, now);
      case Unrecognised =>
        return false;
    }

    /** Records the report's primary document. */
    method RecordPrimary(uri: Uri, report: Report<D>, now: int, ghost generation: nat)
        returns (applied: set<Uri>, unresolved: set<Uri>)
      requires PullsSound()
      modifies this`pullDiags, this`pullResultIDs, this`pullTimes, this`asked
      ensures PullsSound() && Progress(old(View()), View(), now, uri, report, {}, applied, unresolved)
      ensures asked == old(asked) || asked == old(asked)[uri := generation]
    {
      applied, unresolved := {}, {};
      if uri != "" {
        var ok := RecordDoc(uri, report.primary, now, generation);
        if ok {
          applied := {uri};
        } else {
          unresolved := {uri};
        }
        assert DocsAmong(uri, report, {}, uri) == [report.primary];
        assert [report.primary] == [] + [report.primary];
        TakeAllSnoc(SlotOf(old(View()), uri), [], report.primary, now);
      }
    }

    /** Records the related documents, in their listing's order. */
    method RecordRelated(uri: Uri, report: Report<D>, now: int, applied0: set<Uri>, unresolved0: set<Uri>,
                         ghost generation: nat, ghost was: Pulls<D>)
        returns (applied: set<Uri>, unresolved: set<Uri>)
      requires PullsSound() && Progress(was, View(), now, uri, report, {}, applied0, unresolved0)
      modifies this`pullDiags, this`pullResultIDs, this`pullTimes, this`asked
      ensures PullsSound() && Progress(was, View(), now, uri, report, report.related.Keys, applied, unresolved)
      ensures forall u :: u in asked ==> asked[u] == generation || (u in old(asked) && asked[u] == old(asked)[u])
    {
      applied, unresolved := applied0, unresolved0;
      var related := SortedUris(report.related.Keys);
      assert Members(related[..0]) == {};
      for i := 0 to |related|
        invariant PullsSound() && Members(related[..i]) <= report.related.Keys
        invariant Progress(was, View(), now, uri, report, Members(related[..i]), applied, unresolved)
        invariant forall u :: u in asked ==> asked[u] == generation || (u in old(asked) && asked[u] == old(asked)[u])
      {
        var u := related[i];
        NextMember(related, i);
        if u != "" {
          ghost var before := View();
          var ok := RecordDoc(u, report.related[u], now, generation);
          ProgressStep(was, before, View(), now, uri, report, Members(related[..i]), applied, unresolved, u, ok);
          applied := if ok then applied + {u} else applied;
          unresolved := if ok then unresolved else unresolved + {u};
        } else {
          EmptyUriCoversNothing(was, View(), now, uri, report, Members(related[..i]), applied, unresolved);
        }
      }
      assert related[..|related|] == related;
    }

    /** Every document a dropped report covered, so that none of them is taken for clean. */
    method DroppedUris(uri: Uri, report: Report<D>) returns (uris: seq<Uri>)
      ensures Sorted(uris) && Members(uris) == Covered(uri, report)
    {
      var covered: set<Uri> := if uri != "" then {uri} else {};
      covered := covered + (report.related.Keys - {""});
      uris := SortedUris(covered);
    }

    /**
     Records a report under one hold of the lock. Each document ends where its own parts of the report, in
     order, take it; it is applied when every part could be, and unresolved when some part could not; the
     two listings are sorted, disjoint and cover the report; a stale generation drops the report whole.
     */
    method RecordPullResult(uri: Uri, report: Report<D>, checkGen: bool, gen: nat, now: int, ghost generation: nat)
        returns (applied: seq<Uri>, unresolved: seq<Uri>)
      requires Valid()
      modifies this`pullDiags, this`pullResultIDs, this`pullTimes, this`asked
      ensures Valid() && Sorted(applied) && Sorted(unresolved)
      ensures Members(applied) !! Members(unresolved) && Members(applied) + Members(unresolved) == Covered(uri, report)
      ensures forall u :: u in Members(applied) || u in Members(unresolved) <==> u != "" && (u == uri || u in report.related)
      ensures checkGen && gen != pullGen ==> applied == [] && View() == old(View()) && asked == old(asked)
      ensures !(checkGen && gen != pullGen) ==> forall u ::
        SlotOf(View(), u) == TakeAll(SlotOf(old(View()), u), DocsFor(uri, report, u), now).0
      ensures !(checkGen && gen != pullGen) ==> forall u :: u in Covered(uri, report) ==>
        (u in Members(applied) <==> TakeAll(SlotOf(old(View()), u), DocsFor(uri, report, u), now).1)
      ensures !(checkGen && gen != pullGen) ==> forall u ::
        Recorded(uri, report, u, SlotOf(old(View()), u), SlotOf(View(), u), u in Members(applied), now)
      ensures !(checkGen && gen != pullGen) ==> forall u ::
        OnePart(uri, report, u) && PartOf(uri, report, u).Unchanged? ==>
          (u in Members(applied) <==> u in old(pullResultIDs) && old(pullResultIDs)[u] == PartOf(uri, report, u).resultId)
      ensures !(checkGen && gen != pullGen) ==> forall u ::
        OnePart(uri, report, u) && PartOf(uri, report, u).Full? ==>
          u in Members(applied) && u in pullDiags && pullDiags[u] == PartOf(uri, report, u).items
      ensures forall u :: u in Members(applied) ==> u in pullDiags
      ensures forall u :: u in asked ==> asked[u] == generation || (u in old(asked) && asked[u] == old(asked)[u])
    {
      if checkGen && gen != pullGen {
        applied := [];
        unresolved := DroppedUris(uri, report);
        return;
      }
      ghost var was := View();
      var appliedSet, unresolvedSet := RecordPrimary(uri, report, now, generation);
      appliedSet, unresolvedSet := RecordRelated(uri, report, now, appliedSet, unresolvedSet, generation, was);
      Verdicts(was, View(), now, uri, report, appliedSet, unresolvedSet);
      applied := SortedUris(appliedSet - unresolvedSet);
      unresolved := SortedUris(unresolvedSet);
      ReportRecorded(was, View(), now, uri, report, Members(applied), Members(unresolved));
    }

    /**
     The guarded form. The caller captured gen before it sent the request that a server of this generation
     answered, so a snapshot is stored only by a request of the current generation.
     */
    method RecordPullResultAt(uri: Uri, report: Report<D>, gen: nat, now: int, ghost generation: nat)
        returns (applied: seq<Uri>, unresolved: seq<Uri>)
      requires Valid() && Current() && gen <= generation <= pullGen
      modifies this`pullDiags, this`pullResultIDs, this`pullTimes, this`asked
      ensures Valid() && Current()
      ensures gen != pullGen ==> applied == [] && View() == old(View()) && Members(unresolved) == Covered(uri, report)
      ensures gen == pullGen ==> forall u ::
        SlotOf(View(), u) == TakeAll(SlotOf(old(View()), u), DocsFor(uri, report, u), now).0
      ensures gen == pullGen ==> forall u ::
        Recorded(uri, report, u, SlotOf(old(View()), u), SlotOf(View(), u), u in Members(applied), now)
    {
      applied, unresolved := RecordPullResult(uri, report, true, gen, now, generation);
    }

    /** A server (re)start invalidates every result ID this process was given. */
    method ClearPullState()
      requires Valid()
      modifies this`pullDiags, this`pullResultIDs, this`pullTimes, this`asked, this`pullGen
      ensures Valid() && Current() && View() == Pulls(map[], map[], map[]) && pullGen == old(pullGen) + 1
    {
      pullDiags, pullResultIDs, pullTimes, asked := map[], map[], map[], map[];
      pullGen := pullGen + 1;
    }

    // ---- readers --------------------------------------------------------------------------------

    /** What a reader is served for uri: one channel's snapshot as it is, or the union of both. */
    ghost predicate Serves(uri: Uri, served: Option<seq<D>>)
      requires Valid()
      reads this, waiters
    {
      if uri in diags && uri in pullDiags then
        served.Some? && MD.IsUnion(diags[uri], pullDiags[uri], diagTimes[uri], pullTimes[uri], keyOf, served.value)
      else if uri in diags then served == Some(diags[uri])
      else if uri in pullDiags then served == Some(pullDiags[uri])
      else served == None
    }

    method Diagnostics(uri: Uri) returns (served: Option<seq<D>>)
      requires Valid()
      ensures Serves(uri, served)
    {
      if uri !in diags {
        return if uri in pullDiags then Some(pullDiags[uri]) else None;
      }
      if uri !in pullDiags {
        return Some(diags[uri]);
      }
      var merged := MD.MergeDedup(diags[uri], pullDiags[uri], diagTimes[uri], pullTimes[uri], keyOf);
      return Some(merged);
    }

    method AllDiagnostics() returns (out: map<Uri, seq<D>>)
      requires Valid()
      ensures out.Keys == diags.Keys + pullDiags.Keys && forall u :: u in out ==> Serves(u, Some(out[u]))
    {
      out := map[];
      var todo := diags.Keys + pullDiags.Keys;
      while todo != {}
        invariant todo <= diags.Keys + pullDiags.Keys && out.Keys == diags.Keys + pullDiags.Keys - todo
        invariant forall u :: u in out ==> Serves(u, Some(out[u]))
        decreases todo
      {
        var u :| u in todo;
        todo := todo - {u};
        var served := Diagnostics(u);
        out := out[u := served.value];
      }
    }

    /** The later of the two channels' times for each document. */
    method AllDiagnosticTimes() returns (out: map<Uri, int>)
      requires Valid()
      ensures out.Keys == diags.Keys + pullDiags.Keys
      ensures forall u :: u in out ==> (u in diags ==> diagTimes[u] <= out[u]) && (u in pullDiags ==> pullTimes[u] <= out[u])
      ensures forall u :: u in out ==> (u in diags && out[u] == diagTimes[u]) || (u in pullDiags && out[u] == pullTimes[u])
    {
      out := diagTimes;
      var todo := pullTimes.Keys;
      while todo != {}
        invariant todo <= pullTimes.Keys && out.Keys == diags.Keys + (pullDiags.Keys - todo)
        invariant forall u :: u in out && (u in todo || u !in pullDiags) ==> out[u] == diagTimes[u]
        invariant forall u :: u in out && u in pullDiags && u !in todo ==>
          pullTimes[u] <= out[u] && (u in diags ==> diagTimes[u] <= out[u]) &&
          (out[u] == pullTimes[u] || (u in diags && out[u] == diagTimes[u]))
        decreases todo
      {
        var u :| u in todo;
        todo := todo - {u};
        if u !in out || pullTimes[u] > out[u] {
          out := out[u := pullTimes[u]];
        }
      }
    }

    /** The first half of a wait: an answer at once for a tracked document, else a registered waiter. */
    method BeginWait(uri: Uri) returns (served: Option<seq<D>>, ch: Option<W.Chan>)
      requires Valid()
      modifies waiters
      ensures Valid() && Serves(uri, served) && (served.Some? <==> uri in diags || uri in pullDiags)
      ensures served.Some? ==> ch == None && waiters.waits == old(waiters.waits)
      ensures served.None? ==> ch.Some? && ch.value !in old(waiters.waits)
      ensures served.None? ==> waiters.waits == old(waiters.waits)[ch.value := W.Waiting(uri)]
    {
      served := Diagnostics(uri);
      ch := None;
      if served.None? {
        var c := waiters.Subscribe(uri);
        ch := Some(c);
      }
    }
  }
}
