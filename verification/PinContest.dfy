/**
 The connection's history of forced pin displacements. The daemon keeps eight of them; the flag it latches
 is nevertheless the one the whole history would give.
 */
module PinContest {
  import opened Ids

  /** Thirty minutes, in nanoseconds. */
  const WINDOW: int := 30 * 60 * 1_000_000_000
  const MIN_DISPLACEMENTS: nat := 2
  const RING: nat := 8

  datatype Displacement = Displacement(from: Path, to: Path, at: int)

  /** Displacements i and j name different destinations. */
  predicate Differ(history: seq<Displacement>, i: int, j: int) {
    0 <= i < j < |history| && history[i].to != "" && history[j].to != "" && history[i].to != history[j].to
  }

  predicate InWindow(d: Displacement, now: int) {
    now - d.at <= WINDOW
  }

  /** The verdict on an unbounded history: two different roots were force-taken within the window. */
  ghost predicate Fought(history: seq<Displacement>) {
    exists i, j :: Differ(history, i, j) && InWindow(history[i], history[j].at)
  }

  predicate Chronological(history: seq<Displacement>) {
    forall i, j :: 0 <= i <= j < |history| ==> history[i].at <= history[j].at
  }

  /** A displacement always names where the pin went. */
  predicate AllNamed(history: seq<Displacement>) {
    forall i :: 0 <= i < |history| ==> history[i].to != ""
  }

  function Latest(history: seq<Displacement>): seq<Displacement> {
    if |history| <= RING then history else history[|history| - RING..]
  }

  /** Two in-window displacements of the ring name different destinations. */
  ghost predicate RingContested(ring: seq<Displacement>, now: int) {
    exists i, j :: Differ(ring, i, j) && InWindow(ring[i], now) && InWindow(ring[j], now)
  }

  lemma AtLeastTwo<T>(s: set<T>, x: T, y: T)
    requires x in s && y in s && x != y
    ensures |s| >= 2
  {
    var rest := s - {x};
    assert y in rest && |rest| == |s| - 1;
  }

  lemma TwoOf<T>(s: set<T>) returns (x: T, y: T)
    requires |s| >= 2
    ensures x in s && y in s && x != y
  {
    x :| x in s;
    var rest := s - {x};
    assert |rest| == |s| - 1;
    y :| y in rest;
  }

  /** The destinations named inside the window by the first k entries. */
  ghost function Dests(ring: seq<Displacement>, k: nat, now: int): (dests: set<Path>)
    requires k <= |ring|
    ensures forall i :: 0 <= i < k && InWindow(ring[i], now) && ring[i].to != "" ==> ring[i].to in dests
    ensures forall to :: to in dests ==> exists i :: 0 <= i < k && InWindow(ring[i], now) && to == ring[i].to != ""
  {
    if k == 0 then {}
    else
      var before := Dests(ring, k - 1, now);
      var d := ring[k - 1];
      if InWindow(d, now) && d.to != "" then before + {d.to} else before
  }

  lemma DestsDecide(ring: seq<Displacement>, now: int)
    ensures |Dests(ring, |ring|, now)| >= 2 <==> RingContested(ring, now)
  {
    var dests := Dests(ring, |ring|, now);
    if |dests| >= 2 {
      var x, y := TwoOf(dests);
      var i :| 0 <= i < |ring| && InWindow(ring[i], now) && x == ring[i].to != "";
      var j :| 0 <= j < |ring| && InWindow(ring[j], now) && y == ring[j].to != "";
      assert Differ(ring, if i < j then i else j, if i < j then j else i);
    }
    if RingContested(ring, now) {
      var i, j :| Differ(ring, i, j) && InWindow(ring[i], now) && InWindow(ring[j], now);
      assert ring[i].to in dests && ring[j].to in dests;
      AtLeastTwo(dests, ring[i].to, ring[j].to);
    }
  }

  /** The daemon's verdict on its ring. */
  method ContestedRing(ring: seq<Displacement>, now: int) returns (contested: bool)
    ensures contested == RingContested(ring, now)
  {
    var count := 0;
    var dests: set<Path> := {};
    for k := 0 to |ring|
      invariant dests == Dests(ring, k, now) && |dests| <= count
    {
      if now - ring[k].at <= WINDOW {
        count := count + 1;
        if ring[k].to != "" {
          dests := dests + {ring[k].to};
        }
      }
      assert dests == Dests(ring, k + 1, now);
    }
    DestsDecide(ring, now);
    return count >= MIN_DISPLACEMENTS && |dests| >= 2;
  }

  /** Between two displacements to different roots, some two neighbours differ. */
  lemma {:induction false} NeighboursDiffer(history: seq<Displacement>, i: int, j: int) returns (k: int)
    requires Differ(history, i, j) && AllNamed(history)
    ensures i <= k < j && Differ(history, k, k + 1)
    decreases j - i
  {
    if history[i + 1].to != history[i].to {
      k := i;
    } else {
      k := NeighboursDiffer(history, i + 1, j);
    }
  }

  /** Whatever the ring shows, the whole history has. */
  lemma RingShowsHistory(h: seq<Displacement>)
    requires Chronological(h) && h != [] && RingContested(Latest(h), h[|h| - 1].at)
    ensures Fought(h)
  {
  }

  /** A fight the last displacement completes shows in the last two entries, which the ring still holds. */
  lemma LastPairShows(h: seq<Displacement>)
    requires Chronological(h) && |h| >= 2 && Differ(h, |h| - 2, |h| - 1) && InWindow(h[|h| - 2], h[|h| - 1].at)
    ensures RingContested(Latest(h), h[|h| - 1].at)
  {
  }

  /** Two neighbours fought, whenever any two did. */
  lemma NeighboursFought(h: seq<Displacement>) returns (k: int)
    requires Chronological(h) && AllNamed(h) && Fought(h)
    ensures Differ(h, k, k + 1) && InWindow(h[k], h[k + 1].at)
  {
    var i, j :| Differ(h, i, j) && InWindow(h[i], h[j].at);
    k := NeighboursDiffer(h, i, j);
    assert h[i].at <= h[k].at && h[k + 1].at <= h[j].at;
  }

  lemma FoughtEarlier(history: seq<Displacement>, d: Displacement)
    requires Fought(history)
    ensures Fought(history + [d])
  {
    var i, j :| Differ(history, i, j) && InWindow(history[i], history[j].at);
    assert Differ(history + [d], i, j) && InWindow((history + [d])[i], (history + [d])[j].at);
  }

  lemma PairFought(history: seq<Displacement>, d: Displacement, k: nat)
    requires k + 1 < |history|
    requires Differ(history + [d], k, k + 1) && InWindow((history + [d])[k], (history + [d])[k + 1].at)
    ensures Fought(history)
  {
  }

  /** One more displacement: what the ring shows of it is all there is to see. */
  lemma RingSeesEnough(history: seq<Displacement>, d: Displacement)
    requires Chronological(history + [d]) && AllNamed(history + [d])
    ensures Fought(history + [d]) <==> Fought(history) || RingContested(Latest(history + [d]), d.at)
  {
    var h := history + [d];
    assert h[|h| - 1] == d;
    if Fought(history) {
      FoughtEarlier(history, d);
    } else if Fought(h) {
      var k := NeighboursFought(h);
      if k + 1 < |history| {
        PairFought(history, d, k);
      } else {
        LastPairShows(h);
      }
    } else if RingContested(Latest(h), d.at) {
      RingShowsHistory(h);
    }
  }

  /** What one more displacement does to the retained history. */
  lemma OneMore(history: seq<Displacement>, d: Displacement)
    requires Chronological(history) && (history != [] ==> history[|history| - 1].at <= d.at)
    ensures Chronological(history + [d])
    ensures Latest(history + [d]) ==
      var kept := Latest(history) + [d]; if |kept| > RING then kept[|kept| - RING..] else kept
    ensures AllNamed(history + [d]) ==> AllNamed(history)
    ensures AllNamed(history + [d]) ==> Fought(history + [d]) == (Fought(history) || RingContested(Latest(history + [d]), d.at))
  {
    if AllNamed(history + [d]) {
      assert forall i :: 0 <= i < |history| ==> (history + [d])[i] == history[i];
      RingSeesEnough(history, d);
    }
  }

  /** Half an hour apart, to the nanosecond, is still a fight if the two went to different roots. */
  lemma WindowEdge(from: Path, a: Path, b: Path, at: int, later: int)
    requires a != "" && b != "" && at <= later
    ensures Fought([Displacement(from, a, at), Displacement(a, b, later)]) <==> a != b && later - at <= 1_800_000_000_000
  {
    var h := [Displacement(from, a, at), Displacement(a, b, later)];
    if a != b && later - at <= 1_800_000_000_000 {
      assert Differ(h, 0, 1) && InWindow(h[0], h[1].at);
    }
  }

  class PinContestState {
    var ring: seq<Displacement>
    var contested: bool
    /** Every displacement ever recorded, and how often record announced one. */
    ghost var history: seq<Displacement>
    ghost var announcements: nat

    ghost predicate Valid()
      reads this
    {
      ring == Latest(history) && Chronological(history) && announcements == (if contested then 1 else 0) &&
      (AllNamed(history) ==> contested == Fought(history))
    }

    constructor ()
      ensures Valid() && history == [] && !contested
    {
      ring, contested, history, announcements := [], false, [], 0;
    }

    /** Reports whether this displacement is the one that made the connection contested. */
    method Record(from: Path, to: Path, now: int) returns (fired: bool)
      requires Valid() && (history != [] ==> history[|history| - 1].at <= now)
      modifies this
      ensures Valid() && history == old(history) + [Displacement(from, to, now)]
      ensures fired == (!old(contested) && contested) && (old(contested) ==> contested)
      ensures announcements == old(announcements) + if fired then 1 else 0
    {
      var d := Displacement(from, to, now);
      ring := ring + [d];
      if |ring| > RING {
        ring := ring[|ring| - RING..];
      }
      OneMore(history, d);
      history := history + [d];
      if contested {
        return false;
      }
      var verdict := ContestedRing(ring, now);
      if !verdict {
        return false;
      }
      contested := true;
      announcements := announcements + 1;
      return true;
    }

    /**
     A forced re-pin, as the mutation lane records it: it displaces somebody only when it leaves a root a
     session_start pinned for another one, so every recorded displacement names its destination.
     */
    method RecordForcedDisplacement(pinnedBySessionStart: bool, prev: Path, root: Path, force: bool, now: int)
        returns (justContested: bool)
      requires Valid() && AllNamed(history) && (history != [] ==> history[|history| - 1].at <= now)
      modifies this
      ensures Valid() && AllNamed(history)
      ensures history == old(history) +
        if force && pinnedBySessionStart && prev != "" && root != "" && prev != root
        then [Displacement(prev, root, now)] else []
      ensures contested == Fought(history)
      ensures justContested == (Fought(history) && !Fought(old(history)))
    {
      if !force || prev == "" || root == "" || prev == root {
        return false;
      }
      if !pinnedBySessionStart {
        return false;
      }
      justContested := Record(prev, root, now);
    }
  }
}
