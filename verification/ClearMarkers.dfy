/**
 The table of pending /clear announcements. It keeps at most 256 markers; short of being crowded out by
 that many others it is an unbounded set of one-shot markers that lapse after a day.
 */
module ClearMarkers {
  import opened Ids
  import opened Options
  import opened Counting

  /** A day, in nanoseconds. */
  const TTL: int := 24 * 60 * 60 * 1_000_000_000
  const CAP: nat := 256
  const MAX_ID_LEN: nat := 128

  predicate IsSpace(ch: char) {
    ch in {'\t', '\n', '\U{000b}', '\U{000c}', '\r', ' ', '\U{0085}', '\U{00a0}', '\U{1680}', '\U{2028}', '\U{2029}', '\U{202f}',
           '\U{205f}', '\U{3000}'} || '\U{2000}' <= ch <= '\U{200a}'
  }

  function TrimSpace(id: string): string {
    if id == "" then ""
    else if IsSpace(id[0]) then TrimSpace(id[1..])
    else if IsSpace(id[|id| - 1]) then TrimSpace(id[..|id| - 1])
    else id
  }

  predicate AllSpaces(s: string) {
    forall i :: 0 <= i < |s| ==> IsSpace(s[i])
  }

  /** Only spaces are trimmed, and all of them at either end. */
  lemma {:induction false} TrimsSpaces(raw: string) returns (before: string, after: string)
    ensures raw == before + TrimSpace(raw) + after && AllSpaces(before) && AllSpaces(after)
    ensures var id := TrimSpace(raw); id != "" ==> !IsSpace(id[0]) && !IsSpace(id[|id| - 1])
  {
    before, after := "", "";
    if raw == "" {
    } else if IsSpace(raw[0]) {
      before, after := TrimsSpaces(raw[1..]);
      before := [raw[0]] + before;
    } else if IsSpace(raw[|raw| - 1]) {
      before, after := TrimsSpaces(raw[..|raw| - 1]);
      after := after + [raw[|raw| - 1]];
    }
  }

  /** Bytes of a character in UTF-8, the encoding an id's length is counted in. */
  function Utf8Bytes(ch: char): nat {
    var code := ch as int;
    if code < 0x80 then 1 else if code < 0x800 then 2 else if code < 0x1_0000 then 3 else 4
  }

  function ByteLength(id: Id): nat {
    if id == "" then 0 else Utf8Bytes(id[0]) + ByteLength(id[1..])
  }

  /** A plain conversation id: non-empty, bounded, one token, no subagent. */
  predicate ValidClearId(id: Id) {
    id != "" && ByteLength(id) <= MAX_ID_LEN && forall i :: 0 <= i < |id| ==> id[i] > ' ' && id[i] != '/'
  }

  lemma {:induction false} PlainBytes(id: Id)
    requires forall i :: 0 <= i < |id| ==> id[i] as int < 0x80
    ensures ByteLength(id) == |id|
  {
    if id != "" {
      PlainBytes(id[1..]);
    }
  }

  /** Of ids in plain characters, exactly the conversations of up to 128 visible characters can be marked. */
  lemma MarkableIds(id: Id)
    requires forall i :: 0 <= i < |id| ==> id[i] as int < 0x80
    ensures ValidClearId(id) <==>
      LinkageOf(id) == id && 1 <= |id| <= 128 && forall i :: 0 <= i < |id| ==> '!' <= id[i]
  {
    PlainBytes(id);
    LinkageIsConversation(id);
    assert ValidClearId(id) ==> '/' !in id;
  }

  datatype Mark = Mark(id: Id, at: int)

  /** CAP other conversations announced themselves no earlier than a marker made at `at`. */
  ghost predicate Crowd(rivals: map<Id, int>, id: Id, at: int, announced: set<Mark>) {
    |rivals| == CAP && id !in rivals &&
    forall rival :: rival in rivals ==> rivals[rival] >= at && Mark(rival, rivals[rival]) in announced
  }

  /** Some CAP others crowded out id's marker. */
  ghost predicate CrowdedOut(id: Id, marks: map<Id, int>, announced: set<Mark>, crowds: map<Id, map<Id, int>>) {
    id in marks && id in crowds && Crowd(crowds[id], id, marks[id], announced)
  }

  /** Each marker held is the last one made for its conversation; each one missing has lapsed or was crowded out. */
  ghost predicate Sound(expires: map<Id, int>, marks: map<Id, int>, announced: set<Mark>, clock: int,
                        crowds: map<Id, map<Id, int>>) {
    (forall id :: id in expires ==> id != "" && id in marks && expires[id] == marks[id] + TTL) &&
    (forall id :: id in marks ==> marks[id] <= clock && Mark(id, marks[id]) in announced) &&
    (forall id :: id in marks && id !in expires ==>
       marks[id] + TTL <= clock || CrowdedOut(id, marks, announced, crowds))
  }

  lemma LapsedDrops(expires: map<Id, int>, marks: map<Id, int>, announced: set<Mark>, clock: int,
                    crowds: map<Id, map<Id, int>>, id: Id)
    requires Sound(expires, marks, announced, clock, crowds) && id in expires && expires[id] <= clock
    ensures Sound(expires - {id}, marks, announced, clock, crowds)
  {
  }

  lemma LaterSound(expires: map<Id, int>, marks: map<Id, int>, announced: set<Mark>, clock: int,
                   crowds: map<Id, map<Id, int>>, now: int)
    requires Sound(expires, marks, announced, clock, crowds) && clock <= now
    ensures Sound(expires, marks, announced, now, crowds)
  {
  }

  /** Evicting the oldest marker of a full table: its rivals are the rest of the table and the newcomer. */
  lemma EvictionSound(expires: map<Id, int>, marks: map<Id, int>, announced: set<Mark>, clock: int,
                      crowds: map<Id, map<Id, int>>, oldest: Id, id: Id) returns (crowds': map<Id, map<Id, int>>)
    requires Sound(expires, marks, announced, clock, crowds) && Mark(id, clock) in announced
    requires |expires| == CAP && id !in expires && oldest in expires
    requires forall x :: x in expires ==> expires[oldest] <= expires[x]
    ensures Sound(expires - {oldest}, marks, announced, clock, crowds') && |expires - {oldest}| == CAP - 1
  {
    var others := map x | x in expires && x != oldest :: marks[x];
    var rivals := others[id := clock];
    assert others.Keys == expires.Keys - {oldest} && (expires - {oldest}).Keys == expires.Keys - {oldest};
    assert rivals.Keys == others.Keys + {id};
    crowds' := crowds[oldest := rivals];
    CrowdOf(expires, marks, announced, clock, crowds, oldest, id, rivals);
    assert CrowdedOut(oldest, marks, announced, crowds');
  }

  lemma CrowdOf(expires: map<Id, int>, marks: map<Id, int>, announced: set<Mark>, clock: int,
                crowds: map<Id, map<Id, int>>, oldest: Id, id: Id, rivals: map<Id, int>)
    requires Sound(expires, marks, announced, clock, crowds) && Mark(id, clock) in announced
    requires id !in expires && oldest in expires && |rivals| == CAP
    requires forall x :: x in expires ==> expires[oldest] <= expires[x]
    requires forall x :: x in rivals ==> (x == id && rivals[x] == clock) || (x in expires && x != oldest && rivals[x] == marks[x])
    ensures Crowd(rivals, oldest, marks[oldest], announced)
  {
  }

  lemma MarkSound(expires: map<Id, int>, marks: map<Id, int>, announced: set<Mark>, clock: int,
                  crowds: map<Id, map<Id, int>>, id: Id)
    requires Sound(expires, marks, announced, clock, crowds) && Mark(id, clock) in announced && id != ""
    ensures Sound(expires[id := clock + TTL], marks[id := clock], announced, clock, crowds)
  {
  }

  lemma AnnounceSound(expires: map<Id, int>, marks: map<Id, int>, announced: set<Mark>, clock: int,
                      crowds: map<Id, map<Id, int>>, mark: Mark)
    requires Sound(expires, marks, announced, clock, crowds)
    ensures Sound(expires, marks, announced + {mark}, clock, crowds)
  {
  }

  /** What taking id's marker leaves, and what the marker was worth. */
  lemma TakeAt(expires: map<Id, int>, marks: map<Id, int>, announced: set<Mark>, clock: int,
               crowds: map<Id, map<Id, int>>, id: Id, now: int)
    requires Sound(expires, marks, announced, clock, crowds) && clock <= now
    ensures Sound(expires - {id}, marks - {id}, announced, now, crowds)
    ensures id in expires && now < expires[id] ==> id in marks && now < marks[id] + TTL
    ensures id in marks && now < marks[id] + TTL && !(id in expires && now < expires[id]) ==>
      CrowdedOut(id, marks, announced, crowds)
  {
  }

  class MarkerTable {
    var expires: map<Id, int>
    var pendingN: nat
    /** The unbounded table: when each id not taken since was last marked. */
    ghost var marks: map<Id, int>
    /** Every mark ever made, the clock, and who crowded out whom. */
    ghost var announced: set<Mark>
    ghost var clock: int
    ghost var crowds: map<Id, map<Id, int>>

    ghost predicate Valid()
      reads this
    {
      pendingN == |expires| && |expires| <= CAP && Sound(expires, marks, announced, clock, crowds)
    }

    constructor (now: int)
      ensures Valid() && marks == map[] && announced == {} && clock == now
    {
      expires, pendingN, marks, announced, clock, crowds := map[], 0, map[], {}, now, map[];
    }

    /** Drops the markers that have lapsed. */
    method Purge(now: int)
      requires clock == now && Sound(expires, marks, announced, clock, crowds)
      modifies this`expires
      ensures Sound(expires, marks, announced, clock, crowds) && expires.Keys <= old(expires.Keys)
      ensures forall id :: id in expires ==> clock < expires[id]
    {
      var todo := expires.Keys;
      while todo != {}
        invariant Sound(expires, marks, announced, clock, crowds) && expires.Keys <= old(expires.Keys)
        invariant forall id :: id in expires && id !in todo ==> clock < expires[id]
        decreases todo
      {
        var id :| id in todo;
        todo := todo - {id};
        if id in expires && !(now < expires[id]) {
          LapsedDrops(expires, marks, announced, clock, crowds, id);
          expires := expires - {id};
        }
      }
    }

    /** Drops the marker closest to expiry, and says which it was. */
    method EvictOldest() returns (oldest: Id)
      requires expires != map[] && forall id :: id in expires ==> id != ""
      modifies this`expires
      ensures oldest in old(expires) && expires == old(expires) - {oldest}
      ensures forall id :: id in old(expires) ==> old(expires)[oldest] <= old(expires)[id]
    {
      oldest := "";
      var oldestAt := 0;
      var todo := expires.Keys;
      while todo != {}
        invariant todo <= expires.Keys
        invariant oldest == "" ==> todo == expires.Keys
        invariant oldest != "" ==> oldest in expires && oldestAt == expires[oldest]
        invariant oldest != "" ==> forall id :: id in expires && id !in todo ==> oldestAt <= expires[id]
        decreases todo
      {
        var id :| id in todo;
        todo := todo - {id};
        if oldest == "" || expires[id] < oldestAt {
          oldest, oldestAt := id, expires[id];
        }
      }
      var k :| k in expires;
      assert oldest != "";
      expires := expires - {oldest};
    }

    /** Makes room for a newcomer when the table is full. */
    method MakeRoom(id: Id)
      requires Sound(expires, marks, announced, clock, crowds) && |expires| <= CAP
      requires Mark(id, clock) in announced
      modifies this`expires, this`crowds
      ensures Sound(expires, marks, announced, clock, crowds) && (|expires| < CAP || id in expires)
      ensures |expires| <= CAP
    {
      if id !in expires && |expires| >= CAP {
        ghost var was := expires;
        assert was != map[];
        var oldest := EvictOldest();
        crowds := EvictionSound(was, marks, announced, clock, crowds, oldest, id);
      }
    }

    /** Files id's marker, replacing any earlier one, in a table that has room for it. */
    method Enter(id: Id, now: int)
      requires Sound(expires, marks, announced, clock, crowds) && |expires| <= CAP && clock == now && id != ""
      requires Mark(id, now) in announced && (|expires| < CAP || id in expires)
      modifies this`expires, this`marks, this`pendingN
      ensures Valid() && marks == old(marks)[id := now]
    {
      MarkSound(expires, marks, announced, clock, crowds, id);
      OneMoreKey(expires, id, now + TTL);
      expires := expires[id := now + TTL];
      marks := marks[id := now];
      pendingN := |expires|;
    }

    /** Purges, makes room and files the marker, as one critical section. */
    method Announce(id: Id, now: int)
      requires Valid() && clock == now && id != "" && Mark(id, now) in announced
      modifies this`expires, this`marks, this`pendingN, this`crowds
      ensures Valid() && marks == old(marks)[id := now]
    {
      ghost var before := expires;
      Purge(now);
      SubsetSize(expires.Keys, before.Keys);
      MakeRoom(id);
      Enter(id, now);
    }

    /** A valid id's announcement, on record and in the table. */
    method File(id: Id, now: int)
      requires Valid() && clock <= now && id != ""
      modifies this
      ensures Valid() && clock == now && marks == old(marks)[id := now] && announced == old(announced) + {Mark(id, now)}
    {
      LaterSound(expires, marks, announced, clock, crowds, now);
      clock := now;
      AnnounceSound(expires, marks, announced, clock, crowds, Mark(id, now));
      announced := announced + {Mark(id, now)};
      Announce(id, now);
    }

    /** Records that the conversation id was started by /clear. */
    method MarkCleared(raw: string, now: int)
      requires Valid() && clock <= now
      modifies this
      ensures Valid() && clock == now
      ensures marks == if ValidClearId(TrimSpace(raw)) then old(marks)[TrimSpace(raw) := now] else old(marks)
      ensures announced == old(announced) + if ValidClearId(TrimSpace(raw)) then {Mark(TrimSpace(raw), now)} else {}
    {
      var id := TrimSpace(raw);
      var valid := ValidClearId(id);
      if valid {
        File(id, now);
      } else {
        LaterSound(expires, marks, announced, clock, crowds, now);
        clock := now;
      }
    }

    /** Removes id's marker, and says when it would have lapsed. */
    method Remove(id: Id) returns (exp: Option<int>)
      requires Valid()
      modifies this`expires, this`pendingN
      ensures pendingN == |expires| && |expires| <= CAP && expires == old(expires) - {id}
      ensures exp == if id in old(expires) then Some(old(expires)[id]) else None
    {
      if !(pendingN > 0) || id !in expires {
        assert expires - {id} == expires;
        return None;
      }
      exp := Some(expires[id]);
      SubsetSize((expires - {id}).Keys, expires.Keys);
      expires := expires - {id};
      pendingN := |expires|;
    }

    /**
     Consumes id's marker. A yes is a marker not taken since it was made and not yet lapsed; a no when
     there was one means the table had filled up with CAP others announced no earlier.
     */
    method Take(id: Id, now: int) returns (live: bool)
      requires Valid() && clock <= now
      modifies this
      ensures Valid() && clock == now && marks == old(marks) - {id} && announced == old(announced)
      ensures live ==> id in old(marks) && now < old(marks)[id] + TTL
      ensures id in old(marks) && now < old(marks)[id] + TTL && !live ==>
        CrowdedOut(id, old(marks), announced, old(crowds))
    {
      LaterSound(expires, marks, announced, clock, crowds, now);
      clock := now;
      live := TakeNow(id, now);
    }

    method TakeNow(id: Id, now: int) returns (live: bool)
      requires Valid() && clock == now
      modifies this`expires, this`pendingN, this`marks
      ensures Valid() && marks == old(marks) - {id}
      ensures live ==> id in old(marks) && now < old(marks)[id] + TTL
      ensures id in old(marks) && now < old(marks)[id] + TTL && !live ==>
        CrowdedOut(id, old(marks), announced, crowds)
    {
      TakeAt(expires, marks, announced, clock, crowds, id, now);
      var exp := Remove(id);
      marks := marks - {id};
      return exp.Some? && now < exp.value;
    }
  }

  lemma OneMoreKey(m: map<Id, int>, id: Id, v: int)
    ensures |m[id := v]| == |m| + if id in m then 0 else 1
  {
  }
}
