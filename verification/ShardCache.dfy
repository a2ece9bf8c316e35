/**
 The sharded cache of language-server results. Sixteen bounded shards, each evicting expired entries and
 then the least recently used, answer like one unbounded map of entries that expire.
 */
module ShardCache {
  import opened Options
  import opened Counting

  /** A cache key is a string of bytes, prefixed with the document's URI. */
  type Byte = b: int | 0 <= b < 256
  type Key = seq<Byte>

  const NUM_SHARDS := 16
  const WORD := 0x1_0000_0000
  const HOUR: int := 60 * 60 * 1_000_000_000
  const MAX_STAMP: int := 0x7fff_ffff_ffff_ffff

  /** What was stored, and the last moment it may be served. */
  datatype Item<V> = Item(value: V, expiresAt: int)

  datatype Entry<V> = Entry(item: Item<V>, lastAccess: int)

  // ---- choosing a shard -----------------------------------------------------------------------

  /** The key's polynomial hash in unbounded integers. */
  function Poly(key: Key): nat {
    if key == [] then 0 else Poly(key[..|key| - 1]) * 31 + key[|key| - 1]
  }

  function ShardOf(key: Key): nat {
    Poly(key) % NUM_SHARDS
  }

  lemma WrapStep(p: nat, h: nat, b: Byte)
    requires h == p % WORD
    ensures (h * 31 + b) % WORD == (p * 31 + b) % WORD
  {
  }

  /** Reducing to a word first keeps the low four bits. */
  lemma LowBits(p: nat)
    ensures p % WORD % NUM_SHARDS == p % NUM_SHARDS
  {
  }

  /** 32-bit wrap-around never moves a key to another shard. */
  method ShardIndex(key: Key) returns (index: nat)
    ensures index == ShardOf(key) && index < NUM_SHARDS
  {
    var h: nat := 0;
    for i := 0 to |key|
      invariant h == Poly(key[..i]) % WORD
    {
      assert key[..i + 1][..i] == key[..i];
      WrapStep(Poly(key[..i]), h, key[i]);
      h := (h * 31 + key[i]) % WORD;
    }
    assert key[..|key|] == key;
    LowBits(Poly(key));
    return h % NUM_SHARDS;
  }

  predicate HasAt(key: Key, uri: Key, i: nat) {
    i + |uri| <= |key| && key[i..i + |uri|] == uri
  }

  predicate Contains(key: Key, uri: Key) {
    exists i :: 0 <= i <= |key| && HasAt(key, uri, i)
  }

  /** A key contains uri exactly if it is something before uri and something after it. */
  lemma ContainsSplits(key: Key, uri: Key)
    ensures Contains(key, uri) <==> exists before: Key, after: Key :: key == before + uri + after
  {
    if i :| 0 <= i <= |key| && HasAt(key, uri, i) {
      assert key == key[..i] + uri + key[i + |uri|..];
    }
    if before: Key, after: Key :| key == before + uri + after {
      assert HasAt(key, uri, |before|);
    }
  }

  function Sum(counts: seq<int>): int {
    if counts == [] then 0 else Sum(counts[..|counts| - 1]) + counts[|counts| - 1]
  }

  lemma SumSnoc(counts: seq<int>, n: int)
    ensures Sum(counts + [n]) == Sum(counts) + n
  {
  }

  function Without<V>(m: map<Key, V>, uri: Key): map<Key, V> {
    map k | k in m && !Contains(k, uri) :: m[k]
  }

  function Unexpired<V>(entries: map<Key, Entry<V>>, now: int): map<Key, Entry<V>> {
    map k | k in entries && now <= entries[k].item.expiresAt :: entries[k]
  }

  /** The shard after key was used at now, its entry otherwise as it was. */
  function Stamped<V>(entries: map<Key, Entry<V>>, key: Key, now: int): map<Key, Entry<V>>
    requires key in entries
  {
    entries[key := Entry(entries[key].item, now)]
  }

  /** Apart from expired entries, only entries used no later than every other one that is kept were dropped. */
  ghost predicate LeastRecentlyUsed<V>(before: map<Key, Entry<V>>, after: map<Key, Entry<V>>, key: Key, now: int) {
    forall k, j :: k in before && k !in after && now <= before[k].item.expiresAt && j in after && j in before && j != key ==>
      before[k].lastAccess <= before[j].lastAccess
  }

  /** What was dropped although it could still be served. */
  ghost predicate DropsLive<V>(before: map<Key, Entry<V>>, after: map<Key, Entry<V>>, now: int) {
    exists k :: k in before && k !in after && now <= before[k].item.expiresAt
  }

  /**
   What room for key may cost: nothing while the shard has it. Otherwise the expired entries go, and live ones
   only while the shard would be over its budget.
   */
  ghost predicate MakesRoom<V>(before: map<Key, Entry<V>>, after: map<Key, Entry<V>>, key: Key, now: int, budget: nat) {
    if budget == 0 || |before.Keys + {key}| <= budget then after.Keys == before.Keys + {key}
    else
      (forall k :: k in after && k != key ==> k in before && now <= before[k].item.expiresAt) &&
      (DropsLive(before, after, now) ==> |after| >= budget)
  }

  /** The shard is within its budget, if it has one. */
  predicate Fits<V>(entries: map<Key, Entry<V>>, budget: nat) {
    budget > 0 ==> |entries| <= budget && [] !in entries
  }

  /** A shard after item was stored under key: everything else kept is as it was, and no more went than had to. */
  ghost predicate Stored<V>(before: map<Key, Entry<V>>, after: map<Key, Entry<V>>, key: Key, item: Item<V>, now: int,
                            budget: nat) {
    key in after && after[key] == Entry(item, now) &&
    (forall k :: k in after && k != key ==> k in before && after[k] == before[k]) &&
    LeastRecentlyUsed(before, after, key, now) && MakesRoom(before, after, key, now, budget) &&
    (key != [] && Fits(before, budget) ==> Fits(after, budget) && (DropsLive(before, after, now) ==> |after| == budget))
  }

  /** A lookup hits exactly when the shard holds the key unexpired, and only stamps what it hit. */
  ghost predicate Served<V>(before: seq<map<Key, Entry<V>>>, after: seq<map<Key, Entry<V>>>, index: nat, key: Key,
                            now: int, found: Option<V>) {
    index < |before| && (found.Some? <==> key in before[index] && now <= before[index][key].item.expiresAt) &&
    (found.None? ==> after == before) &&
    (found.Some? ==>
       found.value == before[index][key].item.value && after == before[index := Stamped(before[index], key, now)])
  }

  // ---- one shard ------------------------------------------------------------------------------

  class Shard<V> {
    var entries: map<Key, Entry<V>>

    constructor ()
      ensures entries == map[]
    {
      entries := map[];
    }

    /** Drops every entry that expired before now. */
    method EvictExpired(now: int)
      modifies this
      ensures entries == Unexpired(old(entries), now)
    {
      var todo := entries.Keys;
      while todo != {}
        invariant todo <= entries.Keys <= old(entries.Keys)
        invariant forall k :: k in entries ==> entries[k] == old(entries)[k]
        invariant forall k :: k in old(entries) ==>
          (k in entries <==> k in todo || now <= old(entries)[k].item.expiresAt)
        decreases todo
      {
        var k :| k in todo;
        todo := todo - {k};
        if now > entries[k].item.expiresAt {
          entries := entries - {k};
        }
      }
    }

    /** Drops every entry whose key contains uri, and counts them. */
    method Invalidate(uri: Key) returns (count: nat)
      modifies this
      ensures entries == Without(old(entries), uri)
      ensures count == |old(entries)| - |entries|
    {
      count := 0;
      var todo := entries.Keys;
      while todo != {}
        invariant todo <= entries.Keys <= old(entries.Keys)
        invariant forall k :: k in entries ==> entries[k] == old(entries)[k]
        invariant forall k :: k in old(entries) ==> (k in entries <==> k in todo || !Contains(k, uri))
        invariant count == |old(entries)| - |entries|
        decreases todo
      {
        var k :| k in todo;
        todo := todo - {k};
        if Contains(k, uri) {
          assert (entries - {k}).Keys == entries.Keys - {k};
          entries := entries - {k};
          count := count + 1;
        }
      }
    }

    /** The least recently used key other than skip; "" when there is none, or when it is "" itself. */
    method OldestKey(skip: Key) returns (oldest: Key)
      requires forall k :: k in entries ==> entries[k].lastAccess < MAX_STAMP
      ensures oldest != [] ==> oldest in entries && oldest != skip
      ensures oldest != [] ==> forall k :: k in entries && k != skip ==> entries[oldest].lastAccess <= entries[k].lastAccess
      ensures oldest == [] && [] !in entries ==> entries.Keys <= {skip}
    {
      oldest := [];
      var oldestAccess := MAX_STAMP;
      var todo := entries.Keys;
      ghost var none := true;
      while todo != {}
        invariant todo <= entries.Keys
        invariant none ==> oldest == [] && oldestAccess == MAX_STAMP && forall k :: k in entries && k !in todo ==> k == skip
        invariant !none ==> oldest in entries && oldest != skip && oldestAccess == entries[oldest].lastAccess
        invariant !none ==> forall k :: k in entries && k !in todo && k != skip ==> oldestAccess <= entries[k].lastAccess
        decreases todo
      {
        var k :| k in todo;
        todo := todo - {k};
        if k != skip {
          var acc := entries[k].lastAccess;
          if acc < oldestAccess {
            oldestAccess := acc;
            oldest := k;
            none := false;
          }
        }
      }
    }

    method Remove(key: Key)
      modifies this
      ensures entries == old(entries) - {key}
    {
      entries := entries - {key};
    }

    /** Stores item under key, within the budget if there is one. */
    method Store(key: Key, item: Item<V>, now: int, budget: nat)
      requires forall k :: k in entries ==> entries[k].lastAccess < MAX_STAMP
      modifies this
      ensures Stored(old(entries), entries, key, item, now, budget)
    {
      if budget > 0 {
        EnforceBudget(budget, key, now);
      }
      ghost var kept := entries;
      entries := entries[key := Entry(item, now)];
      assert entries.Keys == kept.Keys + {key};
    }

    /** Makes room for key, as a bounded shard does in front of a store. */
    method EnforceBudget(budget: nat, key: Key, now: int)
      requires budget > 0 && forall k :: k in entries ==> entries[k].lastAccess < MAX_STAMP
      modifies this
      ensures entries.Keys <= old(entries.Keys) && forall k :: k in entries ==> entries[k] == old(entries)[k]
      ensures key != [] && [] !in old(entries) && |old(entries)| <= budget ==>
        |entries.Keys + {key}| <= budget && (key in old(entries) ==> entries == old(entries))
      ensures LeastRecentlyUsed(old(entries), entries, key, now)
      ensures |old(entries).Keys + {key}| <= budget ==> entries == old(entries)
      ensures |old(entries).Keys + {key}| > budget ==> forall k :: k in entries ==> now <= entries[k].item.expiresAt
      ensures DropsLive(old(entries), entries, now) ==> |entries.Keys + {key}| >= budget
    {
      var exists0 := key in entries;
      JoinKey(entries, key);
      if (!exists0 && |entries| < budget) || (exists0 && |entries| <= budget) {
        return;
      }
      EvictExpired(now);
      SubsetSize(entries.Keys, old(entries.Keys));
      EvictOldest(budget, key, exists0, now);
      JoinKey(entries, key);
    }

    /** Drops the least recently used entries other than key until the shard is down to its budget. */
    method EvictOldest(budget: nat, key: Key, exists0: bool, now: int)
      requires budget > 0 && (key in entries ==> exists0)
      requires forall k :: k in entries ==> entries[k].lastAccess < MAX_STAMP
      modifies this
      ensures entries.Keys <= old(entries.Keys) && forall k :: k in entries ==> entries[k] == old(entries)[k]
      ensures [] !in old(entries) ==> |entries| <= if exists0 then budget else budget - 1
      ensures LeastRecentlyUsed(old(entries), entries, key, now)
      ensures entries.Keys < old(entries.Keys) ==> |entries| >= if exists0 then budget else budget - 1
    {
      while (!exists0 && |entries| >= budget) || (exists0 && |entries| > budget)
        invariant entries.Keys <= old(entries.Keys)
        invariant forall k :: k in entries ==> entries[k] == old(entries)[k]
        invariant LeastRecentlyUsed(old(entries), entries, key, now)
        invariant entries.Keys < old(entries.Keys) ==> |entries| >= if exists0 then budget else budget - 1
        decreases |entries|
      {
        var oldest := OldestKey(key);
        if oldest == [] {
          if [] !in entries {
            OnlyBeside(entries, key);
            assert false;
          }
          break;
        }
        assert (entries - {oldest}).Keys == entries.Keys - {oldest};
        entries := entries - {oldest};
      }
    }
  }

  // ---- the cache ------------------------------------------------------------------------------

  /** What one shard holds agrees with the unbounded table. */
  ghost predicate Agrees<V>(entries: map<Key, Entry<V>>, i: int, table: map<Key, Item<V>>, clock: int) {
    forall k :: k in entries ==>
      ShardOf(k) == i && k in table && entries[k].item == table[k] && entries[k].lastAccess <= clock
  }

  /** An unbounded shard still holds whatever has not expired. */
  ghost predicate Complete<V>(entries: map<Key, Entry<V>>, i: int, table: map<Key, Item<V>>, clock: int) {
    forall k :: k in table && ShardOf(k) == i && k !in entries ==> table[k].expiresAt < clock
  }

  /** Every shard agrees with the table, and a cache without a capacity misses nothing of it. */
  ghost predicate Sound<V>(all: seq<map<Key, Entry<V>>>, table: map<Key, Item<V>>, clock: int, budget: nat) {
    forall i :: 0 <= i < |all| ==>
      Agrees(all[i], i, table, clock) && (budget == 0 ==> Complete(all[i], i, table, clock))
  }

  lemma StoreSoundAt<V>(before: map<Key, Entry<V>>, after: map<Key, Entry<V>>, i: int, table: map<Key, Item<V>>,
                        clock: int, budget: nat, key: Key, item: Item<V>, now: int)
    requires Agrees(before, i, table, clock) && (budget == 0 ==> Complete(before, i, table, clock)) && clock <= now
    requires if ShardOf(key) == i then Stored(before, after, key, item, now, budget) else after == before
    ensures Agrees(after, i, table[key := item], now)
    ensures budget == 0 ==> Complete(after, i, table[key := item], now)
  {
  }

  /** Storing key agrees with the new table in every shard, whatever the key's own shard dropped. */
  lemma StoreSound<V>(before: seq<map<Key, Entry<V>>>, after: seq<map<Key, Entry<V>>>, table: map<Key, Item<V>>,
                      clock: int, budget: nat, key: Key, item: Item<V>, now: int)
    requires Sound(before, table, clock, budget) && clock <= now && |after| == |before| == NUM_SHARDS
    requires Stored(before[ShardOf(key)], after[ShardOf(key)], key, item, now, budget)
    requires forall i :: 0 <= i < |after| && i != ShardOf(key) ==> after[i] == before[i]
    ensures Sound(after, table[key := item], now, budget)
  {
    forall i | 0 <= i < |after|
      ensures Agrees(after[i], i, table[key := item], now)
      ensures budget == 0 ==> Complete(after[i], i, table[key := item], now)
    {
      assert Agrees(before[i], i, table, clock) && (budget == 0 ==> Complete(before[i], i, table, clock));
      StoreSoundAt(before[i], after[i], i, table, clock, budget, key, item, now);
    }
  }

  /** Using an entry changes nothing the table is asked for. */
  lemma StampSound<V>(all: seq<map<Key, Entry<V>>>, index: nat, table: map<Key, Item<V>>, clock: int, budget: nat,
                      key: Key, now: int)
    requires Sound(all, table, clock, budget) && clock <= now && index < |all| && key in all[index]
    ensures Sound(all[index := Stamped(all[index], key, now)], table, now, budget)
    ensures Fits(all[index], budget) ==> Fits(Stamped(all[index], key, now), budget)
  {
    var after := all[index := Stamped(all[index], key, now)];
    forall i | 0 <= i < |after|
      ensures Agrees(after[i], i, table, now) && (budget == 0 ==> Complete(after[i], i, table, now))
    {
      assert Agrees(all[i], i, table, clock) && (budget == 0 ==> Complete(all[i], i, table, clock));
    }
    assert Stamped(all[index], key, now).Keys == all[index].Keys;
  }

  /** Dropping the same keys from a shard and from the table. */
  lemma DropKeys<V>(before: map<Key, Entry<V>>, entries: map<Key, Entry<V>>, i: int, table: map<Key, Item<V>>,
                    table': map<Key, Item<V>>, clock: int, budget: nat)
    requires Agrees(before, i, table, clock) && (budget == 0 ==> Complete(before, i, table, clock))
    requires entries.Keys <= before.Keys && (forall k :: k in entries ==> entries[k] == before[k])
    requires table'.Keys <= table.Keys && (forall k :: k in table' ==> table'[k] == table[k])
    requires forall k :: k in before ==> (k in entries <==> k in table')
    ensures Agrees(entries, i, table', clock) && (budget == 0 ==> Complete(entries, i, table', clock))
    ensures Fits(before, budget) ==> Fits(entries, budget)
  {
    SubsetSize(entries.Keys, before.Keys);
  }

  /** Dropping entries that have expired changes nothing the table can still serve. */
  lemma Expire<V>(before: map<Key, Entry<V>>, entries: map<Key, Entry<V>>, i: int, table: map<Key, Item<V>>,
                  clock: int, now: int, budget: nat)
    requires Agrees(before, i, table, clock) && clock <= now && (budget == 0 ==> Complete(before, i, table, clock))
    requires entries == Unexpired(before, now)
    ensures Agrees(entries, i, table, now) && (budget == 0 ==> Complete(entries, i, table, now))
    ensures Fits(before, budget) ==> Fits(entries, budget)
  {
    SubsetSize(entries.Keys, before.Keys);
  }

  /** How many entries each of the first n shards lost. */
  ghost predicate Dropped<V>(before: seq<map<Key, Entry<V>>>, uri: Key, dropped: seq<int>, n: nat) {
    |dropped| == n <= |before| && forall i :: 0 <= i < n ==> dropped[i] == |before[i]| - |Without(before[i], uri)|
  }

  class Cache<V> {
    const maxSize: int
    const shardBudget: nat
    const shards: seq<Shard<V>>
    var hits: nat
    var misses: nat
    /** The unbounded table this cache answers for. */
    ghost var table: map<Key, Item<V>>
    ghost var clock: int

    /** Sixteen shards, no two of them the same. */
    ghost predicate Separate() {
      |shards| == NUM_SHARDS && forall i, j :: 0 <= i < j < NUM_SHARDS ==> shards[i] != shards[j]
    }

    ghost predicate Valid()
      reads this`table, this`clock, shards
    {
      Separate() && clock < MAX_STAMP &&
      (forall i :: 0 <= i < NUM_SHARDS ==> Agrees(shards[i].entries, i, table, clock)) &&
      (shardBudget == 0 ==> forall i :: 0 <= i < NUM_SHARDS ==> Complete(shards[i].entries, i, table, clock))
    }

    /** Every shard is within its budget, and the empty key is not in use. */
    ghost predicate WithinBudget()
      requires |shards| == NUM_SHARDS
      reads shards
    {
      forall i :: 0 <= i < NUM_SHARDS ==> Fits(shards[i].entries, shardBudget)
    }

    constructor (maxSize: int, now: int)
      requires now < MAX_STAMP
      ensures Valid() && table == map[] && WithinBudget() && fresh(shards) && clock == now
      ensures maxSize <= 0 ==> shardBudget == 0
      ensures maxSize > 0 ==> maxSize <= shardBudget * NUM_SHARDS < maxSize + NUM_SHARDS
    {
      this.maxSize := maxSize;
      shardBudget := if maxSize > 0 then (maxSize + NUM_SHARDS - 1) / NUM_SHARDS else 0;
      hits, misses, table, clock := 0, 0, map[], now;
      var made: seq<Shard<V>> := [];
      for i := 0 to NUM_SHARDS
        invariant |made| == i && fresh(made)
        invariant forall j :: 0 <= j < i ==> made[j].entries == map[]
        invariant forall j, k :: 0 <= j < k < i ==> made[j] != made[k]
      {
        var sh := new Shard<V>();
        made := made + [sh];
      }
      shards := made;
    }

    ghost method Tick(now: int)
      requires Valid() && clock <= now < MAX_STAMP
      modifies this`clock
      ensures Valid() && clock == now
    {
      clock := now;
    }

    /** A hit is what the unbounded table would answer; without a capacity, so is a miss. */
    method Get(key: Key, now: int) returns (found: Option<V>)
      requires Valid() && clock <= now < MAX_STAMP
      modifies this`hits, this`misses, this`clock, shards
      ensures Valid() && clock == now && table == old(table) && (old(WithinBudget()) ==> WithinBudget())
      ensures found.Some? ==> key in table && now <= table[key].expiresAt && found.value == table[key].value
      ensures shardBudget == 0 && found.None? ==> key !in table || table[key].expiresAt < now
      ensures Served(old(Entries()), Entries(), ShardOf(key), key, now, found)
      ensures hits == old(hits) + (if found.Some? then 1 else 0) && misses == old(misses) + if found.Some? then 0 else 1
    {
      var index := ShardIndex(key);
      hide Agrees;
      hide Complete;
      hide Fits;
      hide Served;
      found := Lookup(index, key, now);
      if found.Some? {
        hits := hits + 1;
      } else {
        misses := misses + 1;
      }
    }

    /** Looks key up in its shard, and stamps what it finds. */
    method Lookup(index: nat, key: Key, now: int) returns (found: Option<V>)
      requires Valid() && index == ShardOf(key) && index < NUM_SHARDS && clock <= now < MAX_STAMP
      modifies this`clock, shards
      ensures Valid() && clock == now && (old(WithinBudget()) ==> WithinBudget())
      ensures found.Some? ==> key in table && now <= table[key].expiresAt && found.value == table[key].value
      ensures shardBudget == 0 && found.None? ==> key !in table || table[key].expiresAt < now
      ensures Served(old(Entries()), Entries(), index, key, now, found)
    {
      found := Peek(index, key, now);
      if found.Some? {
        Touch(index, key, now);
      } else {
        Tick(now);
      }
    }

    /** What the key's shard holds for it now. */
    method Peek(index: nat, key: Key, now: int) returns (found: Option<V>)
      requires Valid() && index == ShardOf(key) && index < NUM_SHARDS && clock <= now
      ensures found.Some? <==> key in shards[index].entries && now <= shards[index].entries[key].item.expiresAt
      ensures found.Some? ==> found.value == shards[index].entries[key].item.value
      ensures found.Some? ==> key in table && now <= table[key].expiresAt && found.value == table[key].value
      ensures shardBudget == 0 && found.None? ==> key !in table || table[key].expiresAt < now
    {
      var sh := shards[index];
      if key !in sh.entries || now > sh.entries[key].item.expiresAt {
        assert Agrees(sh.entries, index, table, clock);
        assert shardBudget == 0 ==> Complete(sh.entries, index, table, clock);
        return None;
      }
      return Some(sh.entries[key].item.value);
    }

    /** Stamps an entry as just used. */
    method Touch(index: nat, key: Key, now: int)
      requires Valid() && index < NUM_SHARDS && key in shards[index].entries && clock <= now < MAX_STAMP
      modifies shards[index], this`clock
      ensures Valid() && clock == now && (old(WithinBudget()) ==> WithinBudget())
      ensures Entries() == old(Entries())[index := Stamped(old(Entries())[index], key, now)]
    {
      ghost var before := Entries();
      Stamp(index, key, now);
      StampSound(before, index, table, clock, shardBudget, key, now);
      clock := now;
    }

    method Stamp(index: nat, key: Key, now: int)
      requires Separate() && index < NUM_SHARDS && key in shards[index].entries
      modifies shards[index]
      ensures Entries() == old(Entries())[index := Stamped(old(Entries())[index], key, now)]
    {
      var sh := shards[index];
      sh.entries := sh.entries[key := Entry(sh.entries[key].item, now)];
    }

    /** The store under the key's shard lock. */
    method StoreInShard(index: nat, key: Key, item: Item<V>, now: int)
      requires Valid() && index == ShardOf(key) && index < NUM_SHARDS
      modifies shards[index]
      ensures Stored(old(Entries())[index], shards[index].entries, key, item, now, shardBudget)
      ensures forall i :: 0 <= i < NUM_SHARDS && i != index ==> shards[i].entries == old(Entries())[i]
    {
      assert Agrees(shards[index].entries, index, table, clock);
      shards[index].Store(key, item, now, shardBudget);
    }

    method Set(key: Key, value: V, ttl: int, now: int)
      requires Valid() && clock <= now < MAX_STAMP
      modifies this`table, this`clock, shards
      ensures Valid() && clock == now
      ensures table == old(table)[key := Item(value, now + if ttl <= 0 then HOUR else ttl)]
      ensures Stored(old(Entries())[ShardOf(key)], shards[ShardOf(key)].entries, key, table[key], now, shardBudget)
      ensures forall i :: 0 <= i < NUM_SHARDS && i != ShardOf(key) ==> shards[i].entries == old(Entries())[i]
      ensures key != [] && old(WithinBudget()) ==> WithinBudget()
    {
      hide Agrees;
      hide Complete;
      hide LeastRecentlyUsed;
      hide MakesRoom;
      var item := Item(value, now + if ttl <= 0 then HOUR else ttl);
      var index := ShardIndex(key);
      ghost var before := Entries();
      StoreInShard(index, key, item, now);
      StoreSound(before, Entries(), table, clock, shardBudget, key, item, now);
      clock := now;
      table := table[key := item];
    }

    method RemoveFromShard(key: Key)
      requires Valid()
      modifies shards
      ensures forall i :: 0 <= i < NUM_SHARDS ==> shards[i].entries == old(shards[i].entries) - {key}
    {
      var index := ShardIndex(key);
      shards[index].Remove(key);
      forall i | 0 <= i < NUM_SHARDS && i != index ensures shards[i].entries == old(shards[i].entries) - {key} {
        assert Agrees(old(shards[i].entries), i, table, clock);
        assert key !in old(shards[i].entries);
      }
    }

    method Delete(key: Key)
      requires Valid()
      modifies this`table, shards
      ensures Valid() && table == old(table) - {key} && (old(WithinBudget()) ==> WithinBudget())
      ensures forall i :: 0 <= i < NUM_SHARDS ==> shards[i].entries == old(shards[i].entries) - {key}
    {
      RemoveFromShard(key);
      forall i | 0 <= i < NUM_SHARDS
        ensures Agrees(shards[i].entries, i, table - {key}, clock)
        ensures shardBudget == 0 ==> Complete(shards[i].entries, i, table - {key}, clock)
        ensures Fits(old(shards[i].entries), shardBudget) ==> Fits(shards[i].entries, shardBudget)
      {
        DropKeys(old(shards[i].entries), shards[i].entries, i, table, table - {key}, clock, shardBudget);
      }
      table := table - {key};
    }

    /** What every shard holds. */
    ghost function Entries(): (all: seq<map<Key, Entry<V>>>)
      requires |shards| == NUM_SHARDS
      reads shards
      ensures |all| == NUM_SHARDS && forall i :: 0 <= i < NUM_SHARDS ==> all[i] == shards[i].entries
    {
      seq(NUM_SHARDS, i requires 0 <= i < NUM_SHARDS reads shards => shards[i].entries)
    }

    /** The first n shards have been invalidated, the others not yet. */
    ghost predicate InvalidatedTo(n: nat, before: seq<map<Key, Entry<V>>>, uri: Key)
      reads shards
    {
      Separate() && |before| == NUM_SHARDS &&
      forall i :: 0 <= i < NUM_SHARDS ==> shards[i].entries == if i < n then Without(before[i], uri) else before[i]
    }

    method InvalidateNext(n: nat, uri: Key, ghost before: seq<map<Key, Entry<V>>>) returns (here: nat)
      requires n < NUM_SHARDS && InvalidatedTo(n, before, uri)
      modifies shards[n]
      ensures InvalidatedTo(n + 1, before, uri) && here == |before[n]| - |Without(before[n], uri)|
    {
      here := shards[n].Invalidate(uri);
    }

    method InvalidateShards(uri: Key) returns (count: nat, ghost dropped: seq<int>)
      requires Separate()
      modifies shards
      ensures InvalidatedTo(NUM_SHARDS, old(Entries()), uri)
      ensures count == Sum(dropped) && Dropped(old(Entries()), uri, dropped, NUM_SHARDS)
    {
      ghost var before := Entries();
      count := 0;
      dropped := [];
      for n := 0 to NUM_SHARDS
        invariant InvalidatedTo(n, before, uri) && count == Sum(dropped) && Dropped(before, uri, dropped, n)
      {
        var here := InvalidateNext(n, uri, before);
        SumSnoc(dropped, here);
        count := count + here;
        dropped := dropped + [here];
      }
    }

    /** Removes every entry whose key contains uri, and counts what it removed. */
    method InvalidateByPath(uri: Key) returns (count: nat, ghost dropped: seq<int>)
      requires Valid()
      modifies this`table, shards
      ensures Valid() && (old(WithinBudget()) ==> WithinBudget())
      ensures table == Without(old(table), uri) && InvalidatedTo(NUM_SHARDS, old(Entries()), uri)
      ensures count == Sum(dropped) && Dropped(old(Entries()), uri, dropped, NUM_SHARDS)
    {
      ghost var kept := Without(table, uri);
      ghost var before := Entries();
      count, dropped := InvalidateShards(uri);
      forall i | 0 <= i < NUM_SHARDS
        ensures Agrees(shards[i].entries, i, kept, clock)
        ensures shardBudget == 0 ==> Complete(shards[i].entries, i, kept, clock)
        ensures Fits(old(shards[i].entries), shardBudget) ==> Fits(shards[i].entries, shardBudget)
      {
        assert before[i] == old(shards[i].entries);
        DropKeys(old(shards[i].entries), shards[i].entries, i, table, kept, clock, shardBudget);
      }
      table := kept;
    }

    /** Empties the cache, which stays usable. */
    method Clear()
      requires Valid()
      modifies this`table, shards
      ensures Valid() && WithinBudget() && table == map[]
    {
      for n := 0 to NUM_SHARDS
        invariant forall i :: 0 <= i < n ==> shards[i].entries == map[]
        modifies shards
      {
        shards[n].entries := map[];
      }
      table := map[];
    }

    /** The background sweep changes nothing anybody could be served. */
    method EvictAllExpired(now: int)
      requires Valid() && clock <= now < MAX_STAMP
      modifies this`clock, shards
      ensures Valid() && clock == now && table == old(table) && (old(WithinBudget()) ==> WithinBudget())
      ensures forall i :: 0 <= i < NUM_SHARDS ==> shards[i].entries == Unexpired(old(shards[i].entries), now)
    {
      for n := 0 to NUM_SHARDS
        invariant forall i :: n <= i < NUM_SHARDS ==> shards[i].entries == old(shards[i].entries)
        invariant forall i :: 0 <= i < n ==> shards[i].entries == Unexpired(old(shards[i].entries), now)
        modifies shards
      {
        shards[n].EvictExpired(now);
      }
      forall i | 0 <= i < NUM_SHARDS
        ensures Agrees(shards[i].entries, i, table, now)
        ensures shardBudget == 0 ==> Complete(shards[i].entries, i, table, now)
        ensures Fits(old(shards[i].entries), shardBudget) ==> Fits(shards[i].entries, shardBudget)
      {
        Expire(old(shards[i].entries), shards[i].entries, i, table, clock, now, shardBudget);
      }
      clock := now;
    }
  }

  lemma OnlyBeside<V>(m: map<Key, V>, key: Key)
    requires m.Keys <= {key}
    ensures |m| <= 1 && (key !in m ==> |m| == 0)
  {
    SubsetSize(m.Keys, {key});
  }

  lemma JoinKey<V>(m: map<Key, V>, key: Key)
    ensures |m.Keys + {key}| == |m| + if key in m then 0 else 1
  {
    if key in m {
      assert m.Keys + {key} == m.Keys;
    }
  }
}
