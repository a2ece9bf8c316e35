/**
 The one-shot waiters of the diagnostics invalidator. A waiter's channel sits in the list of the document
 it waits for until the first publish for that document, which sends it its one token.
 */
module Waiters {
  import opened Uris

  type Chan = nat

  /** The key of a waiter that any document's publish wakes. */
  const ANY_URI: Uri := ""

  /** How far a waiter has come: registered, sent its token, or gone without one. */
  datatype Wait = Waiting(key: Uri) | Woken(key: Uri) | Gone(key: Uri)

  predicate NoRepeats(chans: seq<Chan>) {
    forall i, j :: 0 <= i < j < |chans| ==> chans[i] != chans[j]
  }

  /** A list holds exactly the channels waiting for its key, each once. */
  ghost predicate ListsSound(subs: map<Uri, seq<Chan>>, waits: map<Chan, Wait>) {
    (forall key :: key in subs ==> subs[key] != [] && NoRepeats(subs[key])) &&
    (forall key, ch :: key in subs && ch in subs[key] ==> ch in waits && waits[ch] == Waiting(key)) &&
    (forall ch :: ch in waits && waits[ch].Waiting? ==> waits[ch].key in subs && ch in subs[waits[ch].key])
  }

  /** A channel was sent one token if its waiter was woken, and none otherwise; its buffer holds no more than that. */
  ghost predicate TokensSound(tokens: map<Chan, nat>, sent: map<Chan, nat>, waits: map<Chan, Wait>) {
    tokens.Keys == sent.Keys == waits.Keys &&
    forall ch :: ch in waits ==> sent[ch] == (if waits[ch].Woken? then 1 else 0) && tokens[ch] <= sent[ch]
  }

  /** A publish for key wakes whoever waits for it. */
  function Wake(waits: map<Chan, Wait>, key: Uri): map<Chan, Wait> {
    map ch | ch in waits :: if waits[ch] == Waiting(key) then Woken(key) else waits[ch]
  }

  lemma WokenLists(subs: map<Uri, seq<Chan>>, waits: map<Chan, Wait>, key: Uri)
    requires ListsSound(subs, waits)
    ensures ListsSound(subs - {key}, Wake(waits, key))
  {
  }

  lemma SubscribedLists(subs: map<Uri, seq<Chan>>, waits: map<Chan, Wait>, key: Uri, ch: Chan)
    requires ListsSound(subs, waits) && ch !in waits
    ensures ListsSound(subs[key := (if key in subs then subs[key] else []) + [ch]], waits[ch := Waiting(key)])
  {
  }

  /** Everything but the element at i. */
  function Without(chans: seq<Chan>, i: nat): seq<Chan>
    requires i < |chans|
  {
    chans[..i] + chans[i + 1..]
  }

  lemma WithoutMembers(chans: seq<Chan>, i: nat)
    requires i < |chans| && NoRepeats(chans)
    ensures NoRepeats(Without(chans, i))
    ensures forall ch :: ch in Without(chans, i) <==> ch in chans && ch != chans[i]
  {
  }

  lemma LeftLists(subs: map<Uri, seq<Chan>>, waits: map<Chan, Wait>, key: Uri, i: nat)
    requires ListsSound(subs, waits) && key in subs && i < |subs[key]|
    ensures var rest := Without(subs[key], i);
      ListsSound(if rest == [] then subs - {key} else subs[key := rest], waits[subs[key][i] := Gone(key)])
  {
    WithoutMembers(subs[key], i);
    var ch := subs[key][i];
    var rest := Without(subs[key], i);
    assert ch in subs[key];
    var subs' := if rest == [] then subs - {key} else subs[key := rest];
    forall k, c | k in subs' && c in subs'[k] ensures c in waits && c != ch && waits[c] == Waiting(k) {
      assert c in subs[k];
    }
    forall c | c in waits && c != ch && waits[c].Waiting? ensures waits[c].key in subs' && c in subs'[waits[c].key] {
      if waits[c].key == key {
        assert c in rest;
      } else {
        assert subs'[waits[c].key] == subs[waits[c].key];
      }
    }
    forall k | k in subs' ensures subs'[k] != [] && NoRepeats(subs'[k]) {
      assert k != key ==> subs'[k] == subs[k];
    }
    assert ListsSound(subs', waits[ch := Gone(key)]);
  }

  /** Those a publish is for are those in the document's list, and none of them was sent anything yet. */
  lemma ReadyToWake(subs: map<Uri, seq<Chan>>, tokens: map<Chan, nat>, sent: map<Chan, nat>, waits: map<Chan, Wait>,
                    key: Uri)
    requires ListsSound(subs, waits) && TokensSound(tokens, sent, waits)
    ensures forall ch :: ch in waits && waits[ch] == Waiting(key) <==> key in subs && ch in subs[key]
    ensures key in subs ==> NoRepeats(subs[key])
    ensures forall ch :: ch in waits && waits[ch] == Waiting(key) ==> tokens[ch] == 0 && sent[ch] == 0
  {
  }

  /** The first n channels of a list were sent their token, and had room for it; no other channel was. */
  ghost predicate SentTo(list: seq<Chan>, n: nat, tokens0: map<Chan, nat>, sent0: map<Chan, nat>,
                         tokens: map<Chan, nat>, sent: map<Chan, nat>)
    requires n <= |list|
  {
    tokens.Keys == tokens0.Keys && sent.Keys == sent0.Keys &&
    (forall ch :: ch in tokens && ch !in list[..n] ==> tokens[ch] == tokens0[ch]) &&
    (forall ch :: ch in sent && ch !in list[..n] ==> sent[ch] == sent0[ch]) &&
    (forall i :: 0 <= i < n ==> list[i] in tokens && list[i] in sent && tokens[list[i]] == 1 && sent[list[i]] == 1)
  }

  lemma SentWakes(list: seq<Chan>, tokens0: map<Chan, nat>, sent0: map<Chan, nat>, tokens: map<Chan, nat>,
                  sent: map<Chan, nat>, waits: map<Chan, Wait>, key: Uri)
    requires SentTo(list, |list|, tokens0, sent0, tokens, sent) && TokensSound(tokens0, sent0, waits)
    requires forall ch :: ch in waits && waits[ch] == Waiting(key) <==> ch in list
    ensures TokensSound(tokens, sent, Wake(waits, key))
    ensures forall ch :: ch in waits ==> tokens[ch] == if waits[ch] == Waiting(key) then 1 else tokens0[ch]
  {
    assert list[..|list|] == list;
  }

  class WaiterTable {
    var subs: map<Uri, seq<Chan>>
    /** Each channel's buffer, which has room for one token. */
    var tokens: map<Chan, nat>
    var made: nat
    ghost var waits: map<Chan, Wait>
    /** Tokens each channel was ever sent, and sends that found a full buffer. */
    ghost var sent: map<Chan, nat>
    ghost var dropped: nat

    ghost predicate Valid()
      reads this
    {
      ListsSound(subs, waits) && TokensSound(tokens, sent, waits) && dropped == 0 &&
      forall ch :: ch in waits ==> ch < made
    }

    constructor ()
      ensures Valid() && waits == map[]
    {
      subs, tokens, made, waits, sent, dropped := map[], map[], 0, map[], map[], 0;
    }

    /** Registers a new one-shot waiter for key. */
    method Subscribe(key: Uri) returns (ch: Chan)
      requires Valid()
      modifies this
      ensures Valid() && ch !in old(waits) && waits == old(waits)[ch := Waiting(key)]
    {
      ch := made;
      made := made + 1;
      SubscribedLists(subs, waits, key, ch);
      subs := subs[key := (if key in subs then subs[key] else []) + [ch]];
      tokens := tokens[ch := 0];
      sent := sent[ch := 0];
      waits := waits[ch := Waiting(key)];
    }

    /** A send that does not block: a full buffer loses the token. */
    method Send(ch: Chan)
      requires ch in tokens && ch in sent
      modifies this`tokens, this`sent, this`dropped
      ensures sent == old(sent)[ch := old(sent)[ch] + 1]
      ensures old(tokens)[ch] == 0 ==> tokens == old(tokens)[ch := 1] && dropped == old(dropped)
      ensures old(tokens)[ch] != 0 ==> tokens == old(tokens) && dropped == old(dropped) + 1
    {
      sent := sent[ch := sent[ch] + 1];
      if tokens[ch] == 0 {
        tokens := tokens[ch := 1];
      } else {
        dropped := dropped + 1;
      }
    }

    method SendAll(list: seq<Chan>)
      requires NoRepeats(list)
      requires forall i :: 0 <= i < |list| ==>
        list[i] in tokens && list[i] in sent && tokens[list[i]] == 0 && sent[list[i]] == 0
      modifies this`tokens, this`sent, this`dropped
      ensures SentTo(list, |list|, old(tokens), old(sent), tokens, sent) && dropped == old(dropped)
    {
      for n := 0 to |list|
        invariant SentTo(list, n, old(tokens), old(sent), tokens, sent) && dropped == old(dropped)
      {
        assert list[n] !in list[..n];
        assert list[..n + 1] == list[..n] + [list[n]];
        Send(list[n]);
      }
    }

    /** Signals and clears every waiter on key; every one of them gets its token. */
    method WakeSubscribers(key: Uri)
      requires Valid()
      modifies this
      ensures Valid() && waits == Wake(old(waits), key) && key !in subs
      ensures waits.Keys == old(waits).Keys && forall ch :: ch in waits ==>
        if old(waits)[ch] == Waiting(key) then waits[ch] == Woken(key) && tokens[ch] == 1
        else waits[ch] == old(waits)[ch] && tokens[ch] == old(tokens)[ch]
    {
      hide ListsSound;
      WokenLists(subs, waits, key);
      ReadyToWake(subs, tokens, sent, waits, key);
      if key in subs {
        SendAll(subs[key]);
        SentWakes(subs[key], old(tokens), old(sent), tokens, sent, waits, key);
      }
      subs := subs - {key};
      waits := Wake(waits, key);
    }

    /** A publish wakes those who wait for the document and those who wait for any. */
    method Publish(uri: Uri)
      requires Valid() && uri != ANY_URI
      modifies this
      ensures Valid() && waits == Wake(Wake(old(waits), uri), ANY_URI)
      ensures waits.Keys == old(waits).Keys && forall ch :: ch in waits ==>
        if old(waits)[ch].Waiting? && old(waits)[ch].key in {uri, ""}
        then waits[ch] == Woken(old(waits)[ch].key) && tokens[ch] == 1
        else waits[ch] == old(waits)[ch] && tokens[ch] == old(tokens)[ch]
    {
      WakeSubscribers(uri);
      WakeSubscribers(ANY_URI);
    }

    /** The channel's position in its list, or the list's length. */
    method Find(list: seq<Chan>, ch: Chan) returns (i: nat)
      ensures i <= |list| && (i < |list| <==> ch in list) && (i < |list| ==> list[i] == ch)
    {
      i := 0;
      while i < |list| && list[i] != ch
        invariant i <= |list| && ch !in list[..i]
      {
        i := i + 1;
      }
      assert i == |list| ==> list[..i] == list;
    }

    /** A waiter leaves, whatever it was woken by; an empty list goes with the last of them. */
    method Unsubscribe(key: Uri, ch: Chan)
      requires Valid() && ch in waits && waits[ch].key == key
      modifies this
      ensures Valid() && waits == if old(waits)[ch].Waiting? then old(waits)[ch := Gone(key)] else old(waits)
      ensures key !in subs || ch !in subs[key]
    {
      if key !in subs {
        return;
      }
      var i := Find(subs[key], ch);
      if i == |subs[key]| {
        return;
      }
      LeftLists(subs, waits, key, i);
      WithoutMembers(subs[key], i);
      var rest := Without(subs[key], i);
      subs := if rest == [] then subs - {key} else subs[key := rest];
      waits := waits[ch := Gone(key)];
    }

    /** The waiter takes its token. */
    method Receive(ch: Chan)
      requires Valid() && ch in waits && tokens[ch] > 0
      modifies this`tokens
      ensures Valid() && waits[ch].Woken?
    {
      tokens := tokens[ch := tokens[ch] - 1];
    }
  }

  /** Once woken or gone, a waiter is in no list, and no publish touches it again. */
  lemma SettledForGood(subs: map<Uri, seq<Chan>>, waits: map<Chan, Wait>, ch: Chan, key: Uri)
    requires ListsSound(subs, waits) && ch in waits && !waits[ch].Waiting?
    ensures forall k :: k in subs ==> ch !in subs[k]
    ensures Wake(waits, key)[ch] == waits[ch]
  {
  }

  /** Until then it is in its own list, once, and in no other. */
  lemma WaitsInOneList(subs: map<Uri, seq<Chan>>, waits: map<Chan, Wait>, ch: Chan) returns (i: nat)
    requires ListsSound(subs, waits) && ch in waits && waits[ch].Waiting?
    ensures waits[ch].key in subs && i < |subs[waits[ch].key]| && subs[waits[ch].key][i] == ch
    ensures forall k, j :: k in subs && 0 <= j < |subs[k]| && subs[k][j] == ch ==> k == waits[ch].key && j == i
  {
    i :| 0 <= i < |subs[waits[ch].key]| && subs[waits[ch].key][i] == ch;
    forall k, j | k in subs && 0 <= j < |subs[k]| && subs[k][j] == ch ensures k == waits[ch].key && j == i {
      assert ch in subs[k];
    }
  }
}
