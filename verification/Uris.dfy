/** Document URIs, their byte order, and the deterministic listing of a set of them. */
module Uris {
  type Uri = string

  /** Lexicographic order. */
  predicate Before(a: Uri, b: Uri) {
    b != "" && (a == "" || a[0] < b[0] || (a[0] == b[0] && Before(a[1..], b[1..])))
  }

  lemma {:induction false} Trichotomy(a: Uri, b: Uri)
    ensures !(Before(a, b) && Before(b, a)) && (a == b ==> !Before(a, b))
    ensures a == b || Before(a, b) || Before(b, a)
  {
    if a != "" && b != "" && a[0] == b[0] {
      Trichotomy(a[1..], b[1..]);
      assert a == [a[0]] + a[1..] && b == [b[0]] + b[1..];
    }
  }

  lemma {:induction false} Transitive(a: Uri, b: Uri, c: Uri)
    requires Before(a, b) && Before(b, c)
    ensures Before(a, c)
  {
    if a != "" && a[0] == b[0] == c[0] {
      Transitive(a[1..], b[1..], c[1..]);
    }
  }

  /** Before means: at the first place they differ the character is smaller, or missing. */
  lemma {:induction false} BeforeIs(a: Uri, b: Uri)
    ensures Before(a, b) <==> exists i :: DiffersAt(a, b, i)
    decreases |a|
  {
    if b == "" {
    } else if a == "" || a[0] != b[0] {
      assert DiffersAt(a, b, 0) <==> Before(a, b);
    } else {
      BeforeIs(a[1..], b[1..]);
      if i: nat :| DiffersAt(a[1..], b[1..], i) {
        assert a[..i + 1] == [a[0]] + a[1..][..i] && b[..i + 1] == [b[0]] + b[1..][..i];
        assert DiffersAt(a, b, i + 1);
      }
      if i: nat :| DiffersAt(a, b, i) {
        assert i > 0;
        assert a[1..][..i - 1] == a[..i][1..] && b[1..][..i - 1] == b[..i][1..];
        assert DiffersAt(a[1..], b[1..], i - 1);
      }
    }
  }

  predicate DiffersAt(a: Uri, b: Uri, i: nat) {
    i <= |a| && i < |b| && a[..i] == b[..i] && (i < |a| ==> a[i] < b[i])
  }

  predicate Sorted(uris: seq<Uri>) {
    forall i, j :: 0 <= i < j < |uris| ==> Before(uris[i], uris[j])
  }

  /** The elements of a list. */
  function Members(uris: seq<Uri>): set<Uri> {
    set i | 0 <= i < |uris| :: uris[i]
  }

  /** A sorted listing names each member once. */
  lemma NextMember(uris: seq<Uri>, i: nat)
    requires Sorted(uris) && i < |uris|
    ensures uris[i] in Members(uris) && uris[i] !in Members(uris[..i])
    ensures Members(uris[..i + 1]) == Members(uris[..i]) + {uris[i]}
    ensures Members(uris[..i]) <= Members(uris)
  {
    forall j | 0 <= j < i ensures uris[j] != uris[i] {
      Trichotomy(uris[j], uris[i]);
    }
    assert forall j :: 0 <= j < i ==> uris[..i][j] == uris[j] && uris[..i + 1][j] == uris[j];
    assert uris[..i + 1][i] == uris[i];
  }

  /** Two sorted listings of one set are the same list. */
  lemma {:induction false} ListingUnique(a: seq<Uri>, b: seq<Uri>)
    requires Sorted(a) && Sorted(b) && Members(a) == Members(b)
    ensures a == b
  {
    if a == [] {
      SomeMember(b);
    } else {
      SomeMember(a);
      SomeMember(b);
      SameHead(a, b);
      TailMembers(a);
      TailMembers(b);
      ListingUnique(a[1..], b[1..]);
      assert a == [a[0]] + a[1..] && b == [b[0]] + b[1..];
    }
  }

  lemma SomeMember(b: seq<Uri>)
    ensures b != [] ==> b[0] in Members(b)
  {
  }

  lemma SameHead(a: seq<Uri>, b: seq<Uri>)
    requires Sorted(a) && Sorted(b) && a != [] && b != [] && a[0] in Members(b) && b[0] in Members(a)
    ensures a[0] == b[0]
  {
    Trichotomy(a[0], b[0]);
  }

  lemma TailMembers(a: seq<Uri>)
    requires Sorted(a) && a != []
    ensures Sorted(a[1..]) && Members(a[1..]) == Members(a) - {a[0]}
  {
    forall i | 1 <= i < |a| ensures a[i] != a[0] {
      Trichotomy(a[0], a[i]);
    }
    assert forall i :: 1 <= i < |a| ==> a[i] == a[1..][i - 1];
  }

  /** Everything before place at comes before uri, and everything from at on comes after it. */
  predicate Splits(uris: seq<Uri>, at: nat, uri: Uri) {
    at <= |uris| && (forall i :: 0 <= i < at ==> Before(uris[i], uri)) &&
    (forall i :: at <= i < |uris| ==> Before(uri, uris[i]))
  }

  /** Where a new element belongs. */
  method Place(uris: seq<Uri>, uri: Uri) returns (at: nat)
    requires Sorted(uris) && uri !in uris
    ensures Splits(uris, at, uri)
  {
    at := 0;
    while at < |uris| && Before(uris[at], uri)
      invariant 0 <= at <= |uris|
      invariant forall i :: 0 <= i < at ==> Before(uris[i], uri)
    {
      at := at + 1;
    }
    if at < |uris| {
      assert uris[at] in uris;
      Trichotomy(uris[at], uri);
    }
    forall i | at <= i < |uris| ensures Before(uri, uris[i]) {
      if i > at {
        Transitive(uri, uris[at], uris[i]);
      }
    }
  }

  lemma InsertedAt(uris: seq<Uri>, at: nat, uri: Uri, i: nat)
    requires at <= |uris| && i <= |uris|
    ensures (uris[..at] + [uri] + uris[at..])[i] == if i < at then uris[i] else if i == at then uri else uris[i - 1]
  {
  }

  lemma InsertSorted(uris: seq<Uri>, at: nat, uri: Uri)
    requires Sorted(uris) && Splits(uris, at, uri)
    ensures Sorted(uris[..at] + [uri] + uris[at..])
  {
  }

  lemma InsertMembers(uris: seq<Uri>, at: nat, uri: Uri)
    requires at <= |uris|
    ensures Members(uris[..at] + [uri] + uris[at..]) == Members(uris) + {uri}
  {
    var r := uris[..at] + [uri] + uris[at..];
    forall i | 0 <= i < |r| ensures r[i] in Members(uris) + {uri} {
      InsertedAt(uris, at, uri, i);
    }
    forall i | 0 <= i < |uris| ensures uris[i] in Members(r) {
      InsertedAt(uris, at, uri, if i < at then i else i + 1);
    }
    assert r[at] == uri;
  }

  /** The sorted listing of a set. */
  method SortedUris(uris: set<Uri>) returns (r: seq<Uri>)
    ensures Sorted(r) && Members(r) == uris
  {
    r := [];
    var todo := uris;
    while todo != {}
      invariant todo <= uris && Sorted(r) && Members(r) == uris - todo
      decreases todo
    {
      var uri :| uri in todo;
      todo := todo - {uri};
      assert forall i :: 0 <= i < |r| ==> r[i] in Members(r);
      var at := Place(r, uri);
      InsertSorted(r, at, uri);
      InsertMembers(r, at, uri);
      r := r[..at] + [uri] + r[at..];
    }
  }
}
