/**
 The recording's colour rewrite. A terminal stream arrives in events that may split an escape sequence
 anywhere; the writer carries the unfinished tail forward, and the result is the rewrite of the whole
 stream however it was split. Control sequences have the form of section 5.4 of ECMA-48; SGR is its section
 8.3.117.
 */
module TuiVideo {

  const ESC: char := '\U{001B}'
  const BEL: char := '\U{0007}'

  type Colour = (nat, nat, nat)

  // ---- SGR sequences --------------------------------------------------------------------------

  predicate IsParam(c: char) {
    '0' <= c <= '9' || c == ';'
  }

  /** How many of the leading characters are SGR parameter characters. */
  function ParamRun(s: string): (n: nat)
    ensures n <= |s|
  {
    if s != "" && IsParam(s[0]) then 1 + ParamRun(s[1..]) else 0
  }

  /** The run is all parameters, and as long as it can be. */
  lemma {:induction false} ParamRunIs(s: string)
    ensures var n := ParamRun(s); (forall i :: 0 <= i < n ==> IsParam(s[i])) && (n < |s| ==> !IsParam(s[n]))
  {
    if s != "" && IsParam(s[0]) {
      ParamRunIs(s[1..]);
    }
  }

  /** The length of the SGR sequence s begins with, or 0. */
  function MatchLen(s: string): (n: nat)
    ensures n <= |s| && (n > 0 ==> n >= 3)
  {
    if |s| < 2 || s[0] != ESC || s[1] != '[' then 0
    else
      var n := ParamRun(s[2..]);
      if 2 + n < |s| && s[2 + n] == 'm' then n + 3 else 0
  }

  /** The parameters between the separators. */
  function Split(s: string): (parts: seq<string>)
    ensures parts != []
  {
    if s == "" then [""]
    else
      var parts := Split(s[1..]);
      if s[0] == ';' then [""] + parts else [[s[0]] + parts[0]] + parts[1..]
  }

  function Join(parts: seq<string>): string
    requires parts != []
  {
    if |parts| == 1 then parts[0] else parts[0] + ";" + Join(parts[1..])
  }

  /** A parameter's value; an empty one is 0. */
  function ParseNat(s: string): nat {
    if s == "" then 0
    else
      var c := s[|s| - 1];
      ParseNat(s[..|s| - 1]) * 10 + if '0' <= c <= '9' then (c as int) - ('0' as int) else 0
  }

  function Digit(d: nat): char
    requires d < 10
  {
    ['0', '1', '2', '3', '4', '5', '6', '7', '8', '9'][d]
  }

  function Decimal(n: nat): string {
    if n < 10 then [Digit(n)] else Decimal(n / 10) + [Digit(n % 10)]
  }

  /** Five parameters that set a foreground or background colour. */
  predicate IsTriple(p: seq<string>) {
    |p| >= 5 && (p[0] == "38" || p[0] == "48") && p[1] == "2"
  }

  function TripleOf(p: seq<string>, inv: Colour -> Colour): seq<string>
    requires IsTriple(p)
  {
    var (r, g, b) := inv((ParseNat(p[2]), ParseNat(p[3]), ParseNat(p[4])));
    [p[0], "2", Decimal(r), Decimal(g), Decimal(b)]
  }

  /** Every colour triple of a parameter list inverted, and the rest kept. */
  function FixParams(p: seq<string>, inv: Colour -> Colour): (q: seq<string>)
    ensures |q| == |p|
  {
    if p == [] then []
    else if IsTriple(p) then TripleOf(p, inv) + FixParams(p[5..], inv)
    else [p[0]] + FixParams(p[1..], inv)
  }

  /** One SGR sequence rewritten. */
  function FixSgr(params: string, inv: Colour -> Colour): string {
    [ESC, '['] + Join(FixParams(Split(params), inv)) + "m"
  }

  /** The rewrite of each SGR sequence of a stream. */
  function InvertColours(inv: Colour -> Colour): string -> string {
    params => FixSgr(params, inv)
  }

  /** One turn of the scan, at a triple or past one parameter. */
  lemma FixStep(p: seq<string>, i: nat, q: seq<string>, inv: Colour -> Colour)
    requires i < |p|
    ensures IsTriple(p[i..]) ==>
      q + FixParams(p[i..], inv) == q + TripleOf(p[i..], inv) + FixParams(p[i + 5..], inv)
    ensures !IsTriple(p[i..]) ==> q + FixParams(p[i..], inv) == q + [p[i]] + FixParams(p[i + 1..], inv)
  {
  }

  /** The scan of one sequence's parameters, as the script runs it. */
  method FixSgrLoop(params: string, inv: Colour -> Colour) returns (out: string)
    ensures out == FixSgr(params, inv)
  {
    var p := Split(params);
    var q: seq<string> := [];
    var i := 0;
    while i < |p|
      invariant i <= |p| && q + FixParams(p[i..], inv) == FixParams(p, inv)
      decreases |p| - i
    {
      FixStep(p, i, q, inv);
      if (p[i] == "38" || p[i] == "48") && i + 1 < |p| && p[i + 1] == "2" && i + 4 < |p| {
        var (r, g, b) := inv((ParseNat(p[i + 2]), ParseNat(p[i + 3]), ParseNat(p[i + 4])));
        assert IsTriple(p[i..]);
        q := q + [p[i], "2", Decimal(r), Decimal(g), Decimal(b)];
        i := i + 5;
      } else {
        q := q + [p[i]];
        i := i + 1;
      }
    }
    assert p[i..] == [] && q + [] == q;
    return [ESC, '['] + Join(q) + "m";
  }

  /** Every SGR sequence of a stream replaced, leftmost first, and every other character kept. */
  function Sub(s: string, fix: string -> string): string
    decreases |s|
  {
    if s == "" then ""
    else
      var n := MatchLen(s);
      if n > 0 then fix(s[2..n - 1]) + Sub(s[n..], fix) else [s[0]] + Sub(s[1..], fix)
  }

  lemma SubMatch(s: string, fix: string -> string)
    requires MatchLen(s) > 0
    ensures Sub(s, fix) == fix(s[2..MatchLen(s) - 1]) + Sub(s[MatchLen(s)..], fix)
  {
  }

  lemma SubNoMatch(s: string, fix: string -> string)
    requires s != "" && MatchLen(s) == 0
    ensures Sub(s, fix) == [s[0]] + Sub(s[1..], fix)
  {
  }

  // ---- where a stream may be cut --------------------------------------------------------------

  /** s ends in the beginning of an SGR sequence. */
  predicate PartialFrom(s: string, i: nat) {
    i < |s| && s[i] == ESC && (i + 1 == |s| || (s[i + 1] == '[' && forall j :: i + 2 <= j < |s| ==> IsParam(s[j])))
  }

  predicate EndsPartial(s: string) {
    exists i :: 0 <= i < |s| && PartialFrom(s, i)
  }

  /** A cut that no SGR sequence can straddle: an escape begins there, or none was left unfinished. */
  predicate SafeCut(a: string, b: string) {
    b == "" || b[0] == ESC || !EndsPartial(a)
  }

  lemma {:induction false} ParamRunPrefix(a: string, b: string)
    ensures ParamRun(a) < |a| ==> ParamRun(a + b) == ParamRun(a)
    ensures ParamRun(a) == |a| ==> ParamRun(a + b) == |a| + ParamRun(b)
  {
    if a == "" {
      assert a + b == b;
    } else {
      var c := a + b;
      assert c[1..] == a[1..] + b && c[0] == a[0];
      if IsParam(a[0]) {
        ParamRunPrefix(a[1..], b);
        assert ParamRun(c) == 1 + ParamRun(a[1..] + b);
        assert ParamRun(a) == 1 + ParamRun(a[1..]);
      } else {
        assert ParamRun(c) == 0 && ParamRun(a) == 0;
      }
    }
  }

  /** A sequence that is whole in a is matched the same with anything after it. */
  lemma WholeMatch(a: string, b: string)
    requires MatchLen(a) > 0
    ensures MatchLen(a + b) == MatchLen(a)
  {
    assert (a + b)[2..] == a[2..] + b;
    ParamRunPrefix(a[2..], b);
  }

  /** At a safe cut, no match is made by what comes after. */
  lemma NoNewMatch(a: string, b: string)
    requires a != "" && MatchLen(a) == 0 && SafeCut(a, b)
    ensures MatchLen(a + b) == 0
  {
    var c := a + b;
    assert c[0] == a[0];
    if b == "" {
      assert c == a;
    } else if a[0] == ESC {
      if |a| == 1 {
        assert PartialFrom(a, 0);
        assert c[1] == b[0];
      } else if a[1] == '[' {
        var n := ParamRun(a[2..]);
        ParamRunIs(a[2..]);
        assert (a + b)[2..] == a[2..] + b;
        ParamRunPrefix(a[2..], b);
        if 2 + n == |a| {
          assert forall j :: 2 <= j < |a| ==> a[j] == a[2..][j - 2];
          assert PartialFrom(a, 0);
        } else {
          assert a[2..][n] == a[2 + n];
        }
      }
    }
  }

  lemma SafeTail(a: string, b: string, k: nat)
    requires SafeCut(a, b) && k <= |a|
    ensures SafeCut(a[k..], b)
  {
    if EndsPartial(a[k..]) {
      var i :| 0 <= i < |a[k..]| && PartialFrom(a[k..], i);
      assert forall j :: 0 <= j < |a| - k ==> a[k..][j] == a[k + j];
      assert forall j :: k + i + 2 <= j < |a| ==> a[j] == a[k..][j - k];
      assert PartialFrom(a, k + i);
    }
  }

  /** The rewrite of a stream is the rewrites of its parts, at any safe cut. */
  lemma {:induction false} SubSplits(a: string, b: string, fix: string -> string)
    requires SafeCut(a, b)
    ensures Sub(a + b, fix) == Sub(a, fix) + Sub(b, fix)
    decreases |a|
  {
    if a == "" {
      assert a + b == b;
    } else {
      var n := MatchLen(a);
      if n > 0 {
        SafeTail(a, b, n);
        SubSplits(a[n..], b, fix);
        WholeMatch(a, b);
        SubMatched(a, b, fix);
      } else {
        SafeTail(a, b, 1);
        SubSplits(a[1..], b, fix);
        NoNewMatch(a, b);
        SubPlain(a, b, fix);
      }
    }
  }

  /** A split of the rest of a text is a split of the text. */
  lemma PieceSplits(whole: string, left: string, right: string, piece: string, wholeRest: string, leftRest: string)
    requires whole == piece + wholeRest && left == piece + leftRest && wholeRest == leftRest + right
    ensures whole == left + right
  {
  }

  /** A sequence whole in a is rewritten the same with b after it. */
  lemma MatchedHead(a: string, b: string, fix: string -> string)
    requires MatchLen(a) > 0 && MatchLen(a + b) == MatchLen(a)
    ensures var n := MatchLen(a); Sub(a + b, fix) == fix(a[2..n - 1]) + Sub(a[n..] + b, fix)
  {
    var n, c := MatchLen(a), a + b;
    assert c[n..] == a[n..] + b && c[2..n - 1] == a[2..n - 1];
  }

  lemma PlainHead(a: string, b: string, fix: string -> string)
    requires a != "" && MatchLen(a + b) == 0
    ensures Sub(a + b, fix) == [a[0]] + Sub(a[1..] + b, fix)
  {
    var c := a + b;
    assert c[1..] == a[1..] + b && c[0] == a[0];
  }

  lemma SubMatched(a: string, b: string, fix: string -> string)
    requires MatchLen(a) > 0 && MatchLen(a + b) == MatchLen(a)
    requires Sub(a[MatchLen(a)..] + b, fix) == Sub(a[MatchLen(a)..], fix) + Sub(b, fix)
    ensures Sub(a + b, fix) == Sub(a, fix) + Sub(b, fix)
  {
    var n := MatchLen(a);
    var tail := a[n..];
    MatchedHead(a, b, fix);
    SubMatch(a, fix);
    PieceSplits(Sub(a + b, fix), Sub(a, fix), Sub(b, fix), fix(a[2..n - 1]), Sub(tail + b, fix), Sub(tail, fix));
  }

  lemma SubPlain(a: string, b: string, fix: string -> string)
    requires a != "" && MatchLen(a) == 0 && MatchLen(a + b) == 0
    requires Sub(a[1..] + b, fix) == Sub(a[1..], fix) + Sub(b, fix)
    ensures Sub(a + b, fix) == Sub(a, fix) + Sub(b, fix)
  {
    var tail := a[1..];
    PlainHead(a, b, fix);
    SubNoMatch(a, fix);
    PieceSplits(Sub(a + b, fix), Sub(a, fix), Sub(b, fix), [a[0]], Sub(tail + b, fix), Sub(tail, fix));
  }

  lemma Associate(a: string, b: string, c: string)
    ensures a + (b + c) == (a + b) + c
  {
  }

  // ---- the carry ------------------------------------------------------------------------------

  /** The last escape character of data. */
  predicate IsLastEsc(data: string, i: int) {
    -1 <= i < |data| && (i >= 0 ==> data[i] == ESC) && forall j :: i < j < |data| ==> data[j] != ESC
  }

  lemma SomeLastEsc(data: string) returns (i: int)
    ensures IsLastEsc(data, i)
  {
    i := |data| - 1;
    while i >= 0 && data[i] != ESC
      invariant -1 <= i < |data| && forall j :: i < j < |data| ==> data[j] != ESC
    {
      i := i - 1;
    }
  }

  method LastEsc(data: string) returns (i: int)
    ensures IsLastEsc(data, i)
  {
    i := |data| - 1;
    while i >= 0 && data[i] != ESC
      invariant -1 <= i < |data| && forall j :: i < j < |data| ==> data[j] != ESC
    {
      i := i - 1;
    }
  }

  predicate IsFinal(c: char) {
    '@' <= c <= '~'
  }

  /** Some character of s from k on ends a control sequence. */
  predicate HasFinal(s: string, k: nat) {
    exists j :: k <= j < |s| && IsFinal(s[j])
  }

  predicate HasAt(s: string, t: string, i: nat) {
    i + |t| <= |s| && s[i..i + |t|] == t
  }

  predicate HasText(s: string, t: string) {
    exists i :: 0 <= i <= |s| && HasAt(s, t, i)
  }

  /** The unfinished escape sequence that begins at the last escape character, if that is what it begins. */
  predicate Unfinished(seg: string) {
    seg == [ESC] ||
    ([ESC, '['] <= seg && !HasFinal(seg, 2)) ||
    ([ESC, ']'] <= seg && BEL !in seg && !HasText(seg[2..], [ESC, '\\']))
  }

  /** A whole escape sequence: a control sequence to its final byte, a command to its terminator, any other two bytes. */
  predicate Whole(s: string) {
    |s| >= 2 && s[0] == ESC &&
    if s[1] == '[' then |s| >= 3 && IsFinal(s[|s| - 1]) && forall j :: 2 <= j < |s| - 1 ==> !IsFinal(s[j])
    else if s[1] == ']' then |s| >= 3 && s[|s| - 1] == BEL && BEL !in s[..|s| - 1]
    else |s| == 2
  }

  /** What begins at the last escape character is unfinished exactly if no whole sequence begins there. */
  lemma UnfinishedIsNotWhole(seg: string)
    requires seg != "" && seg[0] == ESC && ESC !in seg[1..]
    ensures Unfinished(seg) <==> forall n :: 0 <= n <= |seg| ==> !Whole(seg[..n])
  {
    NoTerminator(seg);
    if [ESC, '['] <= seg && HasFinal(seg, 2) {
      var n := FirstFinal(seg, 2);
      assert Whole(seg[..n + 1]);
    } else if [ESC, ']'] <= seg && BEL in seg {
      var n := FirstBel(seg);
      assert Whole(seg[..n + 1]);
    } else if |seg| >= 2 && seg[1] != '[' && seg[1] != ']' {
      assert Whole(seg[..2]);
    }
  }

  lemma HasTextHead(s: string, t: string)
    requires t != "" && HasText(s, t)
    ensures t[0] in s
  {
    var i :| 0 <= i <= |s| && HasAt(s, t, i);
    assert s[i..i + |t|][0] == s[i];
  }

  lemma NoTerminator(seg: string)
    requires seg != "" && ESC !in seg[1..]
    ensures |seg| >= 2 ==> !HasText(seg[2..], [ESC, '\\'])
  {
    if |seg| >= 2 {
      assert seg[1..] == [seg[1]] + seg[2..];
      if HasText(seg[2..], [ESC, '\\']) {
        HasTextHead(seg[2..], [ESC, '\\']);
      }
    }
  }

  lemma FirstFinal(s: string, k: nat) returns (n: nat)
    requires HasFinal(s, k)
    ensures k <= n < |s| && IsFinal(s[n]) && forall j :: k <= j < n ==> !IsFinal(s[j])
  {
    n := k;
    while !IsFinal(s[n])
      invariant k <= n < |s| && HasFinal(s, n) && forall j :: k <= j < n ==> !IsFinal(s[j])
      decreases |s| - n
    {
      n := n + 1;
    }
  }

  lemma FirstBel(s: string) returns (n: nat)
    requires BEL in s
    ensures n < |s| && s[n] == BEL && BEL !in s[..n]
  {
    n := 0;
    while s[n] != BEL
      invariant n < |s| && BEL !in s[..n] && BEL in s[n..]
      decreases |s| - n
    {
      n := n + 1;
    }
  }

  /** Where a truncated escape sequence begins at the end of data, or -1. */
  method TrailingIncomplete(data: string) returns (cut: int)
    ensures forall last :: IsLastEsc(data, last) ==> cut == if last >= 0 && Unfinished(data[last..]) then last else -1
  {
    var idx := LastEsc(data);
    assert forall last :: IsLastEsc(data, last) ==> last == idx;
    if idx == -1 {
      return -1;
    }
    var seg := data[idx..];
    if seg == [ESC] {
      return idx;
    }
    if [ESC, '['] <= seg {
      assert seg[1] == '[';
      return if HasFinal(seg, 2) then -1 else idx;
    }
    if [ESC, ']'] <= seg {
      return if BEL !in seg && !HasText(seg[2..], [ESC, '\\']) then idx else -1;
    }
    return -1;
  }

  /** Whatever the carry keeps back, nothing unfinished goes out. */
  lemma CutIsSafe(data: string, rest: string, last: int)
    requires IsLastEsc(data, last)
    ensures if last >= 0 && Unfinished(data[last..]) then SafeCut(data[..last], data[last..] + rest) else SafeCut(data, rest)
  {
  }

  // ---- the writer -----------------------------------------------------------------------------

  datatype Event = Event(at: real, data: string)

  /** The stream the events make together. */
  function Stream(events: seq<Event>): string {
    if events == [] then "" else events[0].data + Stream(events[1..])
  }

  lemma {:induction false} StreamSnoc(events: seq<Event>, e: Event)
    ensures Stream(events + [e]) == Stream(events) + e.data
  {
    if events == [] {
      assert [e][1..] == [] && e.data + "" == e.data && "" + e.data == e.data;
      assert events + [e] == [e];
    } else {
      assert (events + [e])[1..] == events[1..] + [e];
      StreamSnoc(events[1..], e);
      assert events[0].data + (Stream(events[1..]) + e.data) == (events[0].data + Stream(events[1..])) + e.data;
    }
  }

  /** What one event puts out and what it keeps back: the rewrite of the rest is unaffected. */
  lemma CarryStep(done: string, data: string, rest: string, last: int, fix: string -> string)
    requires IsLastEsc(data, last)
    ensures var cut := if last >= 0 && Unfinished(data[last..]) then last else |data|;
      done + Sub(data + rest, fix) == done + Sub(data[..cut], fix) + Sub(data[cut..] + rest, fix)
  {
    CutIsSafe(data, rest, last);
    if last >= 0 && Unfinished(data[last..]) {
      assert data + rest == data[..last] + (data[last..] + rest);
      SubSplits(data[..last], data[last..] + rest, fix);
      Associate(done, Sub(data[..last], fix), Sub(data[last..] + rest, fix));
    } else {
      assert data[..|data|] == data && data[|data|..] + rest == rest;
      SubSplits(data, rest, fix);
      Associate(done, Sub(data, fix), Sub(rest, fix));
    }
  }

  /**
   Writes the events out, colours inverted or not. However the stream was split into events, the texts put
   out are together the rewrite of the whole stream, one per event and at its time; nothing is kept back at
   the end.
   */
  method WriteV2(events: seq<Event>, invert: bool, inv: Colour -> Colour) returns (out: seq<Event>)
    ensures |out| == |events| && SameTimes(out, events)
    ensures Stream(out) == if invert then Sub(Stream(events), InvertColours(inv)) else Stream(events)
  {
    LeftAtStart(events, invert, InvertColours(inv));
    out := WriteEvents(events, invert, InvertColours(inv));
  }

  /** Each text goes out at its event's time. */
  predicate SameTimes(out: seq<Event>, events: seq<Event>) {
    |out| <= |events| && forall k :: 0 <= k < |out| ==> out[k].at == events[k].at
  }

  /** The writer's loop over the events. */
  method WriteEvents(events: seq<Event>, invert: bool, fix: string -> string) returns (out: seq<Event>)
    ensures |out| == |events| && SameTimes(out, events)
    ensures Stream(out) == Left(Stream([]), "", Stream(events[0..]), invert, fix)
  {
    ghost var whole := Left(Stream([]), "", Stream(events[0..]), invert, fix);
    out := [];
    var pending := "";
    var n := |events|;
    for k := 0 to n
      invariant |out| == k && SameTimes(out, events)
      invariant k == n ==> pending == ""
      invariant Left(Stream(out), pending, Stream(events[k..]), invert, fix) == whole
    {
      var e, kept := WriteNext(events, k, pending, invert, fix, out);
      out := out + [e];
      pending := kept;
    }
    assert events[n..] == [];
    LeftAtEnd(Stream(out), invert, fix);
  }

  lemma LeftAtStart(events: seq<Event>, invert: bool, fix: string -> string)
    ensures Left(Stream([]), "", Stream(events[0..]), invert, fix) == if invert then Sub(Stream(events), fix) else Stream(events)
  {
    assert events[0..] == events;
    var s := Stream(events);
    assert "" + s == s && "" + Sub(s, fix) == Sub(s, fix);
  }

  lemma LeftAtEnd(done: string, invert: bool, fix: string -> string)
    ensures Left(done, "", Stream([]), invert, fix) == done
  {
  }

  /** The k-th event, after what the earlier ones kept back. */
  method WriteNext(events: seq<Event>, k: nat, pending: string, invert: bool, fix: string -> string, ghost out: seq<Event>)
      returns (e: Event, kept: string)
    requires k < |events|
    ensures e.at == events[k].at && (k == |events| - 1 ==> kept == "")
    ensures Left(Stream(out + [e]), kept, Stream(events[k + 1..]), invert, fix) ==
      Left(Stream(out), pending, Stream(events[k..]), invert, fix)
  {
    ghost var rest := Stream(events[k + 1..]);
    assert k == |events| - 1 ==> events[k + 1..] == [];
    var data;
    data, kept := WriteEvent(pending + events[k].data, k < |events| - 1, invert, fix, Stream(out), rest);
    LeftStep(events, k, out, pending, invert, fix);
    e := Event(events[k].at, data);
    StreamSnoc(out, e);
  }

  /** What is put out, and what the rest of the stream will become. */
  function Left(done: string, pending: string, rest: string, invert: bool, fix: string -> string): string {
    done + if invert then Sub(pending + rest, fix) else pending + rest
  }

  lemma LeftStep(events: seq<Event>, k: nat, out: seq<Event>, pending: string, invert: bool, fix: string -> string)
    requires k < |events|
    ensures Left(Stream(out), "", pending + events[k].data + Stream(events[k + 1..]), invert, fix) ==
      Left(Stream(out), pending, Stream(events[k..]), invert, fix)
  {
    assert events[k..][1..] == events[k + 1..];
    Associate(pending, events[k].data, Stream(events[k + 1..]));
    var rest := pending + events[k].data + Stream(events[k + 1..]);
    assert "" + rest == rest;
  }

  /** One event: what it puts out and what it keeps back, which only an event that is not the last may do. */
  method WriteEvent(data: string, more: bool, invert: bool, fix: string -> string, ghost done: string, ghost rest: string)
      returns (text: string, pending: string)
    requires !more ==> rest == ""
    ensures Left(done + text, pending, rest, invert, fix) == Left(done, "", data + rest, invert, fix)
    ensures !more || !invert ==> pending == ""
  {
    assert "" + (data + rest) == data + rest && "" + rest == rest;
    if !invert {
      Associate(done, data, rest);
      return data, "";
    }
    var cut := TrailingIncomplete(data);
    ghost var last := SomeLastEsc(data);
    CarryStep(done, data, rest, last, fix);
    if cut != -1 && more {
      return Sub(data[..cut], fix), data[cut..];
    }
    if !more {
      assert data + rest == data && Sub("", fix) == "" && done + Sub(data, fix) + "" == done + Sub(data, fix);
    } else {
      assert data[..|data|] == data && data[|data|..] == "";
    }
    return Sub(data, fix), "";
  }
}
