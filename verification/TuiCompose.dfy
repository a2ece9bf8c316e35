/**
 Rewriting a stream twice is rewriting it once with the composed colour maps: the rewrite leaves every
 sequence an SGR sequence with its parameters in place, makes no new one, and writes colours it reads back.
 */
module TuiCompose {
  import opened TuiVideo

  function Compose(f: Colour -> Colour, g: Colour -> Colour): Colour -> Colour {
    c => g(f(c))
  }

  // ---- numbers --------------------------------------------------------------------------------

  predicate AllDigits(s: string) {
    forall i :: 0 <= i < |s| ==> '0' <= s[i] <= '9'
  }

  lemma DigitValue(d: nat)
    requires d < 10
    ensures '0' <= Digit(d) <= '9' && (Digit(d) as int) - ('0' as int) == d
  {
  }

  lemma {:induction false} DecimalReads(n: nat)
    ensures ParseNat(Decimal(n)) == n && AllDigits(Decimal(n)) && Decimal(n) != ""
  {
    if n < 10 {
      DigitValue(n);
      assert [Digit(n)][..0] == "";
    } else {
      DecimalReads(n / 10);
      DigitValue(n % 10);
      assert Decimal(n)[..|Decimal(n)| - 1] == Decimal(n / 10);
    }
  }

  // ---- parameter lists ------------------------------------------------------------------------

  /** No part holds a separator, and each is made of parameter characters. */
  predicate PlainParts(parts: seq<string>) {
    forall i :: 0 <= i < |parts| ==> AllDigits(parts[i])
  }

  predicate AllParams(s: string) {
    forall i :: 0 <= i < |s| ==> IsParam(s[i])
  }

  lemma {:induction false} SplitPlain(s: string)
    requires AllParams(s)
    ensures PlainParts(Split(s))
  {
    if s == "" {
    } else {
      assert IsParam(s[0]);
      SplitPlain(s[1..]);
      var parts := Split(s[1..]);
      assert AllDigits(parts[0]);
      if s[0] != ';' {
        assert AllDigits([s[0]] + parts[0]);
        assert Split(s) == [[s[0]] + parts[0]] + parts[1..];
      } else {
        assert Split(s) == [""] + parts;
      }
    }
  }

  lemma {:induction false} SplitDigits(d: string, rest: string)
    requires AllDigits(d)
    ensures Split(d + rest) == [d + Split(rest)[0]] + Split(rest)[1..]
  {
    if d == "" {
      assert d + rest == rest && d + Split(rest)[0] == Split(rest)[0];
      assert Split(rest) == [Split(rest)[0]] + Split(rest)[1..];
    } else {
      assert (d + rest)[1..] == d[1..] + rest && (d + rest)[0] == d[0];
      SplitDigits(d[1..], rest);
      assert d == [d[0]] + d[1..];
      assert [d[0]] + (d[1..] + Split(rest)[0]) == d + Split(rest)[0];
    }
  }

  lemma {:induction false} SplitJoin(parts: seq<string>)
    requires parts != [] && PlainParts(parts)
    ensures Split(Join(parts)) == parts && AllParams(Join(parts))
  {
    if |parts| == 1 {
      SplitDigits(parts[0], "");
      assert parts[0] + "" == parts[0] && parts == [parts[0]];
    } else {
      var rest := Join(parts[1..]);
      SplitJoin(parts[1..]);
      SplitDigits(parts[0], ";" + rest);
      assert (";" + rest)[1..] == rest && (";" + rest)[0] == ';';
      assert Split(";" + rest) == [""] + parts[1..];
      assert parts[0] + (";" + rest) == Join(parts) && parts[0] + "" == parts[0];
      assert parts == [parts[0]] + parts[1..];
    }
  }

  /** The parts are what stands between the semicolons. */
  lemma {:induction false} SplitsAtSemicolons(s: string)
    ensures Join(Split(s)) == s && forall i :: 0 <= i < |Split(s)| ==> ';' !in Split(s)[i]
  {
    if s == "" {
    } else {
      SplitsAtSemicolons(s[1..]);
      var parts := Split(s[1..]);
      assert s == [s[0]] + s[1..];
      if s[0] == ';' {
        assert ([""] + parts)[1..] == parts && [""][0] == "" && "" + ";" == ";";
      } else {
        var head := [s[0]] + parts[0];
        assert Split(s) == [head] + parts[1..] && ([head] + parts[1..])[1..] == parts[1..];
        if |parts| > 1 {
          assert head + ";" + Join(parts[1..]) == [s[0]] + (parts[0] + ";" + Join(parts[1..]));
        }
      }
    }
  }

  lemma {:induction false} FixPlain(p: seq<string>, f: Colour -> Colour)
    requires PlainParts(p)
    ensures PlainParts(FixParams(p, f))
    decreases |p|
  {
    if p == [] {
    } else if IsTriple(p) {
      var (r, g, b) := f((ParseNat(p[2]), ParseNat(p[3]), ParseNat(p[4])));
      DecimalReads(r);
      DecimalReads(g);
      DecimalReads(b);
      FixPlain(p[5..], f);
    } else {
      FixPlain(p[1..], f);
    }
  }

  lemma {:induction false} FixTwice(p: seq<string>, f: Colour -> Colour, g: Colour -> Colour)
    ensures FixParams(FixParams(p, f), g) == FixParams(p, Compose(f, g))
    decreases |p|
  {
    if p == [] {
    } else if IsTriple(p) {
      FixTwice(p[5..], f, g);
      TripleTwice(p, f, g);
    } else {
      FixTwice(p[1..], f, g);
      PlainTwice(p, f, g);
    }
  }

  lemma TripleTwice(p: seq<string>, f: Colour -> Colour, g: Colour -> Colour)
    requires IsTriple(p) && FixParams(FixParams(p[5..], f), g) == FixParams(p[5..], Compose(f, g))
    ensures FixParams(FixParams(p, f), g) == FixParams(p, Compose(f, g))
  {
    var c := f((ParseNat(p[2]), ParseNat(p[3]), ParseNat(p[4])));
    DecimalReads(c.0);
    DecimalReads(c.1);
    DecimalReads(c.2);
    var t := TripleOf(p, f);
    var q := FixParams(p, f);
    assert q == t + FixParams(p[5..], f) && q[5..] == FixParams(p[5..], f);
    assert q[0] == p[0] && q[1] == "2" && q[2] == Decimal(c.0) && q[3] == Decimal(c.1) && q[4] == Decimal(c.2);
    assert IsTriple(q) && TripleOf(q, g) == TripleOf(p, Compose(f, g));
  }

  lemma PlainTwice(p: seq<string>, f: Colour -> Colour, g: Colour -> Colour)
    requires p != [] && !IsTriple(p) && FixParams(FixParams(p[1..], f), g) == FixParams(p[1..], Compose(f, g))
    ensures FixParams(FixParams(p, f), g) == FixParams(p, Compose(f, g))
  {
  }

  // ---- whole streams --------------------------------------------------------------------------

  lemma {:induction false} RunOfParams(x: string, rest: string)
    requires AllParams(x) && (rest == "" || !IsParam(rest[0]))
    ensures ParamRun(x + rest) == |x|
  {
    if x == "" {
      assert x + rest == rest;
    } else {
      assert (x + rest)[1..] == x[1..] + rest && (x + rest)[0] == x[0];
      RunOfParams(x[1..], rest);
    }
  }

  /** An SGR sequence is matched whole, whatever follows. */
  lemma SequenceMatches(inner: string, rest: string)
    requires AllParams(inner)
    ensures MatchLen([ESC, '['] + inner + "m" + rest) == |inner| + 3
  {
    var x := [ESC, '['] + inner + "m" + rest;
    RunOfParams(inner, "m" + rest);
    assert x[2..] == inner + ("m" + rest);
    assert x[0] == ESC && x[1] == '[' && x[2 + |inner|] == 'm';
  }

  /** A rewritten sequence is again a whole SGR sequence. */
  lemma FixedMatches(params: string, f: Colour -> Colour, rest: string)
    requires AllParams(params)
    ensures var x := FixSgr(params, f);
      MatchLen(x + rest) == |x| && x[2..|x| - 1] == Join(FixParams(Split(params), f))
  {
    SplitPlain(params);
    FixPlain(Split(params), f);
    var parts := FixParams(Split(params), f);
    SplitJoin(parts);
    SequenceMatches(Join(parts), rest);
    assert FixSgr(params, f) == [ESC, '['] + Join(parts) + "m";
  }

  lemma FixSgrTwice(params: string, f: Colour -> Colour, g: Colour -> Colour)
    requires AllParams(params)
    ensures FixSgr(Join(FixParams(Split(params), f)), g) == FixSgr(params, Compose(f, g))
  {
    SplitPlain(params);
    FixPlain(Split(params), f);
    SplitJoin(FixParams(Split(params), f));
    FixTwice(Split(params), f, g);
  }

  /** A replacement that begins, as what it replaces did, with an escape. */
  ghost predicate KeepsEsc(fix: string -> string) {
    forall params :: fix(params) != "" && fix(params)[0] == ESC
  }

  lemma SubKeepsHead(s: string, fix: string -> string)
    requires s != "" && KeepsEsc(fix)
    ensures Sub(s, fix) != "" && Sub(s, fix)[0] == s[0]
  {
  }

  lemma {:induction false} SubCopies(x: string, rest: string, fix: string -> string)
    requires ESC !in x
    ensures Sub(x + rest, fix) == x + Sub(rest, fix)
  {
    if x == "" {
      assert x + rest == rest && x + Sub(rest, fix) == Sub(rest, fix);
    } else {
      assert (x + rest)[0] == x[0] != ESC;
      PlainHead(x, rest, fix);
      SubCopies(x[1..], rest, fix);
      assert [x[0]] + (x[1..] + Sub(rest, fix)) == x + Sub(rest, fix);
    }
  }

  /** The characters after an unmatched introducer: its parameters, copied, and whatever stopped them. */
  lemma IntroducerCopied(s: string, fix: string -> string)
    requires |s| >= 2 && s[0] == ESC && s[1] == '['
    ensures var n := ParamRun(s[2..]); Sub(s[1..], fix) == s[1..2 + n] + Sub(s[2 + n..], fix)
  {
    var n := ParamRun(s[2..]);
    var run := s[1..2 + n];
    ParamRunIs(s[2..]);
    assert s[1..] == run + s[2 + n..];
    forall i | 0 <= i < |run| ensures run[i] != ESC {
      assert i > 0 ==> run[i] == s[2..][i - 1];
    }
    SubCopies(run, s[2 + n..], fix);
  }

  lemma IntroducerUnmatched(params: string, tail: string)
    requires AllParams(params) && (tail == "" || (!IsParam(tail[0]) && tail[0] != 'm'))
    ensures MatchLen([ESC, '['] + (params + tail)) == 0
  {
    var t := [ESC, '['] + (params + tail);
    assert t[2..] == params + tail;
    RunOfParams(params, tail);
    assert tail != "" ==> t[2 + |params|] == tail[0];
  }

  /** What stops an unmatched introducer's parameters. */
  lemma IntroducerStops(s: string)
    requires |s| >= 2 && s[0] == ESC && s[1] == '[' && MatchLen(s) == 0
    ensures var n := ParamRun(s[2..]);
      AllParams(s[2..2 + n]) && (2 + n < |s| ==> !IsParam(s[2 + n]) && s[2 + n] != 'm')
  {
    var n := ParamRun(s[2..]);
    var params := s[2..2 + n];
    ParamRunIs(s[2..]);
    forall i | 0 <= i < |params| ensures IsParam(params[i]) {
      assert params[i] == s[2..][i];
    }
    assert 2 + n < |s| ==> s[2 + n] == s[2..][n];
  }

  lemma NoIntroducerMade(s: string, fix: string -> string)
    requires |s| >= 2 && s[0] == ESC && s[1] == '[' && MatchLen(s) == 0 && KeepsEsc(fix)
    ensures MatchLen([s[0]] + Sub(s[1..], fix)) == 0
  {
    var n := ParamRun(s[2..]);
    var params, rest := s[2..2 + n], s[2 + n..];
    IntroducerCopied(s, fix);
    IntroducerStops(s);
    var tail := Sub(rest, fix);
    if rest != "" {
      SubKeepsHead(rest, fix);
    }
    IntroducerUnmatched(params, tail);
    Regroup(s, params, tail);
  }

  lemma Regroup(s: string, params: string, tail: string)
    requires |s| >= 2 + |params| && s[0] == ESC && s[1] == '[' && s[2..2 + |params|] == params
    ensures [s[0]] + (s[1..2 + |params|] + tail) == [ESC, '['] + (params + tail)
  {
  }

  /** Where nothing matched, nothing matches after the rest has been rewritten. */
  lemma NothingMade(s: string, fix: string -> string)
    requires s != "" && MatchLen(s) == 0 && KeepsEsc(fix)
    ensures MatchLen([s[0]] + Sub(s[1..], fix)) == 0
  {
    if s[0] == ESC && |s| >= 2 {
      if s[1] == '[' {
        NoIntroducerMade(s, fix);
      } else {
        SubKeepsHead(s[1..], fix);
      }
    }
  }

  lemma InvertKeepsEsc(f: Colour -> Colour)
    ensures KeepsEsc(InvertColours(f))
  {
  }

  /** The rewrite composes. */
  lemma {:induction false} SubComposes(s: string, f: Colour -> Colour, g: Colour -> Colour)
    ensures Sub(Sub(s, InvertColours(f)), InvertColours(g)) == Sub(s, InvertColours(Compose(f, g)))
    decreases |s|
  {
    if s == "" {
    } else {
      var n := MatchLen(s);
      if n > 0 {
        SubComposes(s[n..], f, g);
        MatchedComposes(s, f, g);
      } else {
        SubComposes(s[1..], f, g);
        PlainComposes(s, f, g);
      }
    }
  }

  lemma PlainComposes(s: string, f: Colour -> Colour, g: Colour -> Colour)
    requires s != "" && MatchLen(s) == 0
    requires Sub(Sub(s[1..], InvertColours(f)), InvertColours(g)) == Sub(s[1..], InvertColours(Compose(f, g)))
    ensures Sub(Sub(s, InvertColours(f)), InvertColours(g)) == Sub(s, InvertColours(Compose(f, g)))
  {
    var once := Sub(s[1..], InvertColours(f));
    InvertKeepsEsc(f);
    NothingMade(s, InvertColours(f));
    var t := [s[0]] + once;
    assert t[0] == s[0] && t[1..] == once;
    SubNoMatch(s, InvertColours(f));
    SubNoMatch(t, InvertColours(g));
    SubNoMatch(s, InvertColours(Compose(f, g)));
  }

  /** A rewritten sequence is rewritten again, whatever follows. */
  lemma SequenceTwice(params: string, rest: string, f: Colour -> Colour, g: Colour -> Colour)
    requires AllParams(params)
    ensures Sub(FixSgr(params, f) + rest, InvertColours(g)) == FixSgr(params, Compose(f, g)) + Sub(rest, InvertColours(g))
  {
    var x := FixSgr(params, f);
    var c := x + rest;
    FixedMatches(params, f, rest);
    assert c[|x|..] == rest && c[2..|x| - 1] == x[2..|x| - 1];
    FixSgrTwice(params, f, g);
    SubMatch(c, InvertColours(g));
  }

  lemma MatchedComposes(s: string, f: Colour -> Colour, g: Colour -> Colour)
    requires MatchLen(s) > 0
    requires Sub(Sub(s[MatchLen(s)..], InvertColours(f)), InvertColours(g)) ==
      Sub(s[MatchLen(s)..], InvertColours(Compose(f, g)))
    ensures Sub(Sub(s, InvertColours(f)), InvertColours(g)) == Sub(s, InvertColours(Compose(f, g)))
  {
    var n := MatchLen(s);
    var params := s[2..n - 1];
    ParamRunIs(s[2..]);
    forall i | 0 <= i < |params| ensures IsParam(params[i]) {
      assert params[i] == s[2..][i];
    }
    SequenceTwice(params, Sub(s[n..], InvertColours(f)), f, g);
    SubMatch(s, InvertColours(f));
    SubMatch(s, InvertColours(Compose(f, g)));
  }

  // ---- what the rewrite does ------------------------------------------------------------------

  /** The stream begins with the SGR sequence of these parameters. */
  predicate Begins(s: string, params: string) {
    AllParams(params) && [ESC, '['] + params + "m" <= s
  }

  /** Exactly the SGR sequences are matched, and each to its end. */
  lemma MatchesSequences(s: string, params: string)
    ensures MatchLen(s) > 0 ==> Begins(s, s[2..MatchLen(s) - 1])
    ensures Begins(s, params) ==> MatchLen(s) == |params| + 3 && s[2..MatchLen(s) - 1] == params
  {
    if |s| >= 2 {
      ParamRunIs(s[2..]);
    }
    if MatchLen(s) > 0 {
      var inner := s[2..MatchLen(s) - 1];
      assert s[..MatchLen(s)] == [ESC, '['] + inner + "m";
    }
    if Begins(s, params) {
      var rest := s[|params| + 3..];
      assert s == [ESC, '['] + params + "m" + rest;
      SequenceMatches(params, rest);
    }
  }

  /** The stream is rewritten from its head on: a sequence by its own rewrite, any other character kept. */
  lemma RewritesSequences(s: string, params: string, fix: string -> string)
    ensures Begins(s, params) ==> Sub(s, fix) == fix(params) + Sub(s[|params| + 3..], fix)
    ensures s != "" && (forall p :: !Begins(s, p)) ==> Sub(s, fix) == [s[0]] + Sub(s[1..], fix)
  {
    MatchesSequences(s, params);
    if Begins(s, params) {
      SubMatch(s, fix);
    } else if s != "" && MatchLen(s) == 0 {
      SubNoMatch(s, fix);
    }
  }

  /** A foreground or background colour given by three numbers is inverted, wherever it stands among the parameters. */
  lemma InvertsColours(kind: string, r: nat, g: nat, b: nat, rest: seq<string>, inv: Colour -> Colour)
    requires kind in {"38", "48"}
    ensures var (x, y, z) := inv((r, g, b));
      FixParams([kind, "2", Decimal(r), Decimal(g), Decimal(b)] + rest, inv) ==
      [kind, "2", Decimal(x), Decimal(y), Decimal(z)] + FixParams(rest, inv)
  {
    var p := [kind, "2", Decimal(r), Decimal(g), Decimal(b)] + rest;
    DecimalReads(r);
    DecimalReads(g);
    DecimalReads(b);
    assert p[5..] == rest;
  }

  /** A parameter that starts no such colour is kept. */
  lemma KeepsOthers(head: string, rest: seq<string>, inv: Colour -> Colour)
    requires head !in {"38", "48"} || |rest| < 4 || rest[0] != "2"
    ensures FixParams([head] + rest, inv) == [head] + FixParams(rest, inv)
  {
    assert ([head] + rest)[1..] == rest;
  }
}
