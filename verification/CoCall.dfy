/**
 The co-call rule: each call that triggers it needs a Requires call of its own later in the body. The
 rule settles greedily with a stack; a greedy verdict is the best any matching could do.
 */
module CoCall {
  import opened Options
  import opened Counting

  // ---- syntax ---------------------------------------------------------------------------------

  /** The parts of a body the rule looks at; Other is any node that is none of these. */
  datatype Expr =
    | Ident(name: string)
    | Selector(x: Expr, sel: string)
    | Call(fun: Expr, args: seq<Expr>, line: nat)
    | Other(children: seq<Expr>)

  datatype Rule = Rule(triggers: set<string>, required: string)

  predicate IsSatisfiedCall(fun: Expr, required: string) {
    match fun
    case Selector(_, sel) => sel == required
    case Ident(name) => name == required
    case _ => false
  }

  /** The trigger a call is, if it is one: a plain name, or a name qualified by one identifier. */
  function TriggerCall(fun: Expr, triggers: set<string>): Option<string> {
    match fun
    case Selector(Ident(pkg), sel) => if pkg + "." + sel in triggers then Some(pkg + "." + sel) else None
    case Ident(name) => if name in triggers then Some(name) else None
    case _ => None
  }

  /** One call as the rule sees it. */
  datatype Site = Site(settles: bool, trigger: Option<string>, line: nat)

  /** The calls of a node in the order the walk meets them: a call before its own function and arguments. */
  function Calls(e: Expr, rule: Rule): seq<Site>
    decreases e
  {
    match e
    case Ident(_) => []
    case Selector(x, _) => Calls(x, rule)
    case Other(children) => CallsAll(children, rule)
    case Call(fun, args, line) =>
      [Site(IsSatisfiedCall(fun, rule.required), TriggerCall(fun, rule.triggers), line)] +
      Calls(fun, rule) + CallsAll(args, rule)
  }

  function CallsAll(es: seq<Expr>, rule: Rule): seq<Site>
    decreases es
  {
    if es == [] then [] else Calls(es[0], rule) + CallsAll(es[1..], rule)
  }

  // ---- positions in the tree ------------------------------------------------------------------

  /** Which child to take at each node on the way down; a call's function is child 0, its arguments follow. */
  type Path = seq<nat>

  /** A node's children in source order. */
  function Kids(e: Expr): seq<Expr> {
    match e
    case Ident(_) => []
    case Selector(x, _) => [x]
    case Call(fun, args, _) => [fun] + args
    case Other(children) => children
  }

  predicate HasPath(e: Expr, p: Path)
    decreases |p|
  {
    p == [] || (p[0] < |Kids(e)| && HasPath(Kids(e)[p[0]], p[1..]))
  }

  function At(e: Expr, p: Path): Expr
    requires HasPath(e, p)
    decreases |p|
  {
    if p == [] then e else At(Kids(e)[p[0]], p[1..])
  }

  /** p is met before q: it is an ancestor, or parts from it towards an earlier child. */
  predicate Earlier(p: Path, q: Path)
    decreases |p|
  {
    q != [] && (p == [] || p[0] < q[0] || (p[0] == q[0] && Earlier(p[1..], q[1..])))
  }

  function Below(i: nat, p: Path): Path {
    [i] + p
  }

  /** A call's own position is met before everything below it, its function before its arguments, those in turn. */
  lemma CallOrder(fun: Expr, args: seq<Expr>, line: nat, p: Path, q: Path, r: Path, i: nat, j: nat)
    requires i < j < |args| && HasPath(fun, p) && HasPath(args[i], q) && HasPath(args[j], r)
    ensures var e := Call(fun, args, line);
      HasPath(e, Below(0, p)) && At(e, Below(0, p)) == At(fun, p) &&
      HasPath(e, Below(i + 1, q)) && At(e, Below(i + 1, q)) == At(args[i], q) &&
      Earlier([], Below(0, p)) && Earlier(Below(0, p), Below(i + 1, q)) &&
      Earlier(Below(i + 1, q), Below(j + 1, r))
  {
    assert Below(0, p)[1..] == p && Below(i + 1, q)[1..] == q;
  }

  predicate CallAt(e: Expr, p: Path) {
    HasPath(e, p) && At(e, p).Call?
  }

  /** The call there names the required function, plainly or as the last name of a selector. */
  predicate SettlesAt(e: Expr, rule: Rule, p: Path) {
    CallAt(e, p) &&
    (At(e, p).fun == Ident(rule.required) || (At(e, p).fun.Selector? && At(e, p).fun.sel == rule.required))
  }

  /** The call there is a trigger under this name: a plain name, or one qualified by a single identifier. */
  predicate TriggersAt(e: Expr, rule: Rule, p: Path, name: string) {
    CallAt(e, p) && name in rule.triggers &&
    (At(e, p).fun == Ident(name) ||
     (At(e, p).fun.Selector? && At(e, p).fun.x.Ident? && name == At(e, p).fun.x.name + "." + At(e, p).fun.sel))
  }

  predicate Ordered(ps: seq<Path>) {
    forall i, j :: 0 <= i < j < |ps| ==> Earlier(ps[i], ps[j])
  }

  /** Every call of the tree once, in the order the walk meets them. */
  ghost predicate Walk(e: Expr, ps: seq<Path>) {
    Ordered(ps) && forall p :: p in ps <==> CallAt(e, p)
  }

  /** What the rule sees at each call of a walk. */
  ghost predicate Shows(e: Expr, rule: Rule, ps: seq<Path>, calls: seq<Site>) {
    |calls| == |ps| && forall i :: 0 <= i < |ps| ==> ShowsAt(e, rule, ps[i], calls[i])
  }

  ghost predicate ShowsAt(e: Expr, rule: Rule, p: Path, call: Site) {
    CallAt(e, p) && (call.settles <==> SettlesAt(e, rule, p)) &&
    (forall name :: call.trigger == Some(name) <==> TriggersAt(e, rule, p, name)) && call.line == At(e, p).line
  }

  lemma {:induction false} EarlierIsStrict(p: Path, q: Path, r: Path)
    ensures !(Earlier(p, q) && Earlier(q, p)) && !Earlier(p, p)
    ensures Earlier(p, q) && Earlier(q, r) ==> Earlier(p, r)
    ensures p == q || Earlier(p, q) || Earlier(q, p)
    decreases |p|
  {
    if p != [] {
      EarlierIsStrict(p[1..], if q != [] then q[1..] else [], if r != [] then r[1..] else []);
      if q != [] && p[0] == q[0] && p[1..] == q[1..] {
        assert p == [p[0]] + p[1..] && q == [q[0]] + q[1..];
      }
    }
  }

  function Under(n: nat, ps: seq<Path>): (qs: seq<Path>)
    ensures |qs| == |ps| && forall i :: 0 <= i < |ps| ==> qs[i] == [n] + ps[i]
  {
    seq(|ps|, i requires 0 <= i < |ps| => [n] + ps[i])
  }

  /** The calls' positions, listed as the walk meets them. */
  function CallPaths(e: Expr): seq<Path>
    decreases e, 1
  {
    match e
    case Ident(_) => []
    case Selector(x, _) => Under(0, CallPaths(x))
    case Other(children) => KidPaths(children, 0)
    case Call(fun, args, _) => [[]] + (Under(0, CallPaths(fun)) + KidPaths(args, 1))
  }

  function KidPaths(es: seq<Expr>, n: nat): seq<Path>
    decreases es, 0
  {
    if es == [] then [] else Under(n, CallPaths(es[0])) + KidPaths(es[1..], n + 1)
  }

  /** Positions among the children es, numbered from n. */
  ghost predicate KidCallAt(es: seq<Expr>, n: nat, p: Path) {
    p != [] && n <= p[0] < n + |es| && CallAt(es[p[0] - n], p[1..])
  }

  lemma UnderWalk(e: Expr, n: nat, ps: seq<Path>, p: Path)
    requires Walk(e, ps)
    ensures Ordered(Under(n, ps)) && (p in Under(n, ps) <==> p != [] && p[0] == n && CallAt(e, p[1..]))
  {
    var qs := Under(n, ps);
    forall i, j | 0 <= i < j < |qs| ensures Earlier(qs[i], qs[j]) {
      assert qs[i][1..] == ps[i] && qs[j][1..] == ps[j];
    }
    if p != [] && p[0] == n && CallAt(e, p[1..]) {
      var i :| 0 <= i < |ps| && ps[i] == p[1..];
      assert qs[i] == p;
    }
    if p in qs {
      var i :| 0 <= i < |qs| && qs[i] == p;
      assert p[1..] == ps[i] && ps[i] in ps;
    }
  }

  /** Two lists of positions, everything in the first met before everything in the second. */
  lemma OrderedJoin(ps: seq<Path>, qs: seq<Path>)
    requires Ordered(ps) && Ordered(qs) && forall p, q :: p in ps && q in qs ==> Earlier(p, q)
    ensures Ordered(ps + qs)
  {
  }

  lemma {:induction false} KidWalk(es: seq<Expr>, n: nat)
    ensures Ordered(KidPaths(es, n)) && forall p :: p in KidPaths(es, n) <==> KidCallAt(es, n, p)
    decreases es, 0
  {
    if es == [] {
    } else {
      var first, rest := Under(n, CallPaths(es[0])), KidPaths(es[1..], n + 1);
      CallWalk(es[0]);
      KidWalk(es[1..], n + 1);
      forall p
        ensures p in first <==> p != [] && p[0] == n && CallAt(es[0], p[1..])
        ensures p in first + rest <==> KidCallAt(es, n, p)
      {
        UnderWalk(es[0], n, CallPaths(es[0]), p);
      }
      UnderWalk(es[0], n, CallPaths(es[0]), []);
      forall p, q | p in first && q in rest ensures Earlier(p, q) {
        assert KidCallAt(es[1..], n + 1, q);
      }
      OrderedJoin(first, rest);
    }
  }

  /** The listing is the walk: every call of the tree once, each before whatever lies below it. */
  lemma {:induction false} CallWalk(e: Expr)
    ensures Walk(e, CallPaths(e))
    decreases e, 1
  {
    match e
    case Ident(_) =>
    case Selector(x, _) =>
      CallWalk(x);
      forall p ensures p in CallPaths(e) <==> CallAt(e, p) {
        UnderWalk(x, 0, CallPaths(x), p);
      }
      UnderWalk(x, 0, CallPaths(x), []);
    case Other(children) => KidWalk(children, 0);
    case Call(fun, args, _) =>
      var mine, below := Under(0, CallPaths(fun)), KidPaths(args, 1);
      CallWalk(fun);
      KidWalk(args, 1);
      UnderWalk(fun, 0, CallPaths(fun), []);
      forall p ensures p in mine <==> p != [] && p[0] == 0 && CallAt(fun, p[1..]) {
        UnderWalk(fun, 0, CallPaths(fun), p);
      }
      forall p, q | p in mine && q in below ensures Earlier(p, q) {
        assert KidCallAt(args, 1, q);
      }
      OrderedJoin(mine, below);
      OrderedJoin([[]], mine + below);
      CallMembers(fun, args, e, mine, below);
  }

  lemma CallMembers(fun: Expr, args: seq<Expr>, e: Expr, mine: seq<Path>, below: seq<Path>)
    requires e.Call? && e.fun == fun && e.args == args
    requires forall p :: p in mine <==> p != [] && p[0] == 0 && CallAt(fun, p[1..])
    requires forall p :: p in below <==> KidCallAt(args, 1, p)
    ensures forall p :: p in [[]] + (mine + below) <==> CallAt(e, p)
  {
  }

  lemma HasMember(ps: seq<Path>)
    requires ps != []
    ensures exists p :: p in ps
  {
    assert ps[0] in ps;
  }

  lemma {:induction false} SameMembersSameOrder(ps: seq<Path>, qs: seq<Path>)
    requires Ordered(ps) && Ordered(qs) && forall p :: p in ps <==> p in qs
    ensures ps == qs
  {
    if ps == [] {
      if qs != [] {
        HasMember(qs);
      }
    } else {
      assert ps[0] in qs;
      FirstIsFirst(ps, qs);
      forall p ensures p in ps[1..] <==> p in qs[1..] {
        OnlyFirst(ps, p);
        OnlyFirst(qs, p);
      }
      SameMembersSameOrder(ps[1..], qs[1..]);
      assert ps == [ps[0]] + ps[1..] && qs == [qs[0]] + qs[1..];
    }
  }

  /** There is only one walk, and what it shows decides the sites. */
  lemma WalkUnique(e: Expr, rule: Rule, ps: seq<Path>, qs: seq<Path>, calls: seq<Site>, others: seq<Site>)
    requires Walk(e, ps) && Walk(e, qs) && Shows(e, rule, ps, calls) && Shows(e, rule, qs, others)
    ensures ps == qs && calls == others
  {
    SameMembersSameOrder(ps, qs);
    forall i | 0 <= i < |ps| ensures calls[i] == others[i] {
      assert ShowsAt(e, rule, ps[i], calls[i]) && ShowsAt(e, rule, ps[i], others[i]);
      if calls[i].trigger.Some? {
        assert TriggersAt(e, rule, ps[i], calls[i].trigger.value);
      }
    }
  }

  lemma FirstIsFirst(ps: seq<Path>, qs: seq<Path>)
    requires Ordered(ps) && Ordered(qs) && ps != [] && qs != [] && forall p :: p in ps <==> p in qs
    ensures ps[0] == qs[0]
  {
    assert ps[0] in ps && qs[0] in qs;
    var i :| 0 <= i < |qs| && qs[i] == ps[0];
    var j :| 0 <= j < |ps| && ps[j] == qs[0];
    EarlierIsStrict(ps[0], qs[0], []);
  }

  lemma OnlyFirst(ps: seq<Path>, p: Path)
    requires Ordered(ps) && ps != []
    ensures p in ps[1..] <==> p in ps && p != ps[0]
  {
    EarlierIsStrict(p, p, []);
  }

  /** The sites listed are what the rule sees at those positions. */
  lemma {:induction false} CallsShow(e: Expr, rule: Rule)
    ensures Shows(e, rule, CallPaths(e), Calls(e, rule))
    decreases e, 1
  {
    match e
    case Ident(_) =>
    case Selector(x, _) =>
      CallsShow(x, rule);
      UnderShows(e, x, 0, rule, CallPaths(x), Calls(x, rule));
    case Other(children) => KidsShow(e, children, 0, rule);
    case Call(fun, args, _) =>
      CallsShow(fun, rule);
      UnderShows(e, fun, 0, rule, CallPaths(fun), Calls(fun, rule));
      KidsShow(e, args, 1, rule);
      SiteShows(e, rule);
  }

  lemma SiteShows(e: Expr, rule: Rule)
    requires e.Call?
    ensures ShowsAt(e, rule, [], Site(IsSatisfiedCall(e.fun, rule.required), TriggerCall(e.fun, rule.triggers), e.line))
  {
  }

  /** A child's sites, as positions of its parent. */
  lemma UnderShows(e: Expr, kid: Expr, n: nat, rule: Rule, ps: seq<Path>, calls: seq<Site>)
    requires n < |Kids(e)| && Kids(e)[n] == kid && Shows(kid, rule, ps, calls)
    ensures Shows(e, rule, Under(n, ps), calls)
  {
    forall i | 0 <= i < |ps| ensures ShowsAt(e, rule, Under(n, ps)[i], calls[i]) {
      var q := Under(n, ps)[i];
      assert q[0] == n && q[1..] == ps[i];
      assert ShowsAt(kid, rule, ps[i], calls[i]);
      BelowSame(e, q, rule);
    }
  }

  /** What lies at a position of a child is what lies at that position of its parent. */
  lemma BelowSame(e: Expr, q: Path, rule: Rule)
    requires q != [] && q[0] < |Kids(e)|
    ensures var kid := Kids(e)[q[0]];
      (CallAt(e, q) <==> CallAt(kid, q[1..])) && (SettlesAt(e, rule, q) <==> SettlesAt(kid, rule, q[1..])) &&
      (CallAt(e, q) ==> At(e, q) == At(kid, q[1..])) &&
      forall name :: TriggersAt(e, rule, q, name) <==> TriggersAt(kid, rule, q[1..], name)
  {
  }

  lemma ShowsJoin(e: Expr, rule: Rule, ps: seq<Path>, calls: seq<Site>, qs: seq<Path>, more: seq<Site>)
    requires Shows(e, rule, ps, calls) && Shows(e, rule, qs, more)
    ensures Shows(e, rule, ps + qs, calls + more)
  {
  }

  lemma {:induction false} KidsShow(e: Expr, es: seq<Expr>, n: nat, rule: Rule)
    requires n + |es| <= |Kids(e)| && forall i :: 0 <= i < |es| ==> Kids(e)[n + i] == es[i]
    ensures Shows(e, rule, KidPaths(es, n), CallsAll(es, rule))
    decreases es, 0
  {
    if es == [] {
    } else {
      CallsShow(es[0], rule);
      UnderShows(e, es[0], n, rule, CallPaths(es[0]), Calls(es[0], rule));
      KidsShow(e, es[1..], n + 1, rule);
      ShowsJoin(e, rule, Under(n, CallPaths(es[0])), Calls(es[0], rule), KidPaths(es[1..], n + 1), CallsAll(es[1..], rule));
    }
  }

  // ---- counting -------------------------------------------------------------------------------

  predicate Triggers(calls: seq<Site>, i: int) {
    0 <= i < |calls| && calls[i].trigger.Some?
  }

  predicate Settles(calls: seq<Site>, i: int) {
    0 <= i < |calls| && calls[i].settles
  }

  function TriggerSet(calls: seq<Site>, from: nat): set<nat> {
    set i: nat | from <= i < |calls| && Triggers(calls, i)
  }

  function SettleSet(calls: seq<Site>, from: nat): set<nat> {
    set i: nat | from <= i < |calls| && Settles(calls, i)
  }

  /** From call k on, how many more triggers there are than Requires calls strictly after k. */
  function Deficit(calls: seq<Site>, k: nat): int {
    |TriggerSet(calls, k)| - |SettleSet(calls, k + 1)|
  }

  // ---- matchings ------------------------------------------------------------------------------

  /** Some triggers, each given a Requires call of its own strictly later. */
  ghost predicate Matching(calls: seq<Site>, m: map<nat, nat>) {
    (forall i :: i in m ==> Triggers(calls, i) && Settles(calls, m[i]) && i < m[i]) &&
    (forall i, j :: i in m && j in m && i != j ==> m[i] != m[j])
  }

  /** Every trigger has one. */
  ghost predicate Complete(calls: seq<Site>, m: map<nat, nat>) {
    Matching(calls, m) && m.Keys == TriggerSet(calls, 0)
  }

  // ---- the greedy stack -----------------------------------------------------------------------

  /** The triggers still waiting after the calls, oldest first, as positions. */
  function Pending(calls: seq<Site>): seq<nat> {
    if calls == [] then []
    else
      var n := |calls| - 1;
      var popped := Popped(Pending(calls[..n]), calls[n]);
      if calls[n].trigger.Some? then popped + [n] else popped
  }

  /** A Requires call takes the newest waiting trigger off the stack. */
  function Popped(pending: seq<nat>, call: Site): seq<nat> {
    if call.settles && pending != [] then pending[..|pending| - 1] else pending
  }

  /** The matching the stack makes: what each Requires call popped. */
  function Settled(calls: seq<Site>): map<nat, nat> {
    if calls == [] then map[]
    else
      var n := |calls| - 1;
      var before := Pending(calls[..n]);
      if calls[n].settles && before != [] then Settled(calls[..n])[before[|before| - 1] := n] else Settled(calls[..n])
  }

  predicate Increasing(s: seq<nat>) {
    forall i, j :: 0 <= i < j < |s| ==> s[i] < s[j]
  }

  lemma PrefixSame(calls: seq<Site>, i: nat)
    requires calls != [] && i < |calls| - 1
    ensures Triggers(calls[..|calls| - 1], i) == Triggers(calls, i) && Settles(calls[..|calls| - 1], i) == Settles(calls, i)
  {
  }

  /** Waiting triggers are triggers, listed oldest first. */
  lemma {:induction false} PendingSound(calls: seq<Site>)
    ensures Increasing(Pending(calls)) && forall p :: p in Pending(calls) ==> p < |calls| && Triggers(calls, p)
  {
    if calls == [] {
    } else {
      var init := calls[..|calls| - 1];
      PendingSound(init);
      forall p | p in Pending(init) ensures p < |calls| - 1 && Triggers(calls, p) {
        PrefixSame(calls, p);
      }
      var popped := Popped(Pending(init), calls[|calls| - 1]);
      assert Increasing(popped);
      forall i | 0 <= i < |popped| ensures popped[i] < |calls| - 1 {
        assert popped[i] == Pending(init)[i] && Pending(init)[i] in Pending(init);
      }
      assert forall p :: p in popped ==> p in Pending(init);
      assert Increasing(Pending(calls));
    }
  }

  /** Popping takes exactly the last element of an increasing stack. */
  lemma PoppedMembers(pending: seq<nat>, call: Site, p: nat)
    requires Increasing(pending)
    ensures p in Popped(pending, call) <==>
      p in pending && !(call.settles && p == pending[|pending| - 1])
  {
  }

  /** A trigger is settled or still waiting, never both. */
  lemma {:induction false} StackPartition(calls: seq<Site>, p: nat)
    ensures Triggers(calls, p) <==> p in Settled(calls) || p in Pending(calls)
    ensures !(p in Settled(calls) && p in Pending(calls))
  {
    if calls == [] {
    } else {
      var n := |calls| - 1;
      var init := calls[..n];
      StackPartition(init, p);
      PendingSound(init);
      PoppedMembers(Pending(init), calls[n], p);
      if p < n {
        PrefixSame(calls, p);
      }
    }
  }

  /** What the stack settles is a matching. */
  lemma {:induction false} StackMatches(calls: seq<Site>)
    ensures Matching(calls, Settled(calls))
    ensures forall i :: i in Settled(calls) ==> Settled(calls)[i] < |calls|
  {
    if calls == [] {
    } else {
      var n := |calls| - 1;
      var init := calls[..n];
      StackMatches(init);
      PendingSound(init);
      forall i | i in Settled(init) ensures Triggers(calls, i) && Settles(calls, Settled(init)[i]) {
        PrefixSame(calls, i);
        PrefixSame(calls, Settled(init)[i]);
      }
      if calls[n].settles && Pending(init) != [] {
        var top := Pending(init)[|Pending(init)| - 1];
        assert top in Pending(init);
        PrefixSame(calls, top);
      }
    }
  }

  // ---- how well the stack does ----------------------------------------------------------------

  lemma TriggerSetSnoc(calls: seq<Site>, k: nat)
    requires calls != [] && k <= |calls| - 1
    ensures var n := |calls| - 1;
      |TriggerSet(calls, k)| == |TriggerSet(calls[..n], k)| + if Triggers(calls, n) then 1 else 0
  {
    var n := |calls| - 1;
    forall i: nat | i < n ensures Triggers(calls[..n], i) == Triggers(calls, i) {
      PrefixSame(calls, i);
    }
    assert n !in TriggerSet(calls[..n], k);
    assert TriggerSet(calls, k) == TriggerSet(calls[..n], k) + if Triggers(calls, n) then {n} else {};
  }

  lemma SettleSetSnoc(calls: seq<Site>, k: nat)
    requires calls != [] && k <= |calls| - 1
    ensures var n := |calls| - 1;
      |SettleSet(calls, k)| == |SettleSet(calls[..n], k)| + if Settles(calls, n) then 1 else 0
  {
    var n := |calls| - 1;
    forall i: nat | i < n ensures Settles(calls[..n], i) == Settles(calls, i) {
      PrefixSame(calls, i);
    }
    assert n !in SettleSet(calls[..n], k);
    assert SettleSet(calls, k) == SettleSet(calls[..n], k) + if Settles(calls, n) then {n} else {};
  }

  lemma NoneAfter(calls: seq<Site>, k: nat)
    requires k >= |calls|
    ensures TriggerSet(calls, k) == {} && SettleSet(calls, k) == {}
  {
  }

  /** No suffix is further short of Requires calls than the stack is deep. */
  lemma {:induction false} DepthBounds(calls: seq<Site>, k: nat)
    ensures Deficit(calls, k) <= |Pending(calls)|
  {
    if k >= |calls| {
      NoneAfter(calls, k);
    } else {
      var n := |calls| - 1;
      TriggerSetSnoc(calls, k);
      if k == n {
        NoneAfter(calls, k + 1);
        NoneAfter(calls[..n], k);
      } else {
        SettleSetSnoc(calls, k + 1);
        DepthBounds(calls[..n], k);
      }
    }
  }

  /** The oldest waiting trigger starts a suffix that is short by exactly the stack's depth. */
  lemma {:induction false} OldestStartsDeficit(calls: seq<Site>)
    requires Pending(calls) != []
    ensures Deficit(calls, Pending(calls)[0]) == |Pending(calls)|
  {
    var n := |calls| - 1;
    var init := calls[..n];
    PendingSound(init);
    var k := Pending(calls)[0];
    if Popped(Pending(init), calls[n]) == [] {
      assert k == n;
      TriggerSetSnoc(calls, n);
      NoneAfter(calls, n + 1);
      NoneAfter(init, n);
    } else {
      assert k == Pending(init)[0] && k in Pending(init);
      OldestStartsDeficit(init);
      TriggerSetSnoc(calls, k);
      SettleSetSnoc(calls, k + 1);
    }
  }

  /** A one-to-one map's values are as many as its keys. */
  lemma {:induction false} OneToOne(m: map<nat, nat>, keys: set<nat>, values: set<nat>)
    requires keys <= m.Keys && (forall i :: i in keys ==> m[i] in values)
    requires forall i, j :: i in keys && j in keys && i != j ==> m[i] != m[j]
    ensures |keys| <= |values|
  {
    if keys == {} {
    } else {
      var i :| i in keys;
      OneToOne(m, keys - {i}, values - {m[i]});
    }
  }

  function From(m: map<nat, nat>, k: nat): set<nat> {
    set i | i in m && i >= k
  }

  function Before(m: map<nat, nat>, k: nat): set<nat> {
    set i | i in m && i < k
  }

  lemma FromFits(calls: seq<Site>, m: map<nat, nat>, k: nat)
    requires Matching(calls, m)
    ensures |From(m, k)| <= |SettleSet(calls, k + 1)|
  {
    OneToOne(m, From(m, k), SettleSet(calls, k + 1));
  }

  lemma BeforeFits(calls: seq<Site>, m: map<nat, nat>, k: nat)
    requires Matching(calls, m)
    ensures |Before(m, k)| <= |TriggerSet(calls, 0)| - |TriggerSet(calls, k)|
  {
    var all, rest := TriggerSet(calls, 0), TriggerSet(calls, k);
    assert rest <= all && |all - rest| == |all| - |rest|;
    SubsetSize(Before(m, k), all - rest);
  }

  /** Any matching leaves at least a suffix's deficit of triggers unmatched. */
  lemma MatchingMisses(calls: seq<Site>, m: map<nat, nat>, k: nat)
    requires Matching(calls, m)
    ensures |m| + Deficit(calls, k) <= |TriggerSet(calls, 0)|
  {
    FromFits(calls, m, k);
    BeforeFits(calls, m, k);
    assert m.Keys == From(m, k) + Before(m, k) && From(m, k) !! Before(m, k);
    assert |m.Keys| == |From(m, k)| + |Before(m, k)|;
  }

  lemma {:induction false} ListSize(s: seq<nat>, members: set<nat>)
    requires Increasing(s) && (forall p :: p in s <==> p in members)
    ensures |s| == |members|
  {
    if s == [] {
      assert members == {};
    } else {
      var last := s[|s| - 1];
      var init := s[..|s| - 1];
      assert s == init + [last] && last !in init;
      ListSize(init, members - {last});
    }
  }

  /** What the stack settles and what it leaves waiting add up to the triggers. */
  lemma StackCounts(calls: seq<Site>)
    ensures |Settled(calls)| + |Pending(calls)| == |TriggerSet(calls, 0)|
  {
    PendingSound(calls);
    var waiting := set p | p in Pending(calls);
    ListSize(Pending(calls), waiting);
    forall p: nat ensures Triggers(calls, p) <==> p in Settled(calls) || p in waiting {
      StackPartition(calls, p);
    }
    forall p | p in waiting ensures p !in Settled(calls) {
      StackPartition(calls, p);
    }
    StackMatches(calls);
    assert TriggerSet(calls, 0) == Settled(calls).Keys + waiting;
  }

  /** Greedy is optimal: no matching gives more triggers a Requires call than the stack does. */
  lemma GreedyIsOptimal(calls: seq<Site>, m: map<nat, nat>)
    requires Matching(calls, m)
    ensures |m| <= |Settled(calls)|
  {
    StackCounts(calls);
    if Pending(calls) == [] {
      SubsetSize(m.Keys, TriggerSet(calls, 0));
    } else {
      OldestStartsDeficit(calls);
      MatchingMisses(calls, m, Pending(calls)[0]);
    }
  }

  /** Nothing is left waiting exactly when every trigger can have a Requires call of its own. */
  lemma NoneWaitsIffMatched(calls: seq<Site>)
    ensures Pending(calls) == [] <==> exists m :: Complete(calls, m)
  {
    StackCounts(calls);
    StackMatches(calls);
    if Pending(calls) == [] {
      assert Settled(calls).Keys <= TriggerSet(calls, 0);
      SameSizeSame(Settled(calls).Keys, TriggerSet(calls, 0));
      assert Complete(calls, Settled(calls));
    }
    if m :| Complete(calls, m) {
      GreedyIsOptimal(calls, m);
    }
  }

  lemma SameSizeSame(a: set<nat>, b: set<nat>)
    requires a <= b && |a| == |b|
    ensures a == b
  {
    assert |b - a| == |b| - |a|;
  }

  /** Equivalently: from every call on, the triggers are no more than the Requires calls after it. */
  lemma NoneWaitsIffNoDeficit(calls: seq<Site>)
    ensures Pending(calls) == [] <==> forall k: nat :: Deficit(calls, k) <= 0
  {
    forall k: nat ensures Deficit(calls, k) <= |Pending(calls)| {
      DepthBounds(calls, k);
    }
    if Pending(calls) != [] {
      OldestStartsDeficit(calls);
    }
  }

  // ---- which trigger waits --------------------------------------------------------------------

  /** From the call after p up to and including call n - 1. */
  function TriggersAfter(calls: seq<Site>, p: nat, n: nat): nat
    requires n <= |calls|
  {
    if n <= p + 1 then 0 else TriggersAfter(calls, p, n - 1) + if calls[n - 1].trigger.Some? then 1 else 0
  }

  function SettlesAfter(calls: seq<Site>, p: nat, n: nat): nat
    requires n <= |calls|
  {
    if n <= p + 1 then 0 else SettlesAfter(calls, p, n - 1) + if calls[n - 1].settles then 1 else 0
  }

  /** Up to every later call, the Requires calls since p are no more than the triggers made before that call. */
  ghost predicate NeverReached(calls: seq<Site>, p: nat) {
    Triggers(calls, p) && forall q :: p < q < |calls| ==> SettlesAfter(calls, p, q + 1) <= TriggersAfter(calls, p, q)
  }

  lemma {:induction false} AfterPrefix(calls: seq<Site>, p: nat, n: nat)
    requires calls != [] && n < |calls|
    ensures TriggersAfter(calls[..|calls| - 1], p, n) == TriggersAfter(calls, p, n)
    ensures SettlesAfter(calls[..|calls| - 1], p, n) == SettlesAfter(calls, p, n)
  {
    if n > p + 1 {
      AfterPrefix(calls, p, n - 1);
    }
  }

  lemma NeverReachedStep(calls: seq<Site>, p: nat)
    requires calls != [] && p < |calls| - 1
    ensures var n := |calls| - 1;
      NeverReached(calls, p) <==>
        NeverReached(calls[..n], p) && SettlesAfter(calls, p, n + 1) <= TriggersAfter(calls, p, n)
  {
    var n := |calls| - 1;
    PrefixSame(calls, p);
    forall q | p < q < n
      ensures SettlesAfter(calls[..n], p, q + 1) == SettlesAfter(calls, p, q + 1)
      ensures TriggersAfter(calls[..n], p, q) == TriggersAfter(calls, p, q)
    {
      AfterPrefix(calls, p, q + 1);
      AfterPrefix(calls, p, q);
    }
  }

  /** How many newer triggers wait above the one at index i of the stack. */
  lemma {:induction false} StackAbove(calls: seq<Site>, i: nat)
    requires i < |Pending(calls)| && Pending(calls)[i] < |calls|
    ensures |Pending(calls)| - 1 - i ==
      TriggersAfter(calls, Pending(calls)[i], |calls|) - SettlesAfter(calls, Pending(calls)[i], |calls|)
  {
    var n := |calls| - 1;
    var init := calls[..n];
    PendingSound(init);
    var p := Pending(calls)[i];
    var popped := Popped(Pending(init), calls[n]);
    if i < |popped| {
      assert p == Pending(init)[i] && p in Pending(init);
      StackAbove(init, i);
      AfterPrefix(calls, p, n);
    }
  }

  /**
   A trigger is left waiting exactly if the Requires calls after it never reach down to it: each is spent on a
   newer trigger.
   */
  lemma {:induction false} WaitsIffNeverReached(calls: seq<Site>, p: nat)
    ensures p in Pending(calls) <==> NeverReached(calls, p)
  {
    if calls == [] {
    } else {
      var n := |calls| - 1;
      var init := calls[..n];
      PendingSound(init);
      PendingSound(calls);
      PoppedMembers(Pending(init), calls[n], p);
      if p < n {
        WaitsIffNeverReached(init, p);
        NeverReachedStep(calls, p);
        AfterPrefix(calls, p, n);
        if p in Pending(init) {
          var i :| 0 <= i < |Pending(init)| && Pending(init)[i] == p;
          StackAbove(init, i);
        }
      }
    }
  }

  // ---- matchings on the tree ------------------------------------------------------------------

  ghost predicate TriggerAt(e: Expr, rule: Rule, p: Path) {
    exists name :: TriggersAt(e, rule, p, name)
  }

  /** Every trigger of the tree is given a Requires call of its own that the walk meets later. */
  ghost predicate TreeComplete(e: Expr, rule: Rule, m: map<Path, Path>) {
    (forall p :: p in m <==> TriggerAt(e, rule, p)) &&
    (forall p :: p in m ==> SettlesAt(e, rule, m[p]) && Earlier(p, m[p])) &&
    (forall p, q :: p in m && q in m && p != q ==> m[p] != m[q])
  }

  lemma ShownTrigger(e: Expr, rule: Rule, ps: seq<Path>, calls: seq<Site>, i: nat)
    requires Walk(e, ps) && Shows(e, rule, ps, calls) && i < |ps|
    ensures Triggers(calls, i) <==> TriggerAt(e, rule, ps[i])
    ensures Settles(calls, i) <==> SettlesAt(e, rule, ps[i])
  {
    assert ShowsAt(e, rule, ps[i], calls[i]);
    if Triggers(calls, i) {
      assert TriggersAt(e, rule, ps[i], calls[i].trigger.value);
    }
  }

  lemma IndexOf(e: Expr, ps: seq<Path>, p: Path) returns (i: nat)
    requires Walk(e, ps) && CallAt(e, p)
    ensures i < |ps| && ps[i] == p
  {
    assert p in ps;
    i :| 0 <= i < |ps| && ps[i] == p;
  }

  /** Positions in the walk are met in its order. */
  lemma IndexOrder(ps: seq<Path>, i: nat, j: nat)
    requires Ordered(ps) && i < |ps| && j < |ps|
    ensures Earlier(ps[i], ps[j]) <==> i < j
  {
    EarlierIsStrict(ps[i], ps[j], []);
  }

  function Placed(ps: seq<Path>, m: map<nat, nat>): map<Path, Path>
    requires forall i :: i in m ==> i < |ps| && m[i] < |ps|
    requires forall i, j :: i in m && j in m && ps[i] == ps[j] ==> i == j
  {
    map i | i in m :: ps[i] := ps[m[i]]
  }

  lemma Distinct(ps: seq<Path>)
    requires Ordered(ps)
    ensures forall i, j :: 0 <= i < |ps| && 0 <= j < |ps| && ps[i] == ps[j] ==> i == j
  {
    forall i, j | 0 <= i < |ps| && 0 <= j < |ps| && ps[i] == ps[j] ensures i == j {
      IndexOrder(ps, i, j);
      IndexOrder(ps, j, i);
      EarlierIsStrict(ps[i], ps[i], []);
    }
  }

  lemma PlacedTriggers(e: Expr, rule: Rule, ps: seq<Path>, calls: seq<Site>, m: map<nat, nat>)
    requires Walk(e, ps) && Shows(e, rule, ps, calls) && Complete(calls, m)
    requires forall i, j :: i in m && j in m && ps[i] == ps[j] ==> i == j
    ensures forall p :: p in Placed(ps, m) <==> TriggerAt(e, rule, p)
  {
    forall p | p in Placed(ps, m) ensures TriggerAt(e, rule, p) {
      var i :| i in m && ps[i] == p;
      ShownTrigger(e, rule, ps, calls, i);
    }
    forall p | TriggerAt(e, rule, p) ensures p in Placed(ps, m) {
      TriggerPlaced(e, rule, ps, calls, m, p);
    }
  }

  lemma TriggerPlaced(e: Expr, rule: Rule, ps: seq<Path>, calls: seq<Site>, m: map<nat, nat>, p: Path)
    requires Walk(e, ps) && Shows(e, rule, ps, calls) && Complete(calls, m) && TriggerAt(e, rule, p)
    ensures exists i :: i in m && ps[i] == p
  {
    assert CallAt(e, p);
    var i := IndexOf(e, ps, p);
    ShownTrigger(e, rule, ps, calls, i);
    assert i in TriggerSet(calls, 0);
  }

  lemma OnTree(e: Expr, rule: Rule, ps: seq<Path>, calls: seq<Site>, m: map<nat, nat>) returns (tm: map<Path, Path>)
    requires Walk(e, ps) && Shows(e, rule, ps, calls) && Complete(calls, m)
    ensures TreeComplete(e, rule, tm)
  {
    Distinct(ps);
    tm := Placed(ps, m);
    PlacedTriggers(e, rule, ps, calls, m);
    forall p | p in tm ensures SettlesAt(e, rule, tm[p]) && Earlier(p, tm[p]) {
      var i :| i in m && ps[i] == p;
      ShownTrigger(e, rule, ps, calls, m[i]);
      IndexOrder(ps, i, m[i]);
    }
  }

  lemma OnCalls(e: Expr, rule: Rule, ps: seq<Path>, calls: seq<Site>, tm: map<Path, Path>)
    requires Walk(e, ps) && Shows(e, rule, ps, calls) && TreeComplete(e, rule, tm)
    ensures exists m :: Complete(calls, m)
  {
    Distinct(ps);
    forall i | i in TriggerSet(calls, 0) ensures ps[i] in tm && exists j: nat :: j < |ps| && ps[j] == tm[ps[i]] {
      ShownTrigger(e, rule, ps, calls, i);
      var j := IndexOf(e, ps, tm[ps[i]]);
    }
    var m := map i | i in TriggerSet(calls, 0) :: LandsAt(ps, tm[ps[i]]);
    forall i | i in m ensures Triggers(calls, i) && Settles(calls, m[i]) && i < m[i] {
      ShownTrigger(e, rule, ps, calls, m[i]);
      IndexOrder(ps, i, m[i]);
    }
    assert Complete(calls, m);
  }

  ghost function LandsAt(ps: seq<Path>, p: Path): (j: nat)
    requires exists j: nat :: j < |ps| && ps[j] == p
    ensures j < |ps| && ps[j] == p
  {
    var j: nat :| j < |ps| && ps[j] == p;
    j
  }

  // ---- inspecting a function ------------------------------------------------------------------

  datatype Waiting = Waiting(name: string, line: nat)

  datatype Verdict = Verdict(triggered: bool, satisfied: bool, first: Option<Waiting>)

  /** The stack's entries for the waiting positions. */
  predicate Stands(calls: seq<Site>, pending: seq<Waiting>) {
    var waiting := Pending(calls);
    |pending| == |waiting| && forall i :: 0 <= i < |waiting| ==> Names(calls, waiting[i], pending[i])
  }

  predicate Names(calls: seq<Site>, p: nat, w: Waiting) {
    p < |calls| && calls[p].trigger == Some(w.name) && calls[p].line == w.line
  }

  /** One more call: the stack it leaves. */
  function Step(pending: seq<Waiting>, call: Site): seq<Waiting> {
    var popped := if call.settles && pending != [] then pending[..|pending| - 1] else pending;
    if call.trigger.Some? then popped + [Waiting(call.trigger.value, call.line)] else popped
  }

  lemma StandsStep(calls: seq<Site>, pending: seq<Waiting>)
    requires calls != [] && Stands(calls[..|calls| - 1], pending)
    ensures Stands(calls, Step(pending, calls[|calls| - 1]))
  {
  }

  /** The verdict on a body's calls. */
  ghost predicate Judges(calls: seq<Site>, v: Verdict) {
    (v.triggered <==> exists i :: Triggers(calls, i)) &&
    (v.satisfied <==> v.triggered && exists m :: Complete(calls, m)) &&
    (v.first.None? <==> Pending(calls) == []) &&
    (v.first.Some? ==> Names(calls, Pending(calls)[0], v.first.value))
  }

  /** The verdict on a body, read off its tree. */
  ghost predicate JudgesTree(e: Expr, rule: Rule, v: Verdict) {
    (v.triggered <==> exists p :: TriggerAt(e, rule, p)) &&
    (v.satisfied <==> v.triggered && exists m :: TreeComplete(e, rule, m)) &&
    (v.first.None? <==> exists m :: TreeComplete(e, rule, m)) &&
    (v.first.Some? ==> exists ps, calls, k :: WaitsFirst(e, rule, ps, calls, k, v.first.value))
  }

  /** Position k of the walk is the first trigger no later Requires call reaches, and this is its name and line. */
  ghost predicate WaitsFirst(e: Expr, rule: Rule, ps: seq<Path>, calls: seq<Site>, k: nat, w: Waiting) {
    Walk(e, ps) && Shows(e, rule, ps, calls) && k < |ps| && NeverReached(calls, k) &&
    (forall j: nat :: j < k ==> !NeverReached(calls, j)) &&
    TriggersAt(e, rule, ps[k], w.name) && At(e, ps[k]).line == w.line
  }

  lemma TreeVerdict(e: Expr, rule: Rule, v: Verdict)
    requires Judges(Calls(e, rule), v)
    ensures JudgesTree(e, rule, v)
  {
    var ps, calls := CallPaths(e), Calls(e, rule);
    CallWalk(e);
    CallsShow(e, rule);
    if i :| Triggers(calls, i) {
      ShownTrigger(e, rule, ps, calls, i);
    }
    if p :| TriggerAt(e, rule, p) {
      var i := IndexOf(e, ps, p);
      ShownTrigger(e, rule, ps, calls, i);
    }
    if m :| Complete(calls, m) {
      var tm := OnTree(e, rule, ps, calls, m);
    }
    if tm :| TreeComplete(e, rule, tm) {
      OnCalls(e, rule, ps, calls, tm);
    }
    NoneWaitsIffMatched(calls);
    if v.first.Some? {
      FirstVerdict(e, rule, ps, calls, v.first.value);
    }
  }

  lemma FirstVerdict(e: Expr, rule: Rule, ps: seq<Path>, calls: seq<Site>, w: Waiting)
    requires Walk(e, ps) && Shows(e, rule, ps, calls) && Pending(calls) != [] && Names(calls, Pending(calls)[0], w)
    ensures WaitsFirst(e, rule, ps, calls, Pending(calls)[0], w)
  {
    var k := Pending(calls)[0];
    PendingSound(calls);
    WaitsIffNeverReached(calls, k);
    forall j: nat | j < k ensures !NeverReached(calls, j) {
      WaitsIffNeverReached(calls, j);
    }
    assert ShowsAt(e, rule, ps[k], calls[k]);
  }

  /**
   Inspects one function against the rule: satisfied exactly when its tree has a trigger and every trigger can be
   given a Requires call of its own that the walk meets later; otherwise the first trigger that no later Requires
   call reaches is reported.
   */
  method InspectFuncDecl(body: Option<Expr>, rule: Rule) returns (v: Verdict)
    ensures body.None? ==> v == Verdict(false, false, None)
    ensures body.Some? ==> JudgesTree(body.value, rule, v)
  {
    if body.None? {
      return Verdict(false, false, None);
    }
    v := InspectCalls(Calls(body.value, rule));
    TreeVerdict(body.value, rule, v);
  }

  /** One call: a Requires call settles the newest waiting trigger before the call's own trigger, if any, waits. */
  method Visit(before: seq<Waiting>, call: Site) returns (pending: seq<Waiting>)
    ensures pending == Step(before, call)
  {
    pending := before;
    if call.settles && |pending| > 0 {
      pending := pending[..|pending| - 1];
    }
    if call.trigger.Some? {
      pending := pending + [Waiting(call.trigger.value, call.line)];
    }
  }

  /** The walk over the calls, in the order it meets them. */
  method InspectCalls(calls: seq<Site>) returns (v: Verdict)
    ensures Judges(calls, v)
  {
    var pending: seq<Waiting> := [];
    var triggered := false;
    for n := 0 to |calls|
      invariant Stands(calls[..n], pending)
      invariant triggered <==> exists i :: 0 <= i < n && Triggers(calls, i)
    {
      assert calls[..n + 1][..n] == calls[..n];
      StandsStep(calls[..n + 1], pending);
      pending := Visit(pending, calls[n]);
      if calls[n].trigger.Some? {
        triggered := true;
        assert Triggers(calls, n);
      }
    }
    assert calls[..|calls|] == calls;
    NoneWaitsIffMatched(calls);
    return Verdict(triggered, triggered && |pending| == 0, if |pending| > 0 then Some(pending[0]) else None);
  }
}
