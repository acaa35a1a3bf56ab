/**
  What the free list threaded through the walk of src/parse.rs holds, stated
  against the terms the walk builds, and what `parse_program` accepts.
*/
module WalkerProperties {
  import opened Wrappers
  import opened Base
  import opened PestWalker
  import IndexMaps

  // ---------------------------------------------------------------------------
  // Reference definitions over the built terms
  // ---------------------------------------------------------------------------

  /**
    The names a term mentions, in the order the walk meets them: every
    reference, and the subject of every link, break and continue.  Sends,
    selects and cases do not mention their subject.
  */
  function ExprMentions(e: Expression): seq<Name>
    decreases e, 0
  {
    match e
    case Ref(n) => [n]
    case Fork(_, _, p) => ProcMentions(p)
  }

  function ProcMentions(p: Process): seq<Name>
    decreases p, 0
  {
    match p
    case Let(_, v, next) => ExprMentions(v) + ProcMentions(next)
    case Link(s, a) => ExprMentions(a) + [s]
    case Do(s, c) =>
      match c
      case Break => [s]
      case Continue(next) => ProcMentions(next) + [s]
      case Send(a, next) => ExprMentions(a) + ProcMentions(next)
      case Receive(_, next) => ProcMentions(next)
      case Select(_, next) => ProcMentions(next)
      case Case(_, o) => BranchMentions(c, 0) + (if o.Some? then ProcMentions(o.value) else [])
  }

  /** The names mentioned by the branches of a case from branch `i` on. */
  function BranchMentions(c: Command, i: nat): seq<Name>
    requires c.Case? && i <= |c.branches|
    decreases c, |c.branches| - i
  {
    if i == |c.branches| then [] else ProcMentions(c.branches[i].1) + BranchMentions(c, i + 1)
  }

  /** The texts a term binds: fork channels, let names and receive parameters. */
  function ExprBinders(e: Expression): set<string>
    decreases e, 0
  {
    match e
    case Ref(_) => {}
    case Fork(_, ch, p) => {ch.text} + ProcBinders(p)
  }

  function ProcBinders(p: Process): set<string>
    decreases p, 0
  {
    match p
    case Let(n, v, next) => {n.text} + (ExprBinders(v) + ProcBinders(next))
    case Link(_, a) => ExprBinders(a)
    case Do(_, c) =>
      match c
      case Break => {}
      case Continue(next) => ProcBinders(next)
      case Send(a, next) => ExprBinders(a) + ProcBinders(next)
      case Receive(x, next) => {x.text} + ProcBinders(next)
      case Select(_, next) => ProcBinders(next)
      case Case(_, o) => BranchBinders(c, 0) + (if o.Some? then ProcBinders(o.value) else {})
  }

  function BranchBinders(c: Command, i: nat): set<string>
    requires c.Case? && i <= |c.branches|
    decreases c, |c.branches| - i
  {
    if i == |c.branches| then {} else ProcBinders(c.branches[i].1) + BranchBinders(c, i + 1)
  }

  /** How many names of `s` have the text `x`. */
  function Count(s: seq<Name>, x: string): nat {
    if s == [] then 0 else (if s[0].text == x then 1 else 0) + Count(s[1..], x)
  }

  /**
    A walk that took the free list from `free` to `out` while building a term
    that mentions `mentioned` and binds `bound`: nothing is added to the
    list but what the term mentions; every text the term does not bind is
    counted exactly; and without binders the list only grows, by the
    mentioned names in order.
  */
  ghost predicate Accounts(free: seq<Name>, out: seq<Name>, mentioned: seq<Name>, bound: set<string>) {
    multiset(out) <= multiset(free) + multiset(mentioned) &&
    (forall x | x !in bound :: Count(out, x) == Count(free, x) + Count(mentioned, x)) &&
    (bound == {} ==> out == free + mentioned)
  }

  lemma AccountsNothing(free: seq<Name>)
    ensures Accounts(free, free, [], {})
  {
  }

  lemma {:induction false} CountAppend(a: seq<Name>, b: seq<Name>, x: string)
    ensures Count(a + b, x) == Count(a, x) + Count(b, x)
  {
    if a != [] {
      assert (a + b)[0] == a[0] && (a + b)[1..] == a[1..] + b;
      CountAppend(a[1..], b, x);
    } else {
      assert a + b == b;
    }
  }

  lemma AccountsCompose(a: seq<Name>, b: seq<Name>, c: seq<Name>, m1: seq<Name>, m2: seq<Name>, b1: set<string>, b2: set<string>)
    requires Accounts(a, b, m1, b1) && Accounts(b, c, m2, b2)
    ensures Accounts(a, c, m1 + m2, b1 + b2)
  {
    forall x | x !in b1 + b2
      ensures Count(c, x) == Count(a, x) + Count(m1 + m2, x)
    {
      CountAppend(m1, m2, x);
    }
    calc {
      multiset(c);
    <=
      multiset(b) + multiset(m2);
    <=
      multiset(a) + multiset(m1) + multiset(m2);
    ==
      multiset(a) + multiset(m1 + m2);
    }
    if b1 + b2 == {} {
      assert b1 == {} && b2 == {};
      assert c == a + m1 + m2;
    }
  }

  lemma AccountsPush(a: seq<Name>, b: seq<Name>, m: seq<Name>, bound: set<string>, s: Name)
    requires Accounts(a, b, m, bound)
    ensures Accounts(a, b + [s], m + [s], bound)
  {
    forall x | x !in bound
      ensures Count(b + [s], x) == Count(a, x) + Count(m + [s], x)
    {
      CountAppend(b, [s], x);
      CountAppend(m, [s], x);
    }
    assert multiset(b + [s]) == multiset(b) + multiset{s};
    assert multiset(m + [s]) == multiset(m) + multiset{s};
  }

  lemma AccountsUnbind(a: seq<Name>, b: seq<Name>, m: seq<Name>, bound: set<string>, n: Name)
    requires Accounts(a, b, m, bound)
    ensures Accounts(a, Unbind(b, n), m, {n.text} + bound)
  {
    forall x | x !in {n.text} + bound
      ensures Count(Unbind(b, n), x) == Count(a, x) + Count(m, x)
    {
      CountTexts(b, x);
      CountTexts(Unbind(b, n), x);
    }
  }

  lemma {:induction false} CountTexts(s: seq<Name>, x: string)
    ensures Count(s, x) == multiset(Texts(s))[x]
  {
    if s != [] {
      CountTexts(s[1..], x);
      assert Texts(s) == [s[0].text] + Texts(s[1..]);
    }
  }

  // ---------------------------------------------------------------------------
  // The free list of the walk
  // ---------------------------------------------------------------------------

  /** The walk of an expression accounts for the names its term mentions and binds. */
  lemma {:induction false} ExprWalkAccounts(w: Pair, free: seq<Name>)
    requires ExprShape(w)
    ensures ExprAccounts(w, free)
    decreases w, 0
  {
    var p := w.inner[0];
    if p.rule == Rule.Fork {
      var body := ProcSpec(p.inner[1], free);
      ProcWalkAccounts(p.inner[1], free);
      AccountsUnbind(free, body.1, ProcMentions(body.0), ProcBinders(body.0), NameOf(p.inner[0]));
    } else {
      AccountsNothing(free);
      AccountsPush(free, free, [], {}, NameOf(p));
      assert [] + [NameOf(p)] == [NameOf(p)];
    }
  }

  /** The walk of a process accounts for the names its term mentions and binds. */
  lemma {:induction false} ProcWalkAccounts(w: Pair, free: seq<Name>)
    requires ProcShape(w)
    ensures ProcAccounts(w, free)
    decreases w, 0
  {
    var c := w.inner[0].inner;
    match w.inner[0].rule {
      case PLet =>
        ExprWalkAccounts(c[1], free);
        ProcWalkAccounts(c[2], ExprSpec(c[1], free).1);
        LetAccounts(w, free);
      case PLink =>
        ExprWalkAccounts(c[1], free);
        LinkAccounts(w, free);
      case PBreak =>
        BreakAccounts(w, free);
      case PContinue =>
        ProcWalkAccounts(c[1], free);
        ContinueAccounts(w, free);
      case PSend =>
        ExprWalkAccounts(c[1], free);
        ProcWalkAccounts(c[2], ExprSpec(c[1], free).1);
        SendAccounts(w, free);
      case PReceive =>
        ProcWalkAccounts(c[2], free);
        ReceiveAccounts(w, free);
      case PSelect =>
        ProcWalkAccounts(c[2], free);
        SelectAccounts(w, free);
      case PCase =>
        var branches := BranchesSpec(c[1], 0, free);
        BranchesWalkAccounts(c[1], 0, free, Case(branches.0, None), 0);
        if |c| >= 3 {
          ProcWalkAccounts(c[2], branches.1);
        }
        CaseAccounts(w, free);
    }
  }

  ghost predicate ExprAccounts(w: Pair, free: seq<Name>)
    requires ExprShape(w)
  {
    var (e, out) := ExprSpec(w, free);
    Accounts(free, out, ExprMentions(e), ExprBinders(e))
  }

  ghost predicate ProcAccounts(w: Pair, free: seq<Name>)
    requires ProcShape(w)
  {
    var (p, out) := ProcSpec(w, free);
    Accounts(free, out, ProcMentions(p), ProcBinders(p))
  }

  lemma BreakAccounts(w: Pair, free: seq<Name>)
    requires ProcShape(w) && w.inner[0].rule == PBreak
    ensures ProcAccounts(w, free)
  {
    var subject := NameOf(w.inner[0].inner[0]);
    var p := Do(subject, Break);
    assert ProcSpec(w, free) == (p, free + [subject]);
    assert ProcMentions(p) == [subject] && ProcBinders(p) == {};
    AccountsNothing(free);
    AccountsPush(free, free, [], {}, subject);
    assert [] + [subject] == [subject];
  }

  lemma SelectAccounts(w: Pair, free: seq<Name>)
    requires ProcShape(w) && w.inner[0].rule == PSelect
    requires ProcAccounts(w.inner[0].inner[2], free)
    ensures ProcAccounts(w, free)
  {
    var c := w.inner[0].inner;
    var next := ProcSpec(c[2], free);
    var p := Do(NameOf(c[0]), Select(NameOf(c[1]), next.0));
    assert ProcSpec(w, free) == (p, next.1);
    assert ProcMentions(p) == ProcMentions(next.0) && ProcBinders(p) == ProcBinders(next.0);
  }

  lemma LetAccounts(w: Pair, free: seq<Name>)
    requires ProcShape(w) && w.inner[0].rule == PLet
    requires ExprAccounts(w.inner[0].inner[1], free)
    requires ProcAccounts(w.inner[0].inner[2], ExprSpec(w.inner[0].inner[1], free).1)
    ensures ProcAccounts(w, free)
  {
    var c := w.inner[0].inner;
    var value := ExprSpec(c[1], free);
    var next := ProcSpec(c[2], value.1);
    AccountsCompose(free, value.1, next.1, ExprMentions(value.0), ProcMentions(next.0), ExprBinders(value.0), ProcBinders(next.0));
    AccountsUnbind(free, next.1, ExprMentions(value.0) + ProcMentions(next.0), ExprBinders(value.0) + ProcBinders(next.0), NameOf(c[0]));
  }

  lemma LinkAccounts(w: Pair, free: seq<Name>)
    requires ProcShape(w) && w.inner[0].rule == PLink
    requires ExprAccounts(w.inner[0].inner[1], free)
    ensures ProcAccounts(w, free)
  {
    var c := w.inner[0].inner;
    var argument := ExprSpec(c[1], free);
    AccountsPush(free, argument.1, ExprMentions(argument.0), ExprBinders(argument.0), NameOf(c[0]));
  }

  lemma ContinueAccounts(w: Pair, free: seq<Name>)
    requires ProcShape(w) && w.inner[0].rule == PContinue
    requires ProcAccounts(w.inner[0].inner[1], free)
    ensures ProcAccounts(w, free)
  {
    var c := w.inner[0].inner;
    var next := ProcSpec(c[1], free);
    AccountsPush(free, next.1, ProcMentions(next.0), ProcBinders(next.0), NameOf(c[0]));
  }

  lemma SendAccounts(w: Pair, free: seq<Name>)
    requires ProcShape(w) && w.inner[0].rule == PSend
    requires ExprAccounts(w.inner[0].inner[1], free)
    requires ProcAccounts(w.inner[0].inner[2], ExprSpec(w.inner[0].inner[1], free).1)
    ensures ProcAccounts(w, free)
  {
    var c := w.inner[0].inner;
    var argument := ExprSpec(c[1], free);
    var next := ProcSpec(c[2], argument.1);
    AccountsCompose(free, argument.1, next.1, ExprMentions(argument.0), ProcMentions(next.0), ExprBinders(argument.0), ProcBinders(next.0));
  }

  lemma ReceiveAccounts(w: Pair, free: seq<Name>)
    requires ProcShape(w) && w.inner[0].rule == PReceive
    requires ProcAccounts(w.inner[0].inner[2], free)
    ensures ProcAccounts(w, free)
  {
    var c := w.inner[0].inner;
    var next := ProcSpec(c[2], free);
    var parameter := NameOf(c[1]);
    assert ProcSpec(w, free) == (Do(NameOf(c[0]), Receive(parameter, next.0)), Unbind(next.1, parameter));
    ReceiveTerm(NameOf(c[0]), parameter, next.0);
    AccountsUnbind(free, next.1, ProcMentions(next.0), ProcBinders(next.0), parameter);
  }

  lemma ReceiveTerm(subject: Name, parameter: Name, next: Process)
    ensures ProcMentions(Do(subject, Receive(parameter, next))) == ProcMentions(next)
    ensures ProcBinders(Do(subject, Receive(parameter, next))) == {parameter.text} + ProcBinders(next)
  {
  }

  lemma CaseAccounts(w: Pair, free: seq<Name>)
    requires ProcShape(w) && w.inner[0].rule == PCase
    requires var branches := BranchesSpec(w.inner[0].inner[1], 0, free);
      var cmd := Case(branches.0, None);
      Accounts(free, branches.1, BranchMentions(cmd, 0), BranchBinders(cmd, 0)) &&
      (|w.inner[0].inner| >= 3 ==> ProcAccounts(w.inner[0].inner[2], branches.1))
    ensures ProcAccounts(w, free)
  {
    var c := w.inner[0].inner;
    var subject := NameOf(c[0]);
    var branches := BranchesSpec(c[1], 0, free);
    if |c| >= 3 {
      var otherwise := ProcSpec(c[2], branches.1);
      assert ProcSpec(w, free) == (Do(subject, Case(branches.0, Some(otherwise.0))), otherwise.1);
      CaseTerm(subject, branches.0, Some(otherwise.0));
      AccountsCompose(free, branches.1, otherwise.1,
        BranchMentions(Case(branches.0, None), 0), ProcMentions(otherwise.0),
        BranchBinders(Case(branches.0, None), 0), ProcBinders(otherwise.0));
    } else {
      assert ProcSpec(w, free) == (Do(subject, Case(branches.0, None)), branches.1);
      CaseTerm(subject, branches.0, None);
    }
  }

  lemma CaseTerm(subject: Name, branches: seq<(Name, Process)>, otherwise: Option<Process>)
    ensures ProcMentions(Do(subject, Case(branches, otherwise))) ==
      if otherwise.Some? then BranchMentions(Case(branches, None), 0) + ProcMentions(otherwise.value)
      else BranchMentions(Case(branches, None), 0)
    ensures ProcBinders(Do(subject, Case(branches, otherwise))) ==
      if otherwise.Some? then BranchBinders(Case(branches, None), 0) + ProcBinders(otherwise.value)
      else BranchBinders(Case(branches, None), 0)
  {
    BranchMentionsIgnoreOtherwise(Case(branches, None), Case(branches, otherwise), 0);
    if otherwise.None? {
      assert BranchMentions(Case(branches, None), 0) + [] == BranchMentions(Case(branches, None), 0);
      assert BranchBinders(Case(branches, None), 0) + {} == BranchBinders(Case(branches, None), 0);
    }
  }

  /**
    The walk of the branches from child `i` on accounts for what branches
    `k` on of `c` mention and bind, when those are the branches it builds.
  */
  lemma {:induction false} BranchesWalkAccounts(bs: Pair, i: nat, free: seq<Name>, c: Command, k: nat)
    requires i <= |bs.inner| && BranchesShape(bs, i)
    requires c.Case? && k <= |c.branches| && c.branches[k..] == BranchesSpec(bs, i, free).0
    ensures Accounts(free, BranchesSpec(bs, i, free).1, BranchMentions(c, k), BranchBinders(c, k))
    decreases bs, |bs.inner| - i
  {
    if i == |bs.inner| {
      assert |c.branches[k..]| == 0;
      AccountsNothing(free);
    } else {
      var b := bs.inner[i];
      var process := ProcSpec(b.inner[1], free);
      var rest := BranchesSpec(bs, i + 1, process.1);
      assert c.branches[k] == c.branches[k..][0] == (NameOf(b.inner[0]), process.0);
      assert c.branches[k + 1..] == c.branches[k..][1..];
      ProcWalkAccounts(b.inner[1], free);
      assert Accounts(free, process.1, ProcMentions(process.0), ProcBinders(process.0));
      BranchesWalkAccounts(bs, i + 1, process.1, c, k + 1);
      AccountsCompose(free, process.1, rest.1, ProcMentions(process.0), BranchMentions(c, k + 1), ProcBinders(process.0), BranchBinders(c, k + 1));
    }
  }

  lemma {:induction false} BranchMentionsIgnoreOtherwise(c: Command, d: Command, i: nat)
    requires c.Case? && d.Case? && c.branches == d.branches && i <= |c.branches|
    ensures BranchMentions(c, i) == BranchMentions(d, i)
    ensures BranchBinders(c, i) == BranchBinders(d, i)
    decreases |c.branches| - i
  {
    if i < |c.branches| {
      BranchMentionsIgnoreOtherwise(c, d, i + 1);
    }
  }

  /**
    A fork captures exactly the free list it hands back to its caller: what
    its body left, less one name with the channel's text if there is one.
  */
  lemma ForkCaptures(w: Pair, free: seq<Name>)
    requires ExprShape(w) && w.inner[0].rule == Rule.Fork
    ensures var (e, out) := ExprSpec(w, free);
      var body := ProcSpec(w.inner[0].inner[1], free);
      e.Fork? && e.process == body.0 && e.capture.variables == out &&
      multiset(out) <= multiset(body.1) &&
      multiset(Texts(out)) == multiset(Texts(body.1)) - multiset{e.channel.text}
  {
  }

  // ---------------------------------------------------------------------------
  // A fork that captures its own channel
  // ---------------------------------------------------------------------------

  function Leaf(text: string, column: nat): Pair {
    Pair(Other, text, 1, column, [])
  }

  function Wrap(p: Pair): Pair {
    Pair(Other, p.text, p.line, p.column, [p])
  }

  /** A branch `tag` whose process breaks `x` at `column`. */
  function BreakBranch(tag: string, labelColumn: nat, column: nat): Pair {
    Pair(Other, tag, 1, labelColumn, [Leaf(tag, labelColumn), Wrap(Pair(PBreak, "x", 1, column, [Leaf("x", column)]))])
  }

  /** A fork on channel `x` whose body is a case on `y` in which both branches break `x`. */
  const ForkOfTwoBreaks: Pair :=
    Wrap(Pair(Rule.Fork, "chan", 1, 1, [
      Leaf("x", 6),
      Wrap(Pair(PCase, "y", 1, 9, [
        Leaf("y", 9),
        Pair(PBranches, "", 1, 16, [BreakBranch("a", 18, 23), BreakBranch("b", 27, 32)])]))]))

  /**
    Each branch of a case pushes its free names onto the shared list, so a
    channel closed in both branches is there twice; the fork removes one of
    them and captures the other: the fork captures its own channel.
  */
  lemma ForkOfTwoBreaksCapturesItsChannel()
    ensures ExprShape(ForkOfTwoBreaks)
    ensures ExprSpec(ForkOfTwoBreaks, []).0.capture.variables == [Name("x", Location(1, 32))]
  {
    var x1 := Name("x", Location(1, 23));
    var x2 := Name("x", Location(1, 32));
    var bs := Pair(PBranches, "", 1, 16, [BreakBranch("a", 18, 23), BreakBranch("b", 27, 32)]);
    TwoBreakBranchesWalk();
    var body := Wrap(Pair(PCase, "y", 1, 9, [Leaf("y", 9), bs]));
    CaseWithoutOtherwiseWalk(body, []);
    ForkOfTwoOccurrences(ForkOfTwoBreaks, x1, x2);
  }

  /** A case without `otherwise` leaves on the list exactly what its branches leave. */
  lemma CaseWithoutOtherwiseWalk(w: Pair, free: seq<Name>)
    requires |w.inner| == 1 && w.inner[0].rule == PCase && |w.inner[0].inner| == 2
    requires w.inner[0].inner[1].rule == PBranches && BranchesShape(w.inner[0].inner[1], 0)
    ensures ProcShape(w) && ProcSpec(w, free).1 == BranchesSpec(w.inner[0].inner[1], 0, free).1
  {
  }

  /**
    A fork whose body leaves two names with the channel's text captures the
    second: the first is the one the fork removes.
  */
  lemma ForkOfTwoOccurrences(w: Pair, x1: Name, x2: Name)
    requires |w.inner| >= 1 && w.inner[0].rule == Rule.Fork && |w.inner[0].inner| >= 2
    requires ProcShape(w.inner[0].inner[1])
    requires ProcSpec(w.inner[0].inner[1], []).1 == [x1, x2]
    requires x1.text == x2.text == w.inner[0].inner[0].text
    ensures ExprShape(w) && ExprSpec(w, []).0.capture.variables == [x2]
  {
    UnbindFirstOfTwo(x1, x2, NameOf(w.inner[0].inner[0]));
  }

  /** A binder whose text the first of two names has removes that one. */
  lemma UnbindFirstOfTwo(x1: Name, x2: Name, n: Name)
    requires x1.text == n.text
    ensures Unbind([x1, x2], n) == [x2]
  {
    assert Position([x1, x2], n) == Some(0);
    assert IndexMaps.SwapRemoveAt([x1, x2], 0) == [x2];
  }

  /** The two branches, walked from an empty list, leave both occurrences of `x` on it. */
  lemma TwoBreakBranchesWalk()
    ensures var bs := Pair(PBranches, "", 1, 16, [BreakBranch("a", 18, 23), BreakBranch("b", 27, 32)]);
      BranchesShape(bs, 0) && BranchesSpec(bs, 0, []).1 == [Name("x", Location(1, 23)), Name("x", Location(1, 32))]
  {
    var x1 := Name("x", Location(1, 23));
    var x2 := Name("x", Location(1, 32));
    var bs := Pair(PBranches, "", 1, 16, [BreakBranch("a", 18, 23), BreakBranch("b", 27, 32)]);
    BreakBranchWalk("a", 18, 23, []);
    BreakBranchWalk("b", 27, 32, [x1]);
    assert BranchesShape(bs, 2);
    assert BranchesShape(bs, 1);
    assert BranchesSpec(bs, 2, [x1, x2]).1 == [x1, x2];
    assert BranchesSpec(bs, 1, [x1]).1 == [x1, x2];
  }

  lemma BreakBranchWalk(tag: string, labelColumn: nat, column: nat, free: seq<Name>)
    ensures |BreakBranch(tag, labelColumn, column).inner| >= 2
    ensures ProcShape(BreakBranch(tag, labelColumn, column).inner[1])
    ensures ProcSpec(BreakBranch(tag, labelColumn, column).inner[1], free).1 == free + [Name("x", Location(1, column))]
  {
  }

  // ---------------------------------------------------------------------------
  // The program
  // ---------------------------------------------------------------------------

  /** The texts of the names of `entries`. */
  function Defined(entries: seq<(Name, Expression)>): set<string> {
    set e | e in entries :: e.0.text
  }

  /** Entry `j` repeats the text of an earlier entry or of a name already defined. */
  predicate Clashes(entries: seq<(Name, Expression)>, statics: Statics, j: nat)
    requires j < |entries|
  {
    entries[j].0.text in statics || exists k | 0 <= k < j :: entries[k].0.text == entries[j].0.text
  }

  /** Past a first entry that does not clash, the clashes of the rest are those of the whole, shifted by one. */
  lemma ClashesShift(entries: seq<(Name, Expression)>, statics: Statics, j: nat)
    requires entries != [] && entries[0].0.text !in statics && j + 1 < |entries|
    ensures Clashes(entries[1..], statics[entries[0].0.text := entries[0]], j) <==> Clashes(entries, statics, j + 1)
  {
    var rest := entries[1..];
    assert rest[j] == entries[j + 1];
    if exists k | 0 <= k < j + 1 :: entries[k].0.text == entries[j + 1].0.text {
      var k :| 0 <= k < j + 1 && entries[k].0.text == entries[j + 1].0.text;
      if k > 0 {
        assert rest[k - 1] == entries[k];
      }
    }
    if exists k | 0 <= k < j :: rest[k].0.text == rest[j].0.text {
      var k :| 0 <= k < j && rest[k].0.text == rest[j].0.text;
      assert entries[k + 1] == rest[k];
    }
  }

  /** Inserting definitions succeeds exactly when no entry clashes. */
  lemma {:induction false} CollectOkIff(entries: seq<(Name, Expression)>, statics: Statics)
    ensures Collect(entries, statics).Ok? <==> forall j | 0 <= j < |entries| :: !Clashes(entries, statics, j)
  {
    if entries != [] {
      var head := entries[0];
      if head.0.text in statics {
        assert Clashes(entries, statics, 0);
      } else {
        var statics' := statics[head.0.text := head];
        CollectOkIff(entries[1..], statics');
        assert !Clashes(entries, statics, 0);
        forall j | 0 <= j < |entries| - 1
          ensures Clashes(entries[1..], statics', j) <==> Clashes(entries, statics, j + 1)
        {
          ClashesShift(entries, statics, j);
        }
        if forall j | 0 <= j < |entries[1..]| :: !Clashes(entries[1..], statics', j) {
          forall j | 0 <= j < |entries| ensures !Clashes(entries, statics, j) {
            if j > 0 {
              assert !Clashes(entries[1..], statics', j - 1);
            }
          }
        }
      }
    }
  }

  /** A failed insertion reports the "already defined" error at the first clashing entry's own name. */
  lemma {:induction false} CollectErrAtFirstClash(entries: seq<(Name, Expression)>, statics: Statics)
    requires Collect(entries, statics).Err?
    ensures exists j | 0 <= j < |entries| ::
      Clashes(entries, statics, j) && (forall k | 0 <= k < j :: !Clashes(entries, statics, k)) &&
      Collect(entries, statics).error == AlreadyDefined(entries[j].0)
  {
    var head := entries[0];
    if head.0.text in statics {
      assert Clashes(entries, statics, 0);
    } else {
      var statics' := statics[head.0.text := head];
      var rest := entries[1..];
      CollectErrAtFirstClash(rest, statics');
      var j :| 0 <= j < |rest| &&
        Clashes(rest, statics', j) && (forall k | 0 <= k < j :: !Clashes(rest, statics', k)) &&
        Collect(rest, statics').error == AlreadyDefined(rest[j].0);
      assert entries[j + 1] == rest[j];
      ClashesShift(entries, statics, j);
      assert !Clashes(entries, statics, 0);
      forall k | 0 < k < j + 1
        ensures !Clashes(entries, statics, k)
      {
        ClashesShift(entries, statics, k - 1);
      }
    }
  }

  /**
    A successful insertion stores every entry under its text, the defining
    name (location included) with its expression, and keeps what was defined
    before.
  */
  lemma {:induction false} CollectDefines(entries: seq<(Name, Expression)>, statics: Statics)
    requires Collect(entries, statics).Ok?
    ensures var m := Collect(entries, statics).value;
      m.Keys == statics.Keys + Defined(entries) &&
      (forall k | k in statics :: m[k] == statics[k])
    ensures forall e | e in entries :: Collect(entries, statics).value[e.0.text] == e
  {
    if entries != [] {
      var head, rest := entries[0], entries[1..];
      var statics' := statics[head.0.text := head];
      assert Collect(entries, statics) == Collect(rest, statics');
      CollectDefines(rest, statics');
      DefinedCons(entries);
      var m := Collect(entries, statics).value;
      forall e | e in entries ensures m[e.0.text] == e {
        if e != head {
          assert e in rest;
        }
      }
    }
  }

  lemma DefinedCons(entries: seq<(Name, Expression)>)
    requires entries != []
    ensures Defined(entries) == {entries[0].0.text} + Defined(entries[1..])
  {
    forall e | e in entries ensures e == entries[0] || e in entries[1..] {
      var j :| 0 <= j < |entries| && entries[j] == e;
      if j > 0 {
        assert entries[1..][j - 1] == e;
      }
    }
  }

  /**
    `parse_program` accepts a program exactly when no two items share a
    name (their texts), and then defines each name by its item's expression,
    walked from an empty free list.
  */
  lemma ProgramAcceptsDistinctNames(items: seq<Pair>)
    requires ItemsShape(items)
    ensures var es := Entries(items);
      ProgramSpec(items).Ok? <==> forall a, b | 0 <= a < b < |es| :: es[a].0.text != es[b].0.text
    ensures ProgramSpec(items).Ok? ==>
      forall k | 0 <= k < |items| && items[k].rule != EOI ::
        NameOf(items[k].inner[0]).text in ProgramSpec(items).value &&
        ProgramSpec(items).value[NameOf(items[k].inner[0]).text] == (NameOf(items[k].inner[0]), ExprSpec(items[k].inner[1], []).0)
  {
    var es := Entries(items);
    var none: Statics := map[];
    assert ProgramSpec(items) == Collect(es, none);
    CollectOkIff(es, none);
    if ProgramSpec(items).Ok? {
      CollectDefines(es, none);
      forall a, b | 0 <= a < b < |es| ensures es[a].0.text != es[b].0.text {
        assert !Clashes(es, none, b);
      }
    } else {
      var b :| 0 <= b < |es| && Clashes(es, none, b);
      assert es[b].0.text !in none;
      var a :| 0 <= a < b && es[a].0.text == es[b].0.text;
      assert !(forall a', b' | 0 <= a' < b' < |es| :: es[a'].0.text != es[b'].0.text);
    }
  }

  /** Entry `b` is the first to repeat the text of an earlier entry. */
  predicate FirstRepeat(es: seq<(Name, Expression)>, b: nat) {
    b < |es| &&
    (exists a | 0 <= a < b :: es[a].0.text == es[b].0.text) &&
    (forall a, b' | 0 <= a < b' < b :: es[a].0.text != es[b'].0.text)
  }

  /**
    A program in which a name is defined twice is rejected at the second
    occurrence of the first name defined twice, with the message that the
    name is already defined.
  */
  lemma ProgramRejectsFirstRepeat(items: seq<Pair>)
    requires ItemsShape(items) && ProgramSpec(items).Err?
    ensures exists b: nat :: FirstRepeat(Entries(items), b) && ProgramSpec(items).error == AlreadyDefined(Entries(items)[b].0)
  {
    FirstRepeatRejected(Entries(items));
  }

  lemma FirstRepeatRejected(es: seq<(Name, Expression)>)
    requires Collect(es, map[]).Err?
    ensures exists b: nat :: FirstRepeat(es, b) && Collect(es, map[]).error == AlreadyDefined(es[b].0)
  {
    var none: Statics := map[];
    CollectErrAtFirstClash(es, none);
    var b :| 0 <= b < |es| && Clashes(es, none, b) && (forall k | 0 <= k < b :: !Clashes(es, none, k)) &&
      Collect(es, none).error == AlreadyDefined(es[b].0);
    forall a, b' | 0 <= a < b' < b ensures es[a].0.text != es[b'].0.text {
      assert !Clashes(es, none, b');
    }
    assert es[b].0.text !in none;
    assert FirstRepeat(es, b);
  }
}
