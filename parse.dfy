/**
  The pest tree walker of src/parse.rs: it turns the concrete syntax tree of
  a program into `Base` terms and, on the way, threads one mutable list of
  free names through the whole walk of each top-level item.

  A pest `Pair` is abstracted as its rule, its matched text, the line and
  column where it starts, and its children.  The grammar file that fixes the
  shape of the tree is not part of this model; `ExprShape`, `ProcShape` and
  `ProgramShape` state the shape the walker relies on (every `unwrap` and
  `unreachable!` of the walker is a shape it assumes of pest's output).

  Each walking method is proved against a function of the same name with
  `Spec` appended; the lemmas at the end state what the free list is.
*/
module PestWalker {
  import opened Wrappers
  import opened IndexMaps
  import opened Base

  datatype Rule =
    | Fork | Reference
    | PLet | PLink | PBreak | PContinue | PSend | PReceive | PSelect | PCase | PBranches
    | EOI | Other

  datatype Pair = Pair(rule: Rule, text: string, line: nat, column: nat, inner: seq<Pair>)

  datatype ParseError = ParseError(message: string, location: Location)

  datatype Result<T> = Ok(value: T) | Err(error: ParseError)

  /** `From<Pair> for Name`: the matched text and where it starts. */
  function NameOf(p: Pair): Name {
    Name(p.text, Location(p.line, p.column))
  }

  // ---------------------------------------------------------------------------
  // The shape of pest's tree that the walker assumes
  // ---------------------------------------------------------------------------

  /** An expression wrapper whose only child is a `fork` (channel, process) or a `reference`. */
  predicate ExprShape(w: Pair)
    decreases w, 0
  {
    |w.inner| >= 1 &&
    var p := w.inner[0];
    match p.rule
    case Fork => |p.inner| >= 2 && ProcShape(p.inner[1])
    case Reference => true
    case _ => false
  }

  /** A process wrapper whose only child is one of the eight process rules with its children. */
  predicate ProcShape(w: Pair)
    decreases w, 0
  {
    |w.inner| >= 1 &&
    var p := w.inner[0];
    var c := p.inner;
    match p.rule
    case PLet => |c| >= 3 && ExprShape(c[1]) && ProcShape(c[2])
    case PLink => |c| >= 2 && ExprShape(c[1])
    case PBreak => |c| >= 1
    case PContinue => |c| >= 2 && ProcShape(c[1])
    case PSend => |c| >= 3 && ExprShape(c[1]) && ProcShape(c[2])
    case PReceive => |c| >= 3 && ProcShape(c[2])
    case PSelect => |c| >= 3 && ProcShape(c[2])
    case PCase =>
      |c| >= 2 && c[1].rule == PBranches && BranchesShape(c[1], 0) &&
      (|c| >= 3 ==> ProcShape(c[2]))
    case _ => false
  }

  /** From child `i` on, every branch of a `p_branches` pair is a name followed by a process. */
  predicate BranchesShape(bs: Pair, i: nat)
    decreases bs, |bs.inner| - i
  {
    i >= |bs.inner| ||
    (|bs.inner[i].inner| >= 2 && ProcShape(bs.inner[i].inner[1]) && BranchesShape(bs, i + 1))
  }

  /** Every child of `program` other than `EOI` is a name followed by an expression. */
  predicate ProgramShape(program: Pair) {
    forall i | 0 <= i < |program.inner| ::
      program.inner[i].rule != EOI ==>
        |program.inner[i].inner| >= 2 && ExprShape(program.inner[i].inner[1])
  }

  // ---------------------------------------------------------------------------
  // The free list
  // ---------------------------------------------------------------------------

  function Texts(s: seq<Name>): (r: seq<string>)
    ensures |r| == |s|
    ensures forall i | 0 <= i < |s| :: r[i] == s[i].text
  {
    if s == [] then [] else [s[0].text] + Texts(s[1..])
  }

  /** `free.iter().position(|v| v == n)`, with the `PartialEq` of `Name`. */
  function Position(free: seq<Name>, n: Name): (r: Option<nat>)
    ensures r.Some? ==> r.value < |free| && free[r.value].text == n.text
    ensures r.Some? ==> forall j | 0 <= j < r.value :: free[j].text != n.text
    ensures r.None? <==> n.text !in Texts(free)
  {
    if free == [] then None
    else if Same(free[0], n) then Some(0)
    else
      match Position(free[1..], n)
      case None => None
      case Some(i) => Some(i + 1)
  }

  /**
    What a binder does to the free list: the first name with the binder's
    text, if any, is swap-removed.
  */
  function Unbind(free: seq<Name>, n: Name): (r: seq<Name>)
    ensures multiset(r) <= multiset(free)
    ensures multiset(Texts(r)) == multiset(Texts(free)) - multiset{n.text}
    ensures |r| == if n.text in Texts(free) then |free| - 1 else |free|
  {
    match Position(free, n)
    case None => free
    case Some(i) =>
      TextsSwapRemoveAt(free, i);
      SwapRemoveAt(free, i)
  }

  lemma TextsSwapRemoveAt(s: seq<Name>, i: nat)
    requires i < |s|
    ensures Texts(SwapRemoveAt(s, i)) == SwapRemoveAt(Texts(s), i)
  {
  }

  // ---------------------------------------------------------------------------
  // Specification of the walk
  // ---------------------------------------------------------------------------

  /** The expression `parse_expression` builds and the free list it leaves behind. */
  function ExprSpec(w: Pair, free: seq<Name>): (Expression, seq<Name>)
    requires ExprShape(w)
    decreases w, 0
  {
    var p := w.inner[0];
    if p.rule == Rule.Fork then
      var channel := NameOf(p.inner[0]);
      var body := ProcSpec(p.inner[1], free);
      var remaining := Unbind(body.1, channel);
      (Expression.Fork(Capture(remaining), channel, body.0), remaining)
    else
      var name := NameOf(p);
      (Ref(name), free + [name])
  }

  /** The process `parse_process` builds and the free list it leaves behind. */
  function ProcSpec(w: Pair, free: seq<Name>): (Process, seq<Name>)
    requires ProcShape(w)
    decreases w, 0
  {
    var p := w.inner[0];
    var c := p.inner;
    var subject := NameOf(c[0]);
    match p.rule
    case PLet =>
      var value := ExprSpec(c[1], free);
      var next := ProcSpec(c[2], value.1);
      (Let(subject, value.0, next.0), Unbind(next.1, subject))
    case PLink =>
      var argument := ExprSpec(c[1], free);
      (Link(subject, argument.0), argument.1 + [subject])
    case PBreak =>
      (Do(subject, Break), free + [subject])
    case PContinue =>
      var next := ProcSpec(c[1], free);
      (Do(subject, Continue(next.0)), next.1 + [subject])
    case PSend =>
      var argument := ExprSpec(c[1], free);
      var next := ProcSpec(c[2], argument.1);
      (Do(subject, Send(argument.0, next.0)), next.1)
    case PReceive =>
      var parameter := NameOf(c[1]);
      var next := ProcSpec(c[2], free);
      (Do(subject, Receive(parameter, next.0)), Unbind(next.1, parameter))
    case PSelect =>
      var next := ProcSpec(c[2], free);
      (Do(subject, Select(NameOf(c[1]), next.0)), next.1)
    case PCase =>
      var branches := BranchesSpec(c[1], 0, free);
      if |c| >= 3 then
        var otherwise := ProcSpec(c[2], branches.1);
        (Do(subject, Case(branches.0, Some(otherwise.0))), otherwise.1)
      else
        (Do(subject, Case(branches.0, None)), branches.1)
  }

  /** The branches of a `p_case` from child `i` on, walked left to right. */
  function BranchesSpec(bs: Pair, i: nat, free: seq<Name>): (seq<(Name, Process)>, seq<Name>)
    requires i <= |bs.inner| && BranchesShape(bs, i)
    decreases bs, |bs.inner| - i
  {
    if i == |bs.inner| then ([], free)
    else
      var b := bs.inner[i];
      var process := ProcSpec(b.inner[1], free);
      var rest := BranchesSpec(bs, i + 1, process.1);
      ([(NameOf(b.inner[0]), process.0)] + rest.0, rest.1)
  }

  // ---------------------------------------------------------------------------
  // The walk
  // ---------------------------------------------------------------------------

  /** `parse_expression`: `free` is the caller's list before the call, `freeOut` after it. */
  method ParseExpression(w: Pair, free: seq<Name>) returns (e: Expression, freeOut: seq<Name>)
    requires ExprShape(w)
    ensures (e, freeOut) == ExprSpec(w, free)
    decreases w, 0
  {
    var p := w.inner[0];
    if p.rule == Rule.Fork {
      var channel := NameOf(p.inner[0]);
      var process;
      process, freeOut := ParseProcess(p.inner[1], free);
      var index := Position(freeOut, channel);
      if index.Some? {
        TextsSwapRemoveAt(freeOut, index.value);
        freeOut := SwapRemoveAt(freeOut, index.value);
      }
      e := Expression.Fork(Capture(freeOut), channel, process);
    } else {
      var name := NameOf(p);
      freeOut := free + [name];
      e := Ref(name);
    }
  }

  /** `parse_process`: `free` is the caller's list before the call, `freeOut` after it. */
  method ParseProcess(w: Pair, free: seq<Name>) returns (proc: Process, freeOut: seq<Name>)
    requires ProcShape(w)
    ensures (proc, freeOut) == ProcSpec(w, free)
    decreases w, 0
  {
    var p := w.inner[0];
    var c := p.inner;
    var subject := NameOf(c[0]);
    match p.rule {
      case PLet =>
        var value, next;
        value, freeOut := ParseExpression(c[1], free);
        next, freeOut := ParseProcess(c[2], freeOut);
        freeOut := Unbind(freeOut, subject);
        proc := Let(subject, value, next);
      case PLink =>
        var argument;
        argument, freeOut := ParseExpression(c[1], free);
        freeOut := freeOut + [subject];
        proc := Link(subject, argument);
      case PBreak =>
        freeOut := free + [subject];
        proc := Do(subject, Break);
      case PContinue =>
        var next;
        next, freeOut := ParseProcess(c[1], free);
        freeOut := freeOut + [subject];
        proc := Do(subject, Continue(next));
      case PSend =>
        var argument, next;
        argument, freeOut := ParseExpression(c[1], free);
        next, freeOut := ParseProcess(c[2], freeOut);
        proc := Do(subject, Send(argument, next));
      case PReceive =>
        var parameter := NameOf(c[1]);
        var next;
        next, freeOut := ParseProcess(c[2], free);
        freeOut := Unbind(freeOut, parameter);
        proc := Do(subject, Receive(parameter, next));
      case PSelect =>
        var next;
        next, freeOut := ParseProcess(c[2], free);
        proc := Do(subject, Select(NameOf(c[1]), next));
      case PCase =>
        var branches;
        branches, freeOut := ParseBranches(c[1], free);
        var otherwise: Option<Process> := None;
        if |c| >= 3 {
          var o;
          o, freeOut := ParseProcess(c[2], freeOut);
          otherwise := Some(o);
        }
        proc := Do(subject, Case(branches, otherwise));
    }
  }

  /**
    The loop invariant of `p_case` carried past branch `i`: the branches walked
    so far followed by those still to walk are what `BranchesSpec` gives.
  */
  lemma BranchesAdvance(bs: Pair, i: nat, free: seq<Name>, branches: seq<(Name, Process)>, before: seq<Name>)
    requires i < |bs.inner| && BranchesShape(bs, 0) && BranchesShape(bs, i)
    requires BranchesSpec(bs, 0, free) == (branches + BranchesSpec(bs, i, before).0, BranchesSpec(bs, i, before).1)
    ensures ProcShape(bs.inner[i].inner[1]) && BranchesShape(bs, i + 1)
    ensures var walked := ProcSpec(bs.inner[i].inner[1], before);
      var rest := BranchesSpec(bs, i + 1, walked.1);
      BranchesSpec(bs, 0, free) == (branches + [(NameOf(bs.inner[i].inner[0]), walked.0)] + rest.0, rest.1)
  {
    var walked := ProcSpec(bs.inner[i].inner[1], before);
    var rest := BranchesSpec(bs, i + 1, walked.1);
    var branch := (NameOf(bs.inner[i].inner[0]), walked.0);
    assert BranchesSpec(bs, i, before) == ([branch] + rest.0, rest.1);
    AppendAssociates(branches, [branch], rest.0);
  }

  /** The loop of `p_case` over its branches, pushing each walked branch onto `branches`. */
  method ParseBranches(bs: Pair, free: seq<Name>) returns (branches: seq<(Name, Process)>, freeOut: seq<Name>)
    requires BranchesShape(bs, 0)
    ensures (branches, freeOut) == BranchesSpec(bs, 0, free)
    decreases bs, 0
  {
    branches := [];
    freeOut := free;
    var i := 0;
    assert branches + BranchesSpec(bs, 0, free).0 == BranchesSpec(bs, 0, free).0;
    while i < |bs.inner|
      invariant i <= |bs.inner| && BranchesShape(bs, i)
      invariant BranchesSpec(bs, 0, free) == (branches + BranchesSpec(bs, i, freeOut).0, BranchesSpec(bs, i, freeOut).1)
      decreases |bs.inner| - i
    {
      var b := bs.inner[i];
      BranchesAdvance(bs, i, free, branches, freeOut);
      var process;
      process, freeOut := ParseProcess(b.inner[1], freeOut);
      branches := branches + [(NameOf(b.inner[0]), process)];
      i := i + 1;
    }
    assert BranchesSpec(bs, i, freeOut) == ([], freeOut);
    assert branches + [] == branches;
  }

  // ---------------------------------------------------------------------------
  // The program
  // ---------------------------------------------------------------------------

  /** The children of `program` other than `EOI` are each a name followed by an expression. */
  predicate ItemsShape(items: seq<Pair>) {
    forall i | 0 <= i < |items| ::
      items[i].rule != EOI ==> |items[i].inner| >= 2 && ExprShape(items[i].inner[1])
  }

  function AlreadyDefined(name: Name): ParseError {
    ParseError("\"" + name.text + "\" is already defined", name.location)
  }

  /**
    The definitions `parse_program` inserts, in order: one for every child
    other than `EOI`, its expression walked from an empty free list.
  */
  function Entries(items: seq<Pair>): (r: seq<(Name, Expression)>)
    requires ItemsShape(items)
    ensures forall k | 0 <= k < |items| && items[k].rule != EOI ::
      (NameOf(items[k].inner[0]), ExprSpec(items[k].inner[1], []).0) in r
  {
    if items == [] then []
    else
      var head := if items[0].rule == EOI then [] else [(NameOf(items[0].inner[0]), ExprSpec(items[0].inner[1], []).0)];
      var tail := Entries(items[1..]);
      assert forall k | 1 <= k < |items| :: items[k] == items[1..][k - 1];
      head + tail
  }

  /**
    The statics of the context. The source keys them by `Name`, whose order
    compares texts only, so they are keyed here by the text; the value keeps
    the defining name itself, location included, beside its expression.
  */
  type Statics = map<string, (Name, Expression)>

  /**
    Inserting the definitions one after the other into the statics of the
    context; the first name already present is an error at its own
    location.
  */
  function Collect(entries: seq<(Name, Expression)>, statics: Statics): Result<Statics>
  {
    if entries == [] then Ok(statics)
    else if entries[0].0.text in statics then Err(AlreadyDefined(entries[0].0))
    else Collect(entries[1..], statics[entries[0].0.text := entries[0]])
  }

  /** What `parse_program` returns for the children of the `program` pair. */
  function ProgramSpec(items: seq<Pair>): Result<Statics>
    requires ItemsShape(items)
  {
    Collect(Entries(items), map[])
  }

  lemma EntriesAt(items: seq<Pair>, i: nat)
    requires ItemsShape(items) && i < |items|
    ensures ItemsShape(items[i..]) && ItemsShape(items[i + 1..])
    ensures Entries(items[i..]) ==
      (if items[i].rule == EOI then [] else [(NameOf(items[i].inner[0]), ExprSpec(items[i].inner[1], []).0)])
      + Entries(items[i + 1..])
  {
    assert items[i..][1..] == items[i + 1..];
  }

  /** `parse_program`, given the children of the `program` pair. */
  method ParseProgram(items: seq<Pair>) returns (r: Result<Statics>)
    requires ItemsShape(items)
    ensures r == ProgramSpec(items)
  {
    var statics: Statics := map[];
    var i := 0;
    while i < |items|
      invariant i <= |items| && ItemsShape(items[i..])
      invariant ProgramSpec(items) == Collect(Entries(items[i..]), statics)
    {
      var pair := items[i];
      EntriesAt(items, i);
      if pair.rule != EOI {
        var name := NameOf(pair.inner[0]);
        var expr, free := ParseExpression(pair.inner[1], []);
        var entries := Entries(items[i..]);
        assert entries[0] == (name, expr) && entries[1..] == Entries(items[i + 1..]);
        if name.text in statics {
          return Err(AlreadyDefined(name));
        }
        statics := statics[name.text := (name, expr)];
      } else {
        assert Entries(items[i..]) == Entries(items[i + 1..]);
      }
      i := i + 1;
    }
    assert items[i..] == [];
    r := Ok(statics);
  }
}
