/**
  The productions of src/par/parser.rs for expressions, constructions,
  applications, processes and commands, and the top-level `program` that
  collects type definitions, declarations and definitions into three maps.
  Same conventions as `TypeGrammar`: the recursion decreases the length of the
  input and, for an `alt` that tries its alternatives on the same input, a
  rank; `commit_after(lead, p)` is written as the leading literals followed by
  `CutErr(p)`.
*/
module Grammar {
  import opened Wrappers
  import opened Tokens
  import opened IndexMaps
  import opened Combinators
  import opened TypeGrammar
  import S = Syntax

  // The nodes the multi-argument sugar folds into; each source loop puts the
  // first argument outermost.

  function ConsSendNode(loc: Loc): (S.Expression, S.Construct) -> S.Construct {
    (argument, next) => S.Construct.Send(loc, argument, next)
  }

  function ConsReceiveNode(loc: Loc): (S.Pattern, S.Construct) -> S.Construct {
    (pattern, next) => S.Construct.Receive(loc, pattern, next)
  }

  function ConsSendTypeNode(loc: Loc): (S.Type, S.Construct) -> S.Construct {
    (argType, next) => S.Construct.SendType(loc, argType, next)
  }

  function ConsReceiveTypeNode(loc: Loc): (Name, S.Construct) -> S.Construct {
    (param, next) => S.Construct.ReceiveType(loc, param, next)
  }

  function ConsBranchReceiveNode(loc: Loc): (S.Pattern, S.ConstructBranch) -> S.ConstructBranch {
    (pattern, next) => S.ConstructBranch.Receive(loc, pattern, next)
  }

  function ConsBranchReceiveTypeNode(loc: Loc): (Name, S.ConstructBranch) -> S.ConstructBranch {
    (param, next) => S.ConstructBranch.ReceiveType(loc, param, next)
  }

  function ApplySendNode(loc: Loc): (S.Expression, S.Apply) -> S.Apply {
    (argument, next) => S.Apply.Send(loc, argument, next)
  }

  function ApplySendTypeNode(loc: Loc): (S.Type, S.Apply) -> S.Apply {
    (argType, next) => S.Apply.SendType(loc, argType, next)
  }

  function ApplyBranchReceiveNode(loc: Loc): (S.Pattern, S.ApplyBranch) -> S.ApplyBranch {
    (pattern, next) => S.ApplyBranch.Receive(loc, pattern, next)
  }

  function ApplyBranchReceiveTypeNode(loc: Loc): (Name, S.ApplyBranch) -> S.ApplyBranch {
    (param, next) => S.ApplyBranch.ReceiveType(loc, param, next)
  }

  function CmdSendNode(loc: Loc): (S.Expression, S.Command) -> S.Command {
    (argument, next) => S.Command.Send(loc, argument, next)
  }

  function CmdReceiveNode(loc: Loc): (S.Pattern, S.Command) -> S.Command {
    (pattern, next) => S.Command.Receive(loc, pattern, next)
  }

  function CmdSendTypeNode(loc: Loc): (S.Type, S.Command) -> S.Command {
    (argType, next) => S.Command.SendType(loc, argType, next)
  }

  function CmdReceiveTypeNode(loc: Loc): (Name, S.Command) -> S.Command {
    (param, next) => S.Command.ReceiveType(loc, param, next)
  }

  function CmdBranchReceiveNode(loc: Loc): (S.Pattern, S.CommandBranch) -> S.CommandBranch {
    (pattern, next) => S.CommandBranch.Receive(loc, pattern, next)
  }

  function CmdBranchReceiveTypeNode(loc: Loc): (Name, S.CommandBranch) -> S.CommandBranch {
    (param, next) => S.CommandBranch.ReceiveType(loc, param, next)
  }

  // ---------------------------------------------------------- expressions

  /** `expression`: let, do, fork, application, construction, or an expression in braces. */
  function Expression(input: seq<Token>): (r: Res<S.Expression>)
    ensures r.Ok? ==> |r.rest| < |input|
    decreases |input|, 4
  {
    Alt(ExprLet(input), Alt(ExprDo(input), Alt(ExprFork(input), Alt(Application(input),
    Alt(var c :- Construction(input); Ok(S.Expression.Construction(input[0].loc, c.value), c.rest),
        Braced(input))))))
  }

  /** `delimited("{", expression, "}")`: no commitment, so a failure inside backtracks. */
  function Braced(input: seq<Token>): (r: Res<S.Expression>)
    ensures r.Ok? ==> |r.rest| < |input|
    ensures !Starts(input, "{") ==> r.Backtrack?
    decreases |input|, 0
  {
    var open :- Lit("{", input);
    var e :- Expression(open.rest);
    var close :- Lit("}", e.rest);
    Ok(e.value, close.rest)
  }

  /** `expr_let`: `let pattern = expression in expression`. */
  function ExprLet(input: seq<Token>): (r: Res<S.Expression>)
    ensures r.Ok? ==> |r.rest| < |input|
    ensures r.Backtrack? <==> !Starts(input, "let")
    decreases |input|, 0
  {
    var lead :- Lit("let", input);
    CutErr(
      var p :- Pattern(lead.rest);
      var eq :- Lit("=", p.rest);
      var value :- Expression(eq.rest);
      var kwIn :- Lit("in", value.rest);
      var body :- Expression(kwIn.rest);
      Ok(S.Expression.Let(input[0].loc, p.value, value.value, body.value), body.rest))
  }

  /** `expr_do`: `do { process } in expression`. */
  function ExprDo(input: seq<Token>): (r: Res<S.Expression>)
    ensures r.Ok? ==> |r.rest| < |input|
    ensures r.Backtrack? <==> !Starts(input, "do")
    decreases |input|, 0
  {
    var lead :- Lit("do", input);
    CutErr(
      var open :- Lit("{", lead.rest);
      var p :- Process(open.rest);
      var close :- Lit("}", p.rest);
      var kwIn :- Lit("in", close.rest);
      var body :- Expression(kwIn.rest);
      Ok(S.Expression.Do(input[0].loc, p.value, body.value), body.rest))
  }

  /** `expr_fork`: `chan name: annotation { process }`; the location is the channel name's. */
  function ExprFork(input: seq<Token>): (r: Res<S.Expression>)
    ensures r.Ok? ==> |r.rest| < |input|
    ensures r.Backtrack? <==> !Starts(input, "chan")
    decreases |input|, 0
  {
    var lead :- Lit("chan", input);
    CutErr(
      var channel :- ParseName(lead.rest);
      var ann :- Annotation(channel.rest);
      var open :- Lit("{", ann.rest);
      var p :- Process(open.rest);
      var close :- Lit("}", p.rest);
      Ok(S.Expression.Fork(lead.rest[0].loc, channel.value, ann.value, p.value), close.rest))
  }

  /** `construction`: the ten construct forms, `send_type` before `send` and `recv_type` before `receive`. */
  function Construction(input: seq<Token>): (r: Res<S.Construct>)
    ensures r.Ok? ==> |r.rest| < |input|
    decreases |input|, 3
  {
    Alt(ConsBegin(input), Alt(ConsLoop(input), Alt(ConsThen(input), Alt(ConsChoose(input),
    Alt(ConsEither(input), Alt(ConsBreak(input), Alt(ConsSendType(input), Alt(ConsSend(input),
    Alt(ConsRecvType(input), ConsReceive(input))))))))))
  }

  /** `cons_then`: an expression that ends the construction. */
  function ConsThen(input: seq<Token>): (r: Res<S.Construct>)
    ensures r.Ok? ==> |r.rest| < |input|
    decreases |input|, 2
  {
    var e :- Alt(ExprFork(input), Alt(ExprLet(input), Alt(ExprDo(input), Alt(Application(input), Braced(input)))));
    Ok(S.Construct.Then(input[0].loc, e.value), e.rest)
  }

  /** `cons_send`: `(e1, ..., en) construction`. */
  function ConsSend(input: seq<Token>): (r: Res<S.Construct>)
    ensures r.Ok? ==> |r.rest| < |input|
    ensures r.Backtrack? <==> !Starts(input, "(")
    decreases |input|, 0
  {
    var lead :- Lit("(", input);
    CutErr(
      var args :- List((s: seq<Token>) requires |s| < |input| => Expression(s), lead.rest);
      var close :- Lit(")", args.rest);
      var next :- Construction(close.rest);
      Ok(FoldArgs(args.value, next.value, ConsSendNode(input[0].loc)), next.rest))
  }

  /** `cons_receive`: `[p1, ..., pn] construction`. */
  function ConsReceive(input: seq<Token>): (r: Res<S.Construct>)
    ensures r.Ok? ==> |r.rest| < |input|
    ensures r.Backtrack? <==> !Starts(input, "[")
    decreases |input|, 0
  {
    var lead :- Lit("[", input);
    CutErr(
      var patterns :- List(Pattern, lead.rest);
      var close :- Lit("]", patterns.rest);
      var next :- Construction(close.rest);
      Ok(FoldArgs(patterns.value, next.value, ConsReceiveNode(input[0].loc)), next.rest))
  }

  /** `cons_choose`: `.name construction`. */
  function ConsChoose(input: seq<Token>): (r: Res<S.Construct>)
    ensures r.Ok? ==> |r.rest| < |input|
    ensures r.Backtrack? <==> !Starts(input, ".")
    decreases |input|, 0
  {
    var lead :- Lit(".", input);
    CutErr(
      var chosen :- ParseName(lead.rest);
      var next :- Construction(chosen.rest);
      Ok(S.Construct.Choose(input[0].loc, chosen.value, next.value), next.rest))
  }

  /** `cons_either`: `{ .a => e, .b(x) => e, ... }`. */
  function ConsEither(input: seq<Token>): (r: Res<S.Construct>)
    ensures r.Ok? ==> |r.rest| < |input|
    ensures r.Backtrack? <==> !Starts(input, "{")
    decreases |input|, 0
  {
    var lead :- Lit("{", input);
    CutErr(
      var branches :- RepeatLabelled((s: seq<Token>) requires |s| < |input| => ConsBranch(s), true, lead.rest);
      var close :- Lit("}", branches.rest);
      Ok(S.Construct.Either(input[0].loc, BranchMap(branches.value)), close.rest))
  }

  /** `cons_break`: `!`. */
  function ConsBreak(input: seq<Token>): (r: Res<S.Construct>)
    ensures r.Ok? <==> Starts(input, "!")
    ensures r.Ok? ==> r == Ok(S.Construct.Break(input[0].loc), input[1..])
    ensures !r.Cut?
  {
    var bang :- Lit("!", input);
    Ok(S.Construct.Break(input[0].loc), bang.rest)
  }

  /** `cons_begin`: `begin :label construction`. */
  function ConsBegin(input: seq<Token>): (r: Res<S.Construct>)
    ensures r.Ok? ==> |r.rest| < |input|
    ensures r.Backtrack? <==> !Starts(input, "begin")
    decreases |input|, 0
  {
    var lead :- Lit("begin", input);
    CutErr(
      var lbl := LoopLabel(lead.rest);
      var next :- Construction(lbl.rest);
      Ok(S.Construct.Begin(input[0].loc, lbl.value, next.value), next.rest))
  }

  /** `cons_loop`: `loop :label`. */
  function ConsLoop(input: seq<Token>): (r: Res<S.Construct>)
    ensures r.Ok? <==> Starts(input, "loop")
    ensures r.Ok? ==> r.value == S.Construct.Loop(input[0].loc, LoopLabel(input[1..]).value)
    ensures !r.Cut?
  {
    var lead :- Lit("loop", input);
    var lbl := LoopLabel(lead.rest);
    Ok(S.Construct.Loop(input[0].loc, lbl.value), lbl.rest)
  }

  /** `cons_send_type`: `(type T1, ..., Tn) construction`. */
  function ConsSendType(input: seq<Token>): (r: Res<S.Construct>)
    ensures r.Ok? ==> |r.rest| < |input|
    ensures r.Backtrack? <==> !StartsPair(input, "(", "type")
    decreases |input|, 0
  {
    var lead :- Lit("(", input);
    var lead2 :- Lit("type", lead.rest);
    CutErr(
      var types :- List(Typ, lead2.rest);
      var close :- Lit(")", types.rest);
      var next :- Construction(close.rest);
      Ok(FoldArgs(types.value, next.value, ConsSendTypeNode(input[0].loc)), next.rest))
  }

  /** `cons_recv_type`: `[type X1, ..., Xn] construction`. */
  function ConsRecvType(input: seq<Token>): (r: Res<S.Construct>)
    ensures r.Ok? ==> |r.rest| < |input|
    ensures r.Backtrack? <==> !StartsPair(input, "[", "type")
    decreases |input|, 0
  {
    var lead :- Lit("[", input);
    var lead2 :- Lit("type", lead.rest);
    CutErr(
      var names :- List(ParseName, lead2.rest);
      var close :- Lit("]", names.rest);
      var next :- Construction(close.rest);
      Ok(FoldArgs(names.value, next.value, ConsReceiveTypeNode(input[0].loc)), next.rest))
  }

  /** `cons_branch`: the payload of an either-construction branch. */
  function ConsBranch(input: seq<Token>): (r: Res<S.ConstructBranch>)
    ensures r.Ok? ==> |r.rest| < |input|
    decreases |input|, 1
  {
    Alt(ConsBranchThen(input), Alt(ConsBranchRecvType(input), ConsBranchReceive(input)))
  }

  /** `cons_branch_then`: `=> expression`. */
  function ConsBranchThen(input: seq<Token>): (r: Res<S.ConstructBranch>)
    ensures r.Ok? ==> |r.rest| < |input|
    ensures r.Backtrack? <==> !Starts(input, "=>")
    decreases |input|, 0
  {
    var lead :- Lit("=>", input);
    CutErr(
      var e :- Expression(lead.rest);
      Ok(S.ConstructBranch.Then(input[0].loc, e.value), e.rest))
  }

  /** `cons_branch_receive`: `(p1, ..., pn) branch`. */
  function ConsBranchReceive(input: seq<Token>): (r: Res<S.ConstructBranch>)
    ensures r.Ok? ==> |r.rest| < |input|
    ensures r.Backtrack? <==> !Starts(input, "(")
    decreases |input|, 0
  {
    var lead :- Lit("(", input);
    CutErr(
      var patterns :- List(Pattern, lead.rest);
      var close :- Lit(")", patterns.rest);
      var next :- ConsBranch(close.rest);
      Ok(FoldArgs(patterns.value, next.value, ConsBranchReceiveNode(input[0].loc)), next.rest))
  }

  /** `cons_branch_recv_type`: `(type X1, ..., Xn) branch`. */
  function ConsBranchRecvType(input: seq<Token>): (r: Res<S.ConstructBranch>)
    ensures r.Ok? ==> |r.rest| < |input|
    ensures r.Backtrack? <==> !StartsPair(input, "(", "type")
    decreases |input|, 0
  {
    var lead :- Lit("(", input);
    var lead2 :- Lit("type", lead.rest);
    CutErr(
      var names :- List(ParseName, lead2.rest);
      var close :- Lit(")", names.rest);
      var next :- ConsBranch(close.rest);
      Ok(FoldArgs(names.value, next.value, ConsBranchReceiveTypeNode(input[0].loc)), next.rest))
  }

  // --------------------------------------------------------- applications

  /** `application`: a reference or a braced expression, then the operations applied to it. */
  function Application(input: seq<Token>): (r: Res<S.Expression>)
    ensures r.Ok? ==> |r.rest| < |input|
    decreases |input|, 1
  {
    var target :- Alt(var n :- ParseName(input); Ok(S.Expression.Reference(input[0].loc, n.value), n.rest),
                      Braced(input));
    var a :- Apply(target.rest);
    Ok(S.Expression.Application(input[0].loc, target.value, a.value), a.rest)
  }

  /** `apply`: the operations of an application, ending in `apply_noop`. */
  function Apply(input: seq<Token>): (r: Res<S.Apply>)
    ensures r.Ok? ==> |r.rest| <= |input|
    decreases |input|, 1
  {
    Alt(ApplyBegin(input), Alt(ApplyLoop(input), Alt(ApplyChoose(input), Alt(ApplyEither(input),
    Alt(ApplySendType(input), Alt(ApplySend(input), ApplyNoop(input)))))))
  }

  /** `apply_send`: `(e1, ..., en) apply`. */
  function ApplySend(input: seq<Token>): (r: Res<S.Apply>)
    ensures r.Ok? ==> |r.rest| < |input|
    ensures r.Backtrack? <==> !Starts(input, "(")
    decreases |input|, 0
  {
    var lead :- Lit("(", input);
    CutErr(
      var args :- List((s: seq<Token>) requires |s| < |input| => Expression(s), lead.rest);
      var close :- Lit(")", args.rest);
      var next :- Apply(close.rest);
      Ok(FoldArgs(args.value, next.value, ApplySendNode(input[0].loc)), next.rest))
  }

  /** `apply_choose`: `.name apply`. */
  function ApplyChoose(input: seq<Token>): (r: Res<S.Apply>)
    ensures r.Ok? ==> |r.rest| < |input|
    ensures r.Backtrack? <==> !Starts(input, ".")
    decreases |input|, 0
  {
    var lead :- Lit(".", input);
    CutErr(
      var chosen :- ParseName(lead.rest);
      var next :- Apply(chosen.rest);
      Ok(S.Apply.Choose(input[0].loc, chosen.value, next.value), next.rest))
  }

  /** `apply_either`: `{ .a x => e, ... }`. */
  function ApplyEither(input: seq<Token>): (r: Res<S.Apply>)
    ensures r.Ok? ==> |r.rest| < |input|
    ensures r.Backtrack? <==> !Starts(input, "{")
    decreases |input|, 0
  {
    var lead :- Lit("{", input);
    CutErr(
      var branches :- RepeatLabelled((s: seq<Token>) requires |s| < |input| => ApplyBranch(s), true, lead.rest);
      var close :- Lit("}", branches.rest);
      Ok(S.Apply.Either(input[0].loc, BranchMap(branches.value)), close.rest))
  }

  /** `apply_begin`: `begin :label apply`. */
  function ApplyBegin(input: seq<Token>): (r: Res<S.Apply>)
    ensures r.Ok? ==> |r.rest| < |input|
    ensures r.Backtrack? <==> !Starts(input, "begin")
    decreases |input|, 0
  {
    var lead :- Lit("begin", input);
    CutErr(
      var lbl := LoopLabel(lead.rest);
      var next :- Apply(lbl.rest);
      Ok(S.Apply.Begin(input[0].loc, lbl.value, next.value), next.rest))
  }

  /** `apply_loop`: `loop :label`. */
  function ApplyLoop(input: seq<Token>): (r: Res<S.Apply>)
    ensures r.Ok? <==> Starts(input, "loop")
    ensures r.Ok? ==> r.value == S.Apply.Loop(input[0].loc, LoopLabel(input[1..]).value)
    ensures !r.Cut?
  {
    var lead :- Lit("loop", input);
    var lbl := LoopLabel(lead.rest);
    Ok(S.Apply.Loop(input[0].loc, lbl.value), lbl.rest)
  }

  /** `apply_send_type`: `(type T1, ..., Tn) apply`. */
  function ApplySendType(input: seq<Token>): (r: Res<S.Apply>)
    ensures r.Ok? ==> |r.rest| < |input|
    ensures r.Backtrack? <==> !StartsPair(input, "(", "type")
    decreases |input|, 0
  {
    var lead :- Lit("(", input);
    var lead2 :- Lit("type", lead.rest);
    CutErr(
      var types :- List(Typ, lead2.rest);
      var close :- Lit(")", types.rest);
      var next :- Apply(close.rest);
      Ok(FoldArgs(types.value, next.value, ApplySendTypeNode(input[0].loc)), next.rest))
  }

  /**
    `apply_noop`: `with_loc(empty)`.  It consumes nothing, but `with_loc`
    peeks at the next token for its location, so it fails at the end of the input.
  */
  function ApplyNoop(input: seq<Token>): (r: Res<S.Apply>)
    ensures r.Ok? <==> |input| > 0
    ensures r.Ok? ==> r == Ok(S.Apply.Noop(input[0].loc), input)
    ensures !r.Cut?
  {
    if |input| == 0 then Backtrack else Ok(S.Apply.Noop(input[0].loc), input)
  }

  /** `apply_branch`: the payload of an either-application branch. */
  function ApplyBranch(input: seq<Token>): (r: Res<S.ApplyBranch>)
    ensures r.Ok? ==> |r.rest| < |input|
    decreases |input|, 1
  {
    Alt(ApplyBranchThen(input), Alt(ApplyBranchRecvType(input), Alt(ApplyBranchReceive(input), ApplyBranchContinue(input))))
  }

  /** `apply_branch_then`: `name => expression`; only the arrow and expression are committed. */
  function ApplyBranchThen(input: seq<Token>): (r: Res<S.ApplyBranch>)
    ensures r.Ok? ==> |r.rest| < |input|
    ensures r.Backtrack? <==> ParseName(input).Backtrack?
    decreases |input|, 0
  {
    var n :- ParseName(input);
    CutErr(
      var arrow :- Lit("=>", n.rest);
      var e :- Expression(arrow.rest);
      Ok(S.ApplyBranch.Then(input[0].loc, n.value, e.value), e.rest))
  }

  /** `apply_branch_receive`: `(p1, ..., pn) branch`. */
  function ApplyBranchReceive(input: seq<Token>): (r: Res<S.ApplyBranch>)
    ensures r.Ok? ==> |r.rest| < |input|
    ensures r.Backtrack? <==> !Starts(input, "(")
    decreases |input|, 0
  {
    var lead :- Lit("(", input);
    CutErr(
      var patterns :- List(Pattern, lead.rest);
      var close :- Lit(")", patterns.rest);
      var next :- ApplyBranch(close.rest);
      Ok(FoldArgs(patterns.value, next.value, ApplyBranchReceiveNode(input[0].loc)), next.rest))
  }

  /** `apply_branch_continue`: `! => expression`. */
  function ApplyBranchContinue(input: seq<Token>): (r: Res<S.ApplyBranch>)
    ensures r.Ok? ==> |r.rest| < |input|
    ensures r.Backtrack? <==> !Starts(input, "!")
    decreases |input|, 0
  {
    var lead :- Lit("!", input);
    CutErr(
      var arrow :- Lit("=>", lead.rest);
      var e :- Expression(arrow.rest);
      Ok(S.ApplyBranch.Continue(input[0].loc, e.value), e.rest))
  }

  /** `apply_branch_recv_type`: `(type X1, ..., Xn) branch`. */
  function ApplyBranchRecvType(input: seq<Token>): (r: Res<S.ApplyBranch>)
    ensures r.Ok? ==> |r.rest| < |input|
    ensures r.Backtrack? <==> !StartsPair(input, "(", "type")
    decreases |input|, 0
  {
    var lead :- Lit("(", input);
    var lead2 :- Lit("type", lead.rest);
    CutErr(
      var names :- List(ParseName, lead2.rest);
      var close :- Lit(")", names.rest);
      var next :- ApplyBranch(close.rest);
      Ok(FoldArgs(names.value, next.value, ApplyBranchReceiveTypeNode(input[0].loc)), next.rest))
  }

  // ------------------------------------------------------------ processes

  /** `process`: let, pass, telltypes, a command, or nothing at all. */
  function Process(input: seq<Token>): (r: Res<S.Process>)
    ensures r.Ok? ==> |r.rest| <= |input|
    decreases |input|, 1
  {
    Alt(ProcLet(input), Alt(ProcPass(input), Alt(ProcTelltypes(input), Alt(Command(input), ProcNoop(input)))))
  }

  /** `proc_let`: `let pattern = expression process`. */
  function ProcLet(input: seq<Token>): (r: Res<S.Process>)
    ensures r.Ok? ==> |r.rest| < |input|
    ensures r.Backtrack? <==> !Starts(input, "let")
    decreases |input|, 0
  {
    var lead :- Lit("let", input);
    CutErr(
      var p :- Pattern(lead.rest);
      var eq :- Lit("=", p.rest);
      var value :- Expression(eq.rest);
      var next :- Process(value.rest);
      Ok(S.Process.Let(input[0].loc, p.value, value.value, next.value), next.rest))
  }

  /** `proc_pass`: `pass`. */
  function ProcPass(input: seq<Token>): (r: Res<S.Process>)
    ensures r.Ok? <==> Starts(input, "pass")
    ensures r.Ok? ==> r == Ok(S.Process.Pass(input[0].loc), input[1..])
    ensures !r.Cut?
  {
    var kw :- Lit("pass", input);
    Ok(S.Process.Pass(input[0].loc), kw.rest)
  }

  /** `proc_telltypes`: `telltypes process`. */
  function ProcTelltypes(input: seq<Token>): (r: Res<S.Process>)
    ensures r.Ok? ==> |r.rest| < |input|
    ensures r.Backtrack? <==> !Starts(input, "telltypes")
    decreases |input|, 0
  {
    var lead :- Lit("telltypes", input);
    CutErr(
      var next :- Process(lead.rest);
      Ok(S.Process.Telltypes(input[0].loc, next.value), next.rest))
  }

  /** `proc_noop`: `with_loc(empty)`, which fails at the end of the input like `apply_noop`. */
  function ProcNoop(input: seq<Token>): (r: Res<S.Process>)
    ensures r.Ok? <==> |input| > 0
    ensures r.Ok? ==> r == Ok(S.Process.Noop(input[0].loc), input)
    ensures !r.Cut?
  {
    if |input| == 0 then Backtrack else Ok(S.Process.Noop(input[0].loc), input)
  }

  /** `command`: a subject name and the command applied to it. */
  function Command(input: seq<Token>): (r: Res<S.Process>)
    ensures r.Ok? ==> |r.rest| < |input|
    ensures ParseName(input).Backtrack? ==> r.Backtrack?
    decreases |input|, 0
  {
    var subject :- ParseName(input);
    var c :- Cmd(subject.rest);
    Ok(S.Process.Command(subject.value, c.value), c.rest)
  }

  /** `cmd`: the twelve command forms, `cmd_then` last. */
  function Cmd(input: seq<Token>): (r: Res<S.Command>)
    ensures r.Ok? ==> |r.rest| <= |input|
    decreases |input|, 3
  {
    Alt(CmdLink(input), Alt(CmdChoose(input), Alt(CmdEither(input), Alt(CmdBreak(input),
    Alt(CmdContinue(input), Alt(CmdBegin(input), Alt(CmdLoop(input), Alt(CmdSendType(input),
    Alt(CmdSend(input), Alt(CmdRecvType(input), Alt(CmdReceive(input), CmdThen(input))))))))))))
  }

  /** `cmd_then`: the process that follows the subject. */
  function CmdThen(input: seq<Token>): (r: Res<S.Command>)
    ensures r.Ok? ==> |r.rest| <= |input|
    decreases |input|, 2
  {
    var p :- Process(input);
    Ok(S.Command.Then(p.value), p.rest)
  }

  /** `cmd_link`: `<> expression`. */
  function CmdLink(input: seq<Token>): (r: Res<S.Command>)
    ensures r.Ok? ==> |r.rest| < |input|
    ensures r.Backtrack? <==> !Starts(input, "<>")
    decreases |input|, 0
  {
    var lead :- Lit("<>", input);
    CutErr(
      var e :- Expression(lead.rest);
      Ok(S.Command.Link(input[0].loc, e.value), e.rest))
  }

  /** `cmd_send`: `(e1, ..., en) cmd`. */
  function CmdSend(input: seq<Token>): (r: Res<S.Command>)
    ensures r.Ok? ==> |r.rest| < |input|
    ensures r.Backtrack? <==> !Starts(input, "(")
    decreases |input|, 0
  {
    var lead :- Lit("(", input);
    CutErr(
      var args :- List((s: seq<Token>) requires |s| < |input| => Expression(s), lead.rest);
      var close :- Lit(")", args.rest);
      var next :- Cmd(close.rest);
      Ok(FoldArgs(args.value, next.value, CmdSendNode(input[0].loc)), next.rest))
  }

  /** `cmd_receive`: `[p1, ..., pn] cmd`. */
  function CmdReceive(input: seq<Token>): (r: Res<S.Command>)
    ensures r.Ok? ==> |r.rest| < |input|
    ensures r.Backtrack? <==> !Starts(input, "[")
    decreases |input|, 0
  {
    var lead :- Lit("[", input);
    CutErr(
      var patterns :- List(Pattern, lead.rest);
      var close :- Lit("]", patterns.rest);
      var next :- Cmd(close.rest);
      Ok(FoldArgs(patterns.value, next.value, CmdReceiveNode(input[0].loc)), next.rest))
  }

  /** `cmd_choose`: `.name cmd`. */
  function CmdChoose(input: seq<Token>): (r: Res<S.Command>)
    ensures r.Ok? ==> |r.rest| < |input|
    ensures r.Backtrack? <==> !Starts(input, ".")
    decreases |input|, 0
  {
    var lead :- Lit(".", input);
    CutErr(
      var chosen :- ParseName(lead.rest);
      var next :- Cmd(chosen.rest);
      Ok(S.Command.Choose(input[0].loc, chosen.value, next.value), next.rest))
  }

  /** `cmd_either`: `{ .a => { process }, ... }` and an optional process after it. */
  function CmdEither(input: seq<Token>): (r: Res<S.Command>)
    ensures r.Ok? ==> |r.rest| < |input|
    ensures r.Backtrack? <==> !Starts(input, "{")
    decreases |input|, 0
  {
    var lead :- Lit("{", input);
    CutErr(
      var branches :- CmdBranches(lead.rest);
      var close :- Lit("}", branches.rest);
      var pass :- Opt(PassProcess(close.rest), close.rest);
      Ok(S.Command.Either(input[0].loc, branches.value, pass.value), pass.rest))
  }

  /** `cmd_break`: `!`. */
  function CmdBreak(input: seq<Token>): (r: Res<S.Command>)
    ensures r.Ok? <==> Starts(input, "!")
    ensures r.Ok? ==> r == Ok(S.Command.Break(input[0].loc), input[1..])
    ensures !r.Cut?
  {
    var bang :- Lit("!", input);
    Ok(S.Command.Break(input[0].loc), bang.rest)
  }

  /** `cmd_continue`: `? process`, with no commitment after the `?`. */
  function CmdContinue(input: seq<Token>): (r: Res<S.Command>)
    ensures r.Ok? ==> |r.rest| < |input|
    ensures !Starts(input, "?") ==> r.Backtrack?
    decreases |input|, 0
  {
    var query :- Lit("?", input);
    var p :- Process(query.rest);
    Ok(S.Command.Continue(input[0].loc, p.value), p.rest)
  }

  /** `cmd_begin`: `begin :label cmd`. */
  function CmdBegin(input: seq<Token>): (r: Res<S.Command>)
    ensures r.Ok? ==> |r.rest| < |input|
    ensures r.Backtrack? <==> !Starts(input, "begin")
    decreases |input|, 0
  {
    var lead :- Lit("begin", input);
    CutErr(
      var lbl := LoopLabel(lead.rest);
      var next :- Cmd(lbl.rest);
      Ok(S.Command.Begin(input[0].loc, lbl.value, next.value), next.rest))
  }

  /** `cmd_loop`: `loop :label`. */
  function CmdLoop(input: seq<Token>): (r: Res<S.Command>)
    ensures r.Ok? <==> Starts(input, "loop")
    ensures r.Ok? ==> r.value == S.Command.Loop(input[0].loc, LoopLabel(input[1..]).value)
    ensures !r.Cut?
  {
    var lead :- Lit("loop", input);
    var lbl := LoopLabel(lead.rest);
    Ok(S.Command.Loop(input[0].loc, lbl.value), lbl.rest)
  }

  /** `cmd_send_type`: `(type T1, ..., Tn) cmd`. */
  function CmdSendType(input: seq<Token>): (r: Res<S.Command>)
    ensures r.Ok? ==> |r.rest| < |input|
    ensures r.Backtrack? <==> !StartsPair(input, "(", "type")
    decreases |input|, 0
  {
    var lead :- Lit("(", input);
    var lead2 :- Lit("type", lead.rest);
    CutErr(
      var types :- List(Typ, lead2.rest);
      var close :- Lit(")", types.rest);
      var next :- Cmd(close.rest);
      Ok(FoldArgs(types.value, next.value, CmdSendTypeNode(input[0].loc)), next.rest))
  }

  /** `cmd_recv_type`: `[type X1, ..., Xn] cmd`. */
  function CmdRecvType(input: seq<Token>): (r: Res<S.Command>)
    ensures r.Ok? ==> |r.rest| < |input|
    ensures r.Backtrack? <==> !StartsPair(input, "[", "type")
    decreases |input|, 0
  {
    var lead :- Lit("[", input);
    var lead2 :- Lit("type", lead.rest);
    CutErr(
      var names :- List(ParseName, lead2.rest);
      var close :- Lit("]", names.rest);
      var next :- Cmd(close.rest);
      Ok(FoldArgs(names.value, next.value, CmdReceiveTypeNode(input[0].loc)), next.rest))
  }

  /** `pass_process`: the process after an either-command; `process` without the empty alternative. */
  function PassProcess(input: seq<Token>): (r: Res<S.Process>)
    ensures r.Ok? ==> |r.rest| < |input|
    decreases |input|, 1
  {
    Alt(ProcLet(input), Alt(ProcPass(input), Alt(ProcTelltypes(input), Command(input))))
  }

  /** `cmd_branches`: `repeat(0.., (".", name, cmd_branch))` folded into a branch map (no commas). */
  function CmdBranches(input: seq<Token>): (r: Res<IndexMap<Name, S.CommandBranch>>)
    ensures r.Ok? ==> |r.rest| <= |input|
    ensures !Starts(input, ".") ==> r == Ok([], input)
    decreases |input|, 2
  {
    var elements :- RepeatLabelled((s: seq<Token>) requires |s| <= |input| => CmdBranch(s), false, input);
    Ok(BranchMap(elements.value), elements.rest)
  }

  /** `cmd_branch`: the payload of an either-command branch. */
  function CmdBranch(input: seq<Token>): (r: Res<S.CommandBranch>)
    ensures r.Ok? ==> |r.rest| < |input|
    decreases |input|, 1
  {
    Alt(CmdBranchThen(input), Alt(CmdBranchContinue(input), Alt(CmdBranchRecvType(input), CmdBranchReceive(input))))
  }

  /** `cmd_branch_then`: `=> { process }`. */
  function CmdBranchThen(input: seq<Token>): (r: Res<S.CommandBranch>)
    ensures r.Ok? ==> |r.rest| < |input|
    ensures r.Backtrack? <==> !Starts(input, "=>")
    decreases |input|, 0
  {
    var lead :- Lit("=>", input);
    CutErr(
      var open :- Lit("{", lead.rest);
      var p :- Process(open.rest);
      var close :- Lit("}", p.rest);
      Ok(S.CommandBranch.Then(p.value), close.rest))
  }

  /** `cmd_branch_receive`: `(p1, ..., pn) branch`. */
  function CmdBranchReceive(input: seq<Token>): (r: Res<S.CommandBranch>)
    ensures r.Ok? ==> |r.rest| < |input|
    ensures r.Backtrack? <==> !Starts(input, "(")
    decreases |input|, 0
  {
    var lead :- Lit("(", input);
    CutErr(
      var patterns :- List(Pattern, lead.rest);
      var close :- Lit(")", patterns.rest);
      var next :- CmdBranch(close.rest);
      Ok(FoldArgs(patterns.value, next.value, CmdBranchReceiveNode(input[0].loc)), next.rest))
  }

  /** `cmd_branch_continue`: `! => { process }`. */
  function CmdBranchContinue(input: seq<Token>): (r: Res<S.CommandBranch>)
    ensures r.Ok? ==> |r.rest| < |input|
    ensures r.Backtrack? <==> !Starts(input, "!")
    decreases |input|, 0
  {
    var lead :- Lit("!", input);
    CutErr(
      var arrow :- Lit("=>", lead.rest);
      var open :- Lit("{", arrow.rest);
      var p :- Process(open.rest);
      var close :- Lit("}", p.rest);
      Ok(S.CommandBranch.Continue(input[0].loc, p.value), close.rest))
  }

  /** `cmd_branch_recv_type`: `(type X1, ..., Xn) branch`. */
  function CmdBranchRecvType(input: seq<Token>): (r: Res<S.CommandBranch>)
    ensures r.Ok? ==> |r.rest| < |input|
    ensures r.Backtrack? <==> !StartsPair(input, "(", "type")
    decreases |input|, 0
  {
    var lead :- Lit("(", input);
    var lead2 :- Lit("type", lead.rest);
    CutErr(
      var names :- List(ParseName, lead2.rest);
      var close :- Lit(")", names.rest);
      var next :- CmdBranch(close.rest);
      Ok(FoldArgs(names.value, next.value, CmdBranchReceiveTypeNode(input[0].loc)), next.rest))
  }
}
