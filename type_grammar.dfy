/**
  The productions of src/par/parser.rs that parse types, type parameters and
  arguments, annotations and patterns.  Every production is a function from
  the remaining tokens to a `Res`; the recursive ones decrease the length of
  the input, and an `alt` that calls its alternatives on the same input
  decreases a rank.  `with_loc` becomes the location of the first token.
*/
module TypeGrammar {
  import opened Wrappers
  import opened Tokens
  import opened IndexMaps
  import opened Combinators
  import S = Syntax

  /** The node of `typ_send` as written: the fold closure `|arg, then|` receives the accumulator first. */
  function TypSendNode(loc: Loc): (S.Type, S.Type) -> S.Type {
    (arg, acc) => S.Type.Send(loc, acc, arg)
  }

  /** The node of `typ_receive` as written, with the same closure shape as `typ_send`. */
  function TypReceiveNode(loc: Loc): (S.Type, S.Type) -> S.Type {
    (arg, acc) => S.Type.Receive(loc, acc, arg)
  }

  /** The node of `typ_branch_receive`, whose closure is `|acc, arg|`. */
  function TypBranchReceiveNode(loc: Loc): (S.Type, S.Type) -> S.Type {
    (arg, acc) => S.Type.Receive(loc, arg, acc)
  }

  function SendTypeNode(loc: Loc): (Name, S.Type) -> S.Type {
    (param, body) => S.Type.SendType(loc, param, body)
  }

  function ReceiveTypeNode(loc: Loc): (Name, S.Type) -> S.Type {
    (param, body) => S.Type.ReceiveType(loc, param, body)
  }

  function PatternReceiveNode(loc: Loc): (S.Pattern, S.Pattern) -> S.Pattern {
    (first, rest) => S.Pattern.Receive(loc, first, rest)
  }

  function PatternReceiveTypeNode(loc: Loc): (Name, S.Pattern) -> S.Pattern {
    (param, rest) => S.Pattern.ReceiveType(loc, param, rest)
  }

  // ---------------------------------------------------------------- types

  /** `typ`: the thirteen type forms, `send_type` before `send` and `recv_type` before `receive`. */
  function Typ(input: seq<Token>): (r: Res<S.Type>)
    ensures r.Ok? ==> |r.rest| < |input|
    decreases |input|, 1
  {
    Alt(TypName(input), Alt(TypChan(input), Alt(TypEither(input), Alt(TypChoice(input),
    Alt(TypBreak(input), Alt(TypContinue(input), Alt(TypRecursive(input), Alt(TypIterative(input),
    Alt(TypSelf(input), Alt(TypSendType(input), Alt(TypSend(input), Alt(TypRecvType(input),
    TypReceive(input)))))))))))))
  }

  /** `typ_name`: a name and its optional type arguments. */
  function TypName(input: seq<Token>): (r: Res<S.Type>)
    ensures r.Ok? ==> |r.rest| < |input|
    ensures ParseName(input).Backtrack? ==> r.Backtrack?
    decreases |input|, 0
  {
    var n :- ParseName(input);
    var args :- TypeArgs(n.rest);
    Ok(S.Type.Name(input[0].loc, n.value, args.value), args.rest)
  }

  /** `type_args`: `opt(delimited("<", list(typ), ">"))`, the empty list when absent. */
  function TypeArgs(input: seq<Token>): (r: Res<seq<S.Type>>)
    ensures r.Ok? ==> |r.rest| <= |input|
    ensures !Starts(input, "<") ==> r == Ok([], input)
    decreases |input|, 0
  {
    var args :- Opt(
      var open :- Lit("<", input);
      var items :- List((s: seq<Token>) requires |s| < |input| => Typ(s), open.rest);
      var close :- Lit(">", items.rest);
      Ok(items.value, close.rest), input);
    Ok(if args.value.Some? then args.value.value else [], args.rest)
  }

  /** `typ_chan`: `chan T`. */
  function TypChan(input: seq<Token>): (r: Res<S.Type>)
    ensures r.Ok? ==> |r.rest| < |input|
    ensures r.Backtrack? <==> !Starts(input, "chan")
    decreases |input|, 0
  {
    var lead :- Lit("chan", input);
    CutErr(
      var body :- Typ(lead.rest);
      Ok(S.Type.Chan(input[0].loc, body.value), body.rest))
  }

  /** `typ_send`: `(A1, ..., An) B`, folded with the closure as written. */
  function TypSend(input: seq<Token>): (r: Res<S.Type>)
    ensures r.Ok? ==> |r.rest| < |input|
    ensures r.Backtrack? <==> !Starts(input, "(")
    decreases |input|, 0
  {
    var lead :- Lit("(", input);
    CutErr(
      var args :- List((s: seq<Token>) requires |s| < |input| => Typ(s), lead.rest);
      var close :- Lit(")", args.rest);
      var body :- Typ(close.rest);
      Ok(FoldArgs(args.value, body.value, TypSendNode(input[0].loc)), body.rest))
  }

  /** `typ_receive`: `[A1, ..., An] B`, folded with the closure as written. */
  function TypReceive(input: seq<Token>): (r: Res<S.Type>)
    ensures r.Ok? ==> |r.rest| < |input|
    ensures r.Backtrack? <==> !Starts(input, "[")
    decreases |input|, 0
  {
    var lead :- Lit("[", input);
    CutErr(
      var args :- List((s: seq<Token>) requires |s| < |input| => Typ(s), lead.rest);
      var close :- Lit("]", args.rest);
      var body :- Typ(close.rest);
      Ok(FoldArgs(args.value, body.value, TypReceiveNode(input[0].loc)), body.rest))
  }

  /** `typ_either`: `either { .a A, .b B, ... }`. */
  function TypEither(input: seq<Token>): (r: Res<S.Type>)
    ensures r.Ok? ==> |r.rest| < |input|
    ensures r.Backtrack? <==> !Starts(input, "either")
    decreases |input|, 0
  {
    var lead :- Lit("either", input);
    CutErr(
      var open :- Lit("{", lead.rest);
      var branches :- RepeatLabelled((s: seq<Token>) requires |s| < |input| => Typ(s), true, open.rest);
      var close :- Lit("}", branches.rest);
      Ok(S.Type.Either(input[0].loc, BranchMap(branches.value)), close.rest))
  }

  /** `typ_choice`: `{ .a => A, .b(X) => B, ... }`. */
  function TypChoice(input: seq<Token>): (r: Res<S.Type>)
    ensures r.Ok? ==> |r.rest| < |input|
    ensures r.Backtrack? <==> !Starts(input, "{")
    decreases |input|, 0
  {
    var lead :- Lit("{", input);
    CutErr(
      var branches :- RepeatLabelled((s: seq<Token>) requires |s| < |input| => TypBranch(s), true, lead.rest);
      var close :- Lit("}", branches.rest);
      Ok(S.Type.Choice(input[0].loc, BranchMap(branches.value)), close.rest))
  }

  /** `typ_break`: `!`. */
  function TypBreak(input: seq<Token>): (r: Res<S.Type>)
    ensures r.Ok? <==> Starts(input, "!")
    ensures r.Ok? ==> r == Ok(S.Type.Break(input[0].loc), input[1..])
    ensures !r.Cut?
  {
    var bang :- Lit("!", input);
    Ok(S.Type.Break(input[0].loc), bang.rest)
  }

  /** `typ_continue`: `?`. */
  function TypContinue(input: seq<Token>): (r: Res<S.Type>)
    ensures r.Ok? <==> Starts(input, "?")
    ensures r.Ok? ==> r == Ok(S.Type.Continue(input[0].loc), input[1..])
    ensures !r.Cut?
  {
    var query :- Lit("?", input);
    Ok(S.Type.Continue(input[0].loc), query.rest)
  }

  /** `typ_recursive`: `recursive :label T`. */
  function TypRecursive(input: seq<Token>): (r: Res<S.Type>)
    ensures r.Ok? ==> |r.rest| < |input|
    ensures r.Backtrack? <==> !Starts(input, "recursive")
    decreases |input|, 0
  {
    var lead :- Lit("recursive", input);
    CutErr(
      var lbl := LoopLabel(lead.rest);
      var body :- Typ(lbl.rest);
      Ok(S.Type.Recursive(input[0].loc, lbl.value, body.value), body.rest))
  }

  /** `typ_iterative`: `iterative :label T`. */
  function TypIterative(input: seq<Token>): (r: Res<S.Type>)
    ensures r.Ok? ==> |r.rest| < |input|
    ensures r.Backtrack? <==> !Starts(input, "iterative")
    decreases |input|, 0
  {
    var lead :- Lit("iterative", input);
    CutErr(
      var lbl := LoopLabel(lead.rest);
      var body :- Typ(lbl.rest);
      Ok(S.Type.Iterative(input[0].loc, lbl.value, body.value), body.rest))
  }

  /** `typ_self`: `self :label`. */
  function TypSelf(input: seq<Token>): (r: Res<S.Type>)
    ensures r.Ok? <==> Starts(input, "self")
    ensures r.Ok? ==> r.value == S.Type.Self(input[0].loc, LoopLabel(input[1..]).value)
    ensures !r.Backtrack? ==> r.Ok?
  {
    var lead :- Lit("self", input);
    CutErr(
      var lbl := LoopLabel(lead.rest);
      Ok(S.Type.Self(input[0].loc, lbl.value), lbl.rest))
  }

  /** `typ_send_type`: `(type X1, ..., Xn) T`. */
  function TypSendType(input: seq<Token>): (r: Res<S.Type>)
    ensures r.Ok? ==> |r.rest| < |input|
    ensures r.Backtrack? <==> !StartsPair(input, "(", "type")
    decreases |input|, 0
  {
    var lead :- Lit("(", input);
    var lead2 :- Lit("type", lead.rest);
    CutErr(
      var names :- List(ParseName, lead2.rest);
      var close :- Lit(")", names.rest);
      var body :- Typ(close.rest);
      Ok(FoldArgs(names.value, body.value, SendTypeNode(input[0].loc)), body.rest))
  }

  /** `typ_recv_type`: `[type X1, ..., Xn] T`. */
  function TypRecvType(input: seq<Token>): (r: Res<S.Type>)
    ensures r.Ok? ==> |r.rest| < |input|
    ensures r.Backtrack? <==> !StartsPair(input, "[", "type")
    decreases |input|, 0
  {
    var lead :- Lit("[", input);
    var lead2 :- Lit("type", lead.rest);
    CutErr(
      var names :- List(ParseName, lead2.rest);
      var close :- Lit("]", names.rest);
      var body :- Typ(close.rest);
      Ok(FoldArgs(names.value, body.value, ReceiveTypeNode(input[0].loc)), body.rest))
  }

  /** `type_params`: `opt(delimited("<", list(name), ">"))`, the empty list when absent. */
  function TypeParams(input: seq<Token>): (r: Res<seq<Name>>)
    ensures r.Ok? ==> |r.rest| <= |input|
    ensures !Starts(input, "<") ==> r == Ok([], input)
  {
    var params :- Opt(
      var open :- Lit("<", input);
      var names :- List(ParseName, open.rest);
      var close :- Lit(">", names.rest);
      Ok(names.value, close.rest), input);
    Ok(if params.value.Some? then params.value.value else [], params.rest)
  }

  /** `typ_branch`: the payload of a choice branch, `recv_type` before `receive`. */
  function TypBranch(input: seq<Token>): (r: Res<S.Type>)
    ensures r.Ok? ==> |r.rest| < |input|
    decreases |input|, 1
  {
    Alt(TypBranchThen(input), Alt(TypBranchRecvType(input), TypBranchReceive(input)))
  }

  /** `typ_branch_then`: `=> T`. */
  function TypBranchThen(input: seq<Token>): (r: Res<S.Type>)
    ensures r.Ok? ==> |r.rest| < |input|
    ensures r.Backtrack? <==> !Starts(input, "=>")
    decreases |input|, 0
  {
    var lead :- Lit("=>", input);
    CutErr(Typ(lead.rest))
  }

  /** `typ_branch_receive`: `(A1, ..., An) branch`, folded with the closure `|acc, arg|`. */
  function TypBranchReceive(input: seq<Token>): (r: Res<S.Type>)
    ensures r.Ok? ==> |r.rest| < |input|
    ensures r.Backtrack? <==> !Starts(input, "(")
    decreases |input|, 0
  {
    var lead :- Lit("(", input);
    CutErr(
      var args :- List((s: seq<Token>) requires |s| < |input| => Typ(s), lead.rest);
      var close :- Lit(")", args.rest);
      var body :- TypBranch(close.rest);
      Ok(FoldArgs(args.value, body.value, TypBranchReceiveNode(input[0].loc)), body.rest))
  }

  /** `typ_branch_recv_type`: `(type X1, ..., Xn) branch`, written as `preceded` and `cut_err`, which is `commit_after` spelled out. */
  function TypBranchRecvType(input: seq<Token>): (r: Res<S.Type>)
    ensures r.Ok? ==> |r.rest| < |input|
    ensures r.Backtrack? <==> !StartsPair(input, "(", "type")
    decreases |input|, 0
  {
    var lead :- Lit("(", input);
    var lead2 :- Lit("type", lead.rest);
    CutErr(
      var names :- List(ParseName, lead2.rest);
      var close :- Lit(")", names.rest);
      var body :- TypBranch(close.rest);
      Ok(FoldArgs(names.value, body.value, ReceiveTypeNode(input[0].loc)), body.rest))
  }

  /** `annotation`: `opt(commit_after(":", typ))`. */
  function Annotation(input: seq<Token>): (r: Res<Option<S.Type>>)
    ensures r.Ok? ==> |r.rest| <= |input|
    ensures !Starts(input, ":") ==> r == Ok(None, input)
    ensures Starts(input, ":") ==> !(r.Ok? && r.value.None?)
  {
    Opt(var lead :- Lit(":", input); CutErr(Typ(lead.rest)), input)
  }

  // ------------------------------------------------------------- patterns

  /** `pattern`: a name, a type receive, a receive or `!`. */
  function Pattern(input: seq<Token>): (r: Res<S.Pattern>)
    ensures r.Ok? ==> |r.rest| < |input|
    decreases |input|, 1
  {
    Alt(PatternName(input), Alt(PatternReceiveType(input), Alt(PatternReceive(input), PatternContinue(input))))
  }

  /** `pattern_name`: a name with an optional annotation. */
  function PatternName(input: seq<Token>): (r: Res<S.Pattern>)
    ensures r.Ok? ==> |r.rest| < |input|
    ensures ParseName(input).Backtrack? ==> r.Backtrack?
    decreases |input|, 0
  {
    var n :- ParseName(input);
    var ann :- Annotation(n.rest);
    Ok(S.Pattern.Name(input[0].loc, n.value, ann.value), ann.rest)
  }

  /** `pattern_receive`: `(p1, ..., pn) rest`. */
  function PatternReceive(input: seq<Token>): (r: Res<S.Pattern>)
    ensures r.Ok? ==> |r.rest| < |input|
    ensures r.Backtrack? <==> !Starts(input, "(")
    decreases |input|, 0
  {
    var lead :- Lit("(", input);
    CutErr(
      var items :- List((s: seq<Token>) requires |s| < |input| => Pattern(s), lead.rest);
      var close :- Lit(")", items.rest);
      var rest :- Pattern(close.rest);
      Ok(FoldArgs(items.value, rest.value, PatternReceiveNode(input[0].loc)), rest.rest))
  }

  /** `pattern_continue`: `!`. */
  function PatternContinue(input: seq<Token>): (r: Res<S.Pattern>)
    ensures r.Ok? <==> Starts(input, "!")
    ensures r.Ok? ==> r == Ok(S.Pattern.Continue(input[0].loc), input[1..])
    ensures !r.Cut?
  {
    var bang :- Lit("!", input);
    Ok(S.Pattern.Continue(input[0].loc), bang.rest)
  }

  /** `pattern_receive_type`: `(type X1, ..., Xn) rest`. */
  function PatternReceiveType(input: seq<Token>): (r: Res<S.Pattern>)
    ensures r.Ok? ==> |r.rest| < |input|
    ensures r.Backtrack? <==> !StartsPair(input, "(", "type")
    decreases |input|, 0
  {
    var lead :- Lit("(", input);
    var lead2 :- Lit("type", lead.rest);
    CutErr(
      var names :- List(ParseName, lead2.rest);
      var close :- Lit(")", names.rest);
      var rest :- Pattern(close.rest);
      Ok(FoldArgs(names.value, rest.value, PatternReceiveTypeNode(input[0].loc)), rest.rest))
  }
}
