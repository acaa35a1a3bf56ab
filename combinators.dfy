/**
  The parsing vocabulary of the surface-syntax parser (src/par/parser.rs):
  the outcome of a parser, the winnow combinators the grammar is written
  with (`alt`, `opt`, `cut_err`, `separated`, `repeat`, `Parser::parse`),
  the parser's own `commit_after`, `keyword`, `name`, `list` and
  `loop_label`, and the right fold that turns `(a1, ..., an) k` into nested
  nodes.  A parser is a function from the remaining tokens to an outcome; the
  in-place cursor of the source becomes the returned rest of the input.
*/
module Combinators {
  import opened Wrappers
  import opened Tokens
  import opened IndexMaps

  /**
    The outcome of a parser: success with a value and the input left over; a
    recoverable failure (`Backtrack`: an enclosing `alt` or `opt` resets the
    input and carries on); or a committed failure (`Cut`: every enclosing
    combinator passes it on).
  */
  datatype Res<+T> = Ok(value: T, rest: seq<Token>) | Backtrack | Cut {
    predicate IsFailure() { !Ok? }
    function PropagateFailure<U>(): Res<U> requires !Ok? { if Backtrack? then Backtrack else Cut }
    function Extract(): Res<T> requires Ok? { this }
  }

  type Parser<T> = seq<Token> --> Res<T>

  /** `p` may be applied to every input of at most `bound` tokens and never returns a longer rest. */
  ghost predicate Shrinks<T>(p: Parser<T>, bound: nat) {
    forall s: seq<Token> | |s| <= bound :: p.requires(s) && (p(s).Ok? ==> |p(s).rest| <= |s|)
  }

  predicate Starts(input: seq<Token>, text: string) {
    |input| > 0 && input[0].text == text
  }

  /** The input begins with two tokens whose texts are `first` and `second`. */
  predicate StartsPair(input: seq<Token>, first: string, second: string) {
    |input| >= 2 && input[0].text == first && input[1].text == second
  }

  /** A string literal used as a parser: one token whose text is exactly `text`. */
  function Lit(text: string, input: seq<Token>): (r: Res<string>)
    ensures r.Ok? <==> Starts(input, text)
    ensures r.Ok? ==> r.value == text && r.rest == input[1..]
    ensures !r.Cut?
  {
    if Starts(input, text) then Ok(text, input[1..]) else Backtrack
  }

  /** `alt((first, second))`: the second alternative is consulted only when the first backtracks. */
  function Alt<T>(first: Res<T>, second: Res<T>): (r: Res<T>)
    ensures first.Backtrack? ==> r == second
    ensures !first.Backtrack? ==> r == first
  {
    if first.Backtrack? then second else first
  }

  /**
    `cut_err`: a recoverable failure becomes a committed one.  The parser's
    `commit_after(lead, p)` is `lead` followed by `cut_err(p)`; every
    production below writes it out that way, so once the leading tokens have
    matched, no failure of the rest lets an enclosing `alt` try another
    alternative.
  */
  function CutErr<T>(r: Res<T>): (c: Res<T>)
    ensures !c.Backtrack?
    ensures r.Ok? ==> c == r
    ensures !r.Ok? ==> c.Cut?
  {
    if r.Backtrack? then Cut else r
  }

  /** `opt`: a recoverable failure yields `None` without consuming anything. */
  function Opt<T>(r: Res<T>, input: seq<Token>): (o: Res<Option<T>>)
    ensures r.Ok? ==> o == Ok(Some(r.value), r.rest)
    ensures r.Backtrack? ==> o == Ok(None, input)
    ensures r.Cut? ==> o.Cut?
  {
    match r
    case Ok(v, rest) => Ok(Some(v), rest)
    case Backtrack => Ok(None, input)
    case Cut => Cut
  }

  /** `Parser::parse`: the parser must succeed and consume the whole input. */
  function ParseAll<T>(r: Res<T>): (o: Option<T>)
    ensures o.Some? <==> r.Ok? && r.rest == []
  {
    if r.Ok? && r.rest == [] then Some(r.value) else None
  }

  const Keywords: seq<string> := [
    "type", "dec", "def", "chan", "let", "do", "in", "pass",
    "begin", "loop", "telltypes", "either", "recursive", "iterative", "self"
  ]

  /** `alt` over the literals `options`, tried in order. */
  function FirstLit(options: seq<string>, input: seq<Token>): (r: Res<string>)
    ensures r.Ok? <==> |input| > 0 && input[0].text in options
    ensures r.Ok? ==> r.value == input[0].text && r.rest == input[1..]
    ensures !r.Cut?
  {
    if options == [] then Backtrack else Alt(Lit(options[0], input), FirstLit(options[1..], input))
  }

  /** `keyword`: one of the fifteen reserved words. */
  function Keyword(input: seq<Token>): (r: Res<string>)
    ensures r.Ok? <==> |input| > 0 && input[0].text in Keywords
  {
    FirstLit(Keywords, input)
  }

  /**
    `name`: an identifier token that is not a keyword
    (`preceded(not(keyword()), TokenKind::Ident)`).
  */
  function ParseName(input: seq<Token>): (r: Res<Name>)
    ensures r.Ok? <==> |input| > 0 && input[0].kind == Ident && input[0].text !in Keywords
    ensures r.Ok? ==> r.value == Name(input[0].text) && r.rest == input[1..]
    ensures !r.Cut?
  {
    if Keyword(input).Ok? then Backtrack
    else if |input| > 0 && input[0].kind == Ident then Ok(Name(input[0].text), input[1..])
    else Backtrack
  }

  /** `loop_label`: `opt(preceded(":", name))`. */
  function LoopLabel(input: seq<Token>): (r: Res<Option<Name>>)
    ensures r.Ok?
    ensures r.value.Some? <==> Starts(input, ":") && ParseName(input[1..]).Ok?
    ensures r.value.Some? ==> r.value.value == ParseName(input[1..]).value && r.rest == input[2..]
    ensures r.value.None? ==> r.rest == input
  {
    Opt(var colon :- Lit(":", input); ParseName(colon.rest), input)
  }

  /**
    `list(item)`: `terminated(separated(1.., item, ","), opt(","))`, one or
    more items separated by commas, then at most one trailing comma.
  */
  function List<T>(item: Parser<T>, input: seq<Token>): (r: Res<seq<T>>)
    requires Shrinks(item, |input|)
    ensures r.Ok? ==> |r.value| >= 1 && |r.rest| <= |input|
    ensures item(input).Backtrack? ==> r.Backtrack?
  {
    var first :- item(input);
    var items :- SeparatedMore(item, [first.value], first.rest, |input|);
    if Starts(items.rest, ",") then Ok(items.value, items.rest[1..]) else items
  }

  /**
    The loop of `separated`: a comma followed by an item adds the item; when
    either backtracks, the input is reset to before the comma and the items
    so far are the result.
  */
  function SeparatedMore<T>(item: Parser<T>, acc: seq<T>, input: seq<Token>, ghost bound: nat): (r: Res<seq<T>>)
    requires |input| <= bound && Shrinks(item, bound)
    ensures r.Ok? ==> |r.rest| <= |input| && |r.value| >= |acc| && r.value[..|acc|] == acc
    decreases |input|
  {
    if !Starts(input, ",") then Ok(acc, input)
    else match item(input[1..])
      case Ok(x, rest) => SeparatedMore(item, acc + [x], rest, bound)
      case Backtrack => Ok(acc, input)
      case Cut => Cut
  }

  /**
    One element of a branch map, `(".", name, item, opt(","))` (the comma
    only where the grammar allows one): a label and its payload.
  */
  function Labelled<T>(item: Parser<T>, comma: bool, input: seq<Token>): (r: Res<(Name, T)>)
    requires Shrinks(item, |input|)
    ensures r.Ok? ==> |r.rest| < |input|
    ensures !Starts(input, ".") ==> r.Backtrack?
  {
    var dot :- Lit(".", input);
    var tag :- ParseName(dot.rest);
    var payload :- item(tag.rest);
    var rest := if comma && Starts(payload.rest, ",") then payload.rest[1..] else payload.rest;
    Ok((tag.value, payload.value), rest)
  }

  /**
    `repeat(0.., element)`: the labelled elements in source order, up to the
    first one that backtracks (the input is reset to its start).  The grammar
    folds them into a branch map with `IndexMap::insert`.
  */
  function RepeatLabelled<T>(item: Parser<T>, comma: bool, input: seq<Token>): (r: Res<seq<(Name, T)>>)
    requires Shrinks(item, |input|)
    ensures r.Ok? ==> |r.rest| <= |input|
    ensures !Starts(input, ".") ==> r == Ok([], input)
    decreases |input|
  {
    match Labelled(item, comma, input)
    case Backtrack => Ok([], input)
    case Cut => Cut
    case Ok(element, rest) =>
      var more :- RepeatLabelled(item, comma, rest);
      Ok([element] + more.value, more.rest)
  }

  /**
    The `fold(IndexMap::new, insert)` that turns the labelled elements into a
    branch map: the labels in order of first occurrence, no label twice, and
    under each label the payload of its last occurrence.
  */
  function BranchMap<T>(elements: seq<(Name, T)>): (m: IndexMap<Name, T>)
    ensures UniqueKeys(m)
    ensures Keys(m) == FirstOccurrences([], Keys(elements))
    ensures forall k :: Get(m, k) == LastValue(elements, k)
  {
    InsertAllSpec([], elements);
    InsertAll([], elements)
  }

  /**
    The multi-argument sugar: `for a in args.into_iter().rev() { k = node(a, k) }`,
    so that `args[0]` ends up outermost and `k` innermost.
  */
  function FoldArgs<A, N>(args: seq<A>, k: N, node: (A, N) -> N): N
  {
    if args == [] then k else node(args[0], FoldArgs(args[1..], k, node))
  }

  /**
    The inverse of `FoldArgs` for a node shape that `peel` recognises: takes
    `n` nodes off the top and returns their arguments and what is left.
  */
  function PeelArgs<A, N>(n: nat, t: N, peel: N -> Option<(A, N)>): Option<(seq<A>, N)>
  {
    if n == 0 then Some(([], t))
    else match peel(t)
      case None => None
      case Some((a, inner)) =>
        match PeelArgs(n - 1, inner, peel)
        case None => None
        case Some((more, k)) => Some(([a] + more, k))
  }
}
