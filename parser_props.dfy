/**
  Properties of the surface-syntax parser: what `list` accepts and rejects
  (with the cases of the parser's own `test_list` and `test_loop_label`),
  that the multi-argument sugar nests exactly one node per argument, first
  argument outermost, how branch maps treat repeated labels, and how
  `commit_after` stops an `alt` from trying later alternatives.
*/
module ParserProperties {
  import opened Wrappers
  import opened Tokens
  import opened IndexMaps
  import opened Combinators
  import opened TypeGrammar
  import opened Grammar
  import S = Syntax

  // ------------------------------------------------------------------ list

  /** The tokens `c1 , c2 , ... , cn` for the comma token `comma`. */
  function Joined(chunks: seq<seq<Token>>, comma: Token): seq<Token>
    requires |chunks| >= 1
  {
    chunks[0] + PrefixedBy(chunks[1..], comma)
  }

  /** The tokens `, c1 , c2 ... , cn`. */
  function PrefixedBy(chunks: seq<seq<Token>>, comma: Token): seq<Token>
  {
    if chunks == [] then [] else [comma] + chunks[0] + PrefixedBy(chunks[1..], comma)
  }

  /** A parser that never lengthens its input, on every input. */
  ghost predicate Consuming<T>(item: seq<Token> -> Res<T>) {
    forall s :: item(s).Ok? ==> |item(s).rest| <= |s|
  }

  /** Each chunk parses as its value whatever follows it. */
  ghost predicate ItemsParse<T>(item: seq<Token> -> Res<T>, chunks: seq<seq<Token>>, values: seq<T>) {
    |chunks| == |values| && forall i, s | 0 <= i < |chunks| :: item(chunks[i] + s) == Ok(values[i], s)
  }

  lemma {:induction false} SeparatedMoreJoined<T>(item: seq<Token> -> Res<T>, acc: seq<T>, chunks: seq<seq<Token>>,
                                                  values: seq<T>, comma: Token, after: seq<Token>, bound: nat)
    requires Consuming(item) && ItemsParse(item, chunks, values) && comma.text == ","
    requires |PrefixedBy(chunks, comma) + after| <= bound
    ensures SeparatedMore(item, acc, PrefixedBy(chunks, comma) + after, bound)
         == SeparatedMore(item, acc + values, after, bound)
    decreases |chunks|
  {
    if chunks == [] {
      assert PrefixedBy(chunks, comma) + after == after;
      assert values == [];
      assert acc + values == acc;
    } else {
      var rest := PrefixedBy(chunks[1..], comma) + after;
      assert PrefixedBy(chunks, comma) + after == [comma] + (chunks[0] + rest);
      assert ([comma] + (chunks[0] + rest))[1..] == chunks[0] + rest;
      assert item(chunks[0] + rest) == Ok(values[0], rest);
      assert ItemsParse(item, chunks[1..], values[1..]) by {
        forall i, s | 0 <= i < |chunks[1..]| ensures item(chunks[1..][i] + s) == Ok(values[1..][i], s) {
          assert item(chunks[i + 1] + s) == Ok(values[i + 1], s);
        }
      }
      SeparatedMoreJoined(item, acc + [values[0]], chunks[1..], values[1..], comma, after, bound);
      assert acc + [values[0]] + values[1..] == acc + values;
    }
  }

  /**
    `list` accepts one or more comma-separated items and at most one trailing
    comma: it returns the items in order and leaves what follows.
  */
  lemma ListAcceptsJoined<T>(item: seq<Token> -> Res<T>, chunks: seq<seq<Token>>, values: seq<T>,
                             comma: Token, trailing: bool, tail: seq<Token>)
    requires Consuming(item) && ItemsParse(item, chunks, values) && |chunks| >= 1 && comma.text == ","
    requires !trailing ==> !Starts(tail, ",")
    requires trailing ==> item(tail).Backtrack?
    ensures List(item, Joined(chunks, comma) + (if trailing then [comma] else []) + tail) == Ok(values, tail)
  {
    var after := (if trailing then [comma] else []) + tail;
    var input := Joined(chunks, comma) + after;
    assert Joined(chunks, comma) + (if trailing then [comma] else []) + tail == input;
    var more := PrefixedBy(chunks[1..], comma) + after;
    assert input == chunks[0] + more;
    assert item(chunks[0] + more) == Ok(values[0], more);
    assert ItemsParse(item, chunks[1..], values[1..]) by {
      forall i, s | 0 <= i < |chunks[1..]| ensures item(chunks[1..][i] + s) == Ok(values[1..][i], s) {
        assert item(chunks[i + 1] + s) == Ok(values[i + 1], s);
      }
    }
    SeparatedMoreJoined(item, [values[0]], chunks[1..], values[1..], comma, after, |input|);
    assert [values[0]] + values[1..] == values;
    if trailing {
      assert after[1..] == tail;
      assert SeparatedMore(item, values, after, |input|) == Ok(values, after);
    } else {
      assert after == tail;
      assert SeparatedMore(item, values, after, |input|) == Ok(values, tail);
    }
  }

  /**
    A second trailing comma is left over: `list` stops before it, so a parse
    that must consume the whole input fails.
  */
  lemma ListLeavesSecondTrailingComma<T>(item: seq<Token> -> Res<T>, chunks: seq<seq<Token>>, values: seq<T>,
                                         comma: Token)
    requires Consuming(item) && ItemsParse(item, chunks, values) && |chunks| >= 1 && comma.text == ","
    requires item([comma]).Backtrack?
    ensures List(item, Joined(chunks, comma) + [comma, comma]) == Ok(values, [comma])
    ensures ParseAll(List(item, Joined(chunks, comma) + [comma, comma])) == None
  {
    ListAcceptsJoined(item, chunks, values, comma, true, [comma]);
    assert Joined(chunks, comma) + [comma] + [comma] == Joined(chunks, comma) + [comma, comma];
  }

  // The cases of `test_list`, with `ab` a single token.

  const Ab := Token(Ident, "ab", Loc(1, 1))
  const Comma := Token(Other, ",", Loc(1, 3))

  function AbItem(s: seq<Token>): Res<string> { Lit("ab", s) }

  /** Single-token chunks parse as their one token, whatever follows. */
  lemma SingleTokenChunks<T>(item: seq<Token> -> Res<T>, chunks: seq<seq<Token>>, values: seq<T>)
    requires |chunks| == |values|
    requires forall i | 0 <= i < |chunks| :: |chunks[i]| == 1 && forall s :: item([chunks[i][0]] + s) == Ok(values[i], s)
    ensures ItemsParse(item, chunks, values)
  {
    forall i, s | 0 <= i < |chunks| ensures item(chunks[i] + s) == Ok(values[i], s) {
      assert chunks[i] == [chunks[i][0]];
    }
  }

  lemma AbParses(s: seq<Token>)
    ensures AbItem([Ab] + s) == Ok("ab", s)
  {
    assert ([Ab] + s)[1..] == s;
  }

  lemma JoinedThree(x: Token, y: Token, z: Token, comma: Token)
    ensures Joined([[x], [y], [z]], comma) == [x, comma, y, comma, z]
  {
    var chunks := [[x], [y], [z]];
    assert chunks[1..][1..][1..] == [];
    assert PrefixedBy(chunks[1..][1..], comma) == [comma, z];
    assert PrefixedBy(chunks[1..], comma) == [comma, y, comma, z];
  }

  /** `ab`, `ab,ab,ab` and `ab,ab,ab,` give the list of their items. */
  lemma TestListAccepts()
    ensures ParseAll(List(AbItem, [Ab])) == Some(["ab"])
    ensures ParseAll(List(AbItem, [Ab, Comma, Ab, Comma, Ab])) == Some(["ab", "ab", "ab"])
    ensures ParseAll(List(AbItem, [Ab, Comma, Ab, Comma, Ab, Comma])) == Some(["ab", "ab", "ab"])
  {
    forall s { AbParses(s); }
    SingleTokenChunks(AbItem, [[Ab]], ["ab"]);
    SingleTokenChunks(AbItem, [[Ab], [Ab], [Ab]], ["ab", "ab", "ab"]);
    ListAcceptsJoined(AbItem, [[Ab]], ["ab"], Comma, false, []);
    assert Joined([[Ab]], Comma) == [Ab];
    ListAcceptsJoined(AbItem, [[Ab], [Ab], [Ab]], ["ab", "ab", "ab"], Comma, false, []);
    ListAcceptsJoined(AbItem, [[Ab], [Ab], [Ab]], ["ab", "ab", "ab"], Comma, true, []);
    JoinedThree(Ab, Ab, Ab, Comma);
    assert [Ab, Comma, Ab, Comma, Ab] + [] + [] == [Ab, Comma, Ab, Comma, Ab];
    assert [Ab, Comma, Ab, Comma, Ab] + [Comma] + [] == [Ab, Comma, Ab, Comma, Ab, Comma];
  }

  /** `ab,ab,ab,,` and `ba` are rejected. */
  lemma TestListRejects()
    ensures ParseAll(List(AbItem, [Ab, Comma, Ab, Comma, Ab, Comma, Comma])) == None
    ensures ParseAll(List(AbItem, [Token(Ident, "ba", Loc(1, 1))])) == None
  {
    forall s { AbParses(s); }
    SingleTokenChunks(AbItem, [[Ab], [Ab], [Ab]], ["ab", "ab", "ab"]);
    ListLeavesSecondTrailingComma(AbItem, [[Ab], [Ab], [Ab]], ["ab", "ab", "ab"], Comma);
    JoinedThree(Ab, Ab, Ab, Comma);
    assert [Ab, Comma, Ab, Comma, Ab] + [Comma, Comma] == [Ab, Comma, Ab, Comma, Ab, Comma, Comma];
  }

  lemma NameParses(t: Token, s: seq<Token>)
    requires t.kind == Ident && t.text !in Keywords
    ensures ParseName([t] + s) == Ok(Name(t.text), s)
  {
    assert ([t] + s)[1..] == s;
  }

  /** `list(name)` on `ab_12,asd, asdf3` (the parser never looks at locations, so one stands for all). */
  lemma TestListNames(loc: Loc)
    ensures ParseAll(List(ParseName, [Token(Ident, "ab_12", loc), Token(Other, ",", loc), Token(Ident, "asd", loc),
                                     Token(Other, ",", loc), Token(Ident, "asdf3", loc)]))
         == Some([Name("ab_12"), Name("asd"), Name("asdf3")])
  {
    assert "ab_12" !in Keywords && "asd" !in Keywords && "asdf3" !in Keywords;
    ListOfThreeNames(Token(Ident, "ab_12", loc), Token(Ident, "asd", loc), Token(Ident, "asdf3", loc), Token(Other, ",", loc));
  }

  /** Three names separated by commas are the list of those three names. */
  lemma ListOfThreeNames(x: Token, y: Token, z: Token, comma: Token)
    requires x.kind == Ident && y.kind == Ident && z.kind == Ident
    requires x.text !in Keywords && y.text !in Keywords && z.text !in Keywords
    requires comma.text == ","
    ensures ParseAll(List(ParseName, [x, comma, y, comma, z])) == Some([Name(x.text), Name(y.text), Name(z.text)])
  {
    var names := [Name(x.text), Name(y.text), Name(z.text)];
    forall s ensures ParseName([x] + s) == Ok(Name(x.text), s) { NameParses(x, s); }
    forall s ensures ParseName([y] + s) == Ok(Name(y.text), s) { NameParses(y, s); }
    forall s ensures ParseName([z] + s) == Ok(Name(z.text), s) { NameParses(z, s); }
    SingleTokenChunks(ParseName, [[x], [y], [z]], names);
    ListAcceptsJoined(ParseName, [[x], [y], [z]], names, comma, false, []);
    JoinedThree(x, y, z, comma);
    assert [x, comma, y, comma, z] + [] + [] == [x, comma, y, comma, z];
  }

  /** `test_loop_label`: `:one` is the label `one`, and the whole input is consumed. */
  lemma TestLoopLabel()
    ensures ParseAll(LoopLabel([Token(Other, ":", Loc(1, 1)), Token(Ident, "one", Loc(1, 2))])) == Some(Some(Name("one")))
  {
    assert "one" !in Keywords;
  }

  // ----------------------------------------------------- multi-argument sugar

  /**
    Folding `n` arguments with a node that `peel` takes apart again nests
    exactly `n` nodes, the first argument outermost and `k` innermost.
  */
  lemma {:induction false} FoldArgsPeels<A, N>(args: seq<A>, k: N, node: (A, N) -> N, peel: N -> Option<(A, N)>)
    requires forall a, n :: peel(node(a, n)) == Some((a, n))
    ensures PeelArgs(|args|, FoldArgs(args, k, node), peel) == Some((args, k))
  {
    if args != [] {
      FoldArgsPeels(args[1..], k, node, peel);
      assert [args[0]] + args[1..] == args;
    }
  }

  function PeelPatternReceive(p: S.Pattern): Option<(S.Pattern, S.Pattern)> {
    if p.Receive? then Some((p.first, p.rest)) else None
  }

  function PeelConsSend(c: S.Construct): Option<(S.Expression, S.Construct)> {
    if c.Send? then Some((c.argument, c.next)) else None
  }

  function PeelCmdSend(c: S.Command): Option<(S.Expression, S.Command)> {
    if c.Send? then Some((c.argument, c.next)) else None
  }

  function PeelTypReceive(t: S.Type): Option<(S.Type, S.Type)> {
    if t.Receive? then Some((t.first, t.second)) else None
  }

  /** `(p1, ..., pn) rest` as a pattern is `n` receive patterns around `rest`, `p1` outermost. */
  lemma PatternReceiveSugar(loc: Loc, args: seq<S.Pattern>, rest: S.Pattern)
    ensures PeelArgs(|args|, FoldArgs(args, rest, PatternReceiveNode(loc)), PeelPatternReceive) == Some((args, rest))
  {
    FoldArgsPeels(args, rest, PatternReceiveNode(loc), PeelPatternReceive);
  }

  /** `(e1, ..., en) construction` is `n` send constructs around the construction, `e1` outermost. */
  lemma ConsSendSugar(loc: Loc, args: seq<S.Expression>, next: S.Construct)
    ensures PeelArgs(|args|, FoldArgs(args, next, ConsSendNode(loc)), PeelConsSend) == Some((args, next))
  {
    FoldArgsPeels(args, next, ConsSendNode(loc), PeelConsSend);
  }

  /** `(e1, ..., en) cmd` is `n` send commands around the command, `e1` outermost. */
  lemma CmdSendSugar(loc: Loc, args: seq<S.Expression>, next: S.Command)
    ensures PeelArgs(|args|, FoldArgs(args, next, CmdSendNode(loc)), PeelCmdSend) == Some((args, next))
  {
    FoldArgsPeels(args, next, CmdSendNode(loc), PeelCmdSend);
  }

  /** `(A1, ..., An) branch` in a choice type is `n` receive types around the branch, `A1` outermost. */
  lemma TypBranchReceiveSugar(loc: Loc, args: seq<S.Type>, next: S.Type)
    ensures PeelArgs(|args|, FoldArgs(args, next, TypBranchReceiveNode(loc)), PeelTypReceive) == Some((args, next))
  {
    FoldArgsPeels(args, next, TypBranchReceiveNode(loc), PeelTypReceive);
  }

  /**
    `pattern_receive` returns the fold of what `list` yields around the pattern
    after `)`, and that parse reads back as exactly those patterns.
  */
  lemma PatternReceiveOfParts(input: seq<Token>, items: seq<S.Pattern>, mid: seq<Token>, rest: S.Pattern, after: seq<Token>)
    requires Starts(input, "(")
    requires List((s: seq<Token>) requires |s| < |input| => Pattern(s), input[1..]) == Ok(items, mid)
    requires Starts(mid, ")") && Pattern(mid[1..]) == Ok(rest, after)
    ensures PatternReceive(input) == Ok(FoldArgs(items, rest, PatternReceiveNode(input[0].loc)), after)
    ensures PeelArgs(|items|, PatternReceive(input).value, PeelPatternReceive) == Some((items, rest))
  {
    PatternReceiveSugar(input[0].loc, items, rest);
  }

  /** The same for `cons_send`: its parse reads back as exactly the listed arguments around the construction. */
  lemma ConsSendOfParts(input: seq<Token>, args: seq<S.Expression>, mid: seq<Token>, next: S.Construct, after: seq<Token>)
    requires Starts(input, "(")
    requires List((s: seq<Token>) requires |s| < |input| => Expression(s), input[1..]) == Ok(args, mid)
    requires Starts(mid, ")") && Construction(mid[1..]) == Ok(next, after)
    ensures ConsSend(input) == Ok(FoldArgs(args, next, ConsSendNode(input[0].loc)), after)
    ensures PeelArgs(|args|, ConsSend(input).value, PeelConsSend) == Some((args, next))
  {
    ConsSendSugar(input[0].loc, args, next);
  }

  /** The same for `cmd_send`: its parse reads back as exactly the listed arguments around the command. */
  lemma CmdSendOfParts(input: seq<Token>, args: seq<S.Expression>, mid: seq<Token>, next: S.Command, after: seq<Token>)
    requires Starts(input, "(")
    requires List((s: seq<Token>) requires |s| < |input| => Expression(s), input[1..]) == Ok(args, mid)
    requires Starts(mid, ")") && Cmd(mid[1..]) == Ok(next, after)
    ensures CmdSend(input) == Ok(FoldArgs(args, next, CmdSendNode(input[0].loc)), after)
    ensures PeelArgs(|args|, CmdSend(input).value, PeelCmdSend) == Some((args, next))
  {
    CmdSendSugar(input[0].loc, args, next);
  }

  /** The same for `typ_branch_receive`: its parse reads back as exactly the listed types around the branch. */
  lemma TypBranchReceiveOfParts(input: seq<Token>, args: seq<S.Type>, mid: seq<Token>, next: S.Type, after: seq<Token>)
    requires Starts(input, "(")
    requires List((s: seq<Token>) requires |s| < |input| => Typ(s), input[1..]) == Ok(args, mid)
    requires Starts(mid, ")") && TypBranch(mid[1..]) == Ok(next, after)
    ensures TypBranchReceive(input) == Ok(FoldArgs(args, next, TypBranchReceiveNode(input[0].loc)), after)
    ensures PeelArgs(|args|, TypBranchReceive(input).value, PeelTypReceive) == Some((args, next))
  {
    TypBranchReceiveSugar(input[0].loc, args, next);
  }

  // ------------------------------------------------ the send and receive types

  function PeelTypSend(t: S.Type): Option<(S.Type, S.Type)> {
    if t.Send? then Some((t.first, t.second)) else None
  }

  /** What `typ_send` builds as written: the arguments go to the second slot and the continuation to the first. */
  function PeelTypSendAsWritten(t: S.Type): Option<(S.Type, S.Type)> {
    if t.Send? then Some((t.second, t.first)) else None
  }

  /** What `typ_receive` builds as written, with the same slots as `typ_send`. */
  function PeelTypReceiveAsWritten(t: S.Type): Option<(S.Type, S.Type)> {
    if t.Receive? then Some((t.second, t.first)) else None
  }

  /**
    `typ_send` as written nests one send node per argument, first argument
    outermost, but with each argument in the second slot and the rest of the
    type in the first.
  */
  lemma TypSendAsWritten(loc: Loc, args: seq<S.Type>, next: S.Type)
    ensures PeelArgs(|args|, FoldArgs(args, next, TypSendNode(loc)), PeelTypSendAsWritten) == Some((args, next))
  {
    FoldArgsPeels(args, next, TypSendNode(loc), PeelTypSendAsWritten);
  }

  /** `typ_receive` as written, likewise. */
  lemma TypReceiveAsWritten(loc: Loc, args: seq<S.Type>, next: S.Type)
    ensures PeelArgs(|args|, FoldArgs(args, next, TypReceiveNode(loc)), PeelTypReceiveAsWritten) == Some((args, next))
  {
    FoldArgsPeels(args, next, TypReceiveNode(loc), PeelTypReceiveAsWritten);
  }

  /**
    The slots are swapped on real input: `(!) ?` parses as a send whose first
    component is `?` and whose continuation is `!`, where `typ_branch_receive`
    and every other sugar put the argument first.
  */
  lemma TypSendSwapsSlots(l1: Loc, l2: Loc, l3: Loc, l4: Loc)
    ensures TypSend([Token(Other, "(", l1), Token(Other, "!", l2), Token(Other, ")", l3), Token(Other, "?", l4)])
         == Ok(S.Type.Send(l1, S.Type.Continue(l4), S.Type.Break(l2)), [])
  {
    TypSendOfSymbols([Token(Other, "(", l1), Token(Other, "!", l2), Token(Other, ")", l3), Token(Other, "?", l4)]);
  }

  /** The tokens `( ! ) ?`, whatever their locations. */
  lemma TypSendOfSymbols(input: seq<Token>)
    requires |input| == 4 && input[1].kind == Other && input[3].kind == Other
    requires input[0].text == "(" && input[1].text == "!" && input[2].text == ")" && input[3].text == "?"
    ensures TypSend(input) == Ok(S.Type.Send(input[0].loc, S.Type.Continue(input[3].loc), S.Type.Break(input[1].loc)), [])
  {
    TypOfSymbol(input[1..]);
    TypOfSymbol(input[3..]);
    ListOfOne((s: seq<Token>) requires |s| < |input| => Typ(s), input[1..], S.Type.Break(input[1].loc), input[2..]);
    TypSendOfParts(input, [S.Type.Break(input[1].loc)], input[2..], S.Type.Continue(input[3].loc), []);
  }

  /** `typ_send` assembled from its parts: the arguments, the closing parenthesis and the type after it. */
  lemma TypSendOfParts(input: seq<Token>, args: seq<S.Type>, mid: seq<Token>, body: S.Type, rest: seq<Token>)
    requires Starts(input, "(")
    requires List((s: seq<Token>) requires |s| < |input| => Typ(s), input[1..]) == Ok(args, mid)
    requires Starts(mid, ")") && Typ(mid[1..]) == Ok(body, rest)
    ensures TypSend(input) == Ok(FoldArgs(args, body, TypSendNode(input[0].loc)), rest)
  {
  }

  /** One item followed by neither a comma nor anything the comma loop takes is a list of one. */
  lemma ListOfOne<T>(item: Parser<T>, input: seq<Token>, x: T, rest: seq<Token>)
    requires Shrinks(item, |input|) && item(input) == Ok(x, rest) && !Starts(rest, ",")
    ensures List(item, input) == Ok([x], rest)
  {
  }

  /** A symbol token `!` or `?` is the break or continue type, whatever follows. */
  lemma TypOfSymbol(input: seq<Token>)
    requires |input| > 0 && input[0].kind == Other
    ensures input[0].text == "!" ==> Typ(input) == Ok(S.Type.Break(input[0].loc), input[1..])
    ensures input[0].text == "?" ==> Typ(input) == Ok(S.Type.Continue(input[0].loc), input[1..])
  {
    assert TypName(input).Backtrack?;
  }

  /** The evidently intended node of `typ_send`: the argument first, the rest of the type second. */
  function TypSendIntendedNode(loc: Loc): (S.Type, S.Type) -> S.Type {
    (arg, next) => S.Type.Send(loc, arg, next)
  }

  /** The evidently intended node of `typ_receive`. */
  function TypReceiveIntendedNode(loc: Loc): (S.Type, S.Type) -> S.Type {
    (arg, next) => S.Type.Receive(loc, arg, next)
  }

  /** With the intended node, `(A1, ..., An) B` is `n` sends with `Ai` first in each and `B` innermost. */
  lemma TypSendIntendedSugar(loc: Loc, args: seq<S.Type>, next: S.Type)
    ensures PeelArgs(|args|, FoldArgs(args, next, TypSendIntendedNode(loc)), PeelTypSend) == Some((args, next))
  {
    FoldArgsPeels(args, next, TypSendIntendedNode(loc), PeelTypSend);
  }

  /** With the intended node, `[A1, ..., An] B` is `n` receives with `Ai` first in each and `B` innermost. */
  lemma TypReceiveIntendedSugar(loc: Loc, args: seq<S.Type>, next: S.Type)
    ensures PeelArgs(|args|, FoldArgs(args, next, TypReceiveIntendedNode(loc)), PeelTypReceive) == Some((args, next))
  {
    FoldArgsPeels(args, next, TypReceiveIntendedNode(loc), PeelTypReceive);
  }

  // ---------------------------------------------------------- branch maps

  /** A repeated label keeps the position of its first occurrence and takes the payload of its last. */
  lemma BranchMapRepeatedLabel<T>(a: Name, b: Name, x: T, y: T, z: T)
    requires a != b
    ensures BranchMap([(a, x), (b, y), (a, z)]) == [(a, z), (b, y)]
  {
    var elements := [(a, x), (b, y), (a, z)];
    var m := BranchMap(elements);
    assert Keys(elements) == [a, b, a];
    RepeatedFirstOccurrences(a, b);
    LastValueOfThree(elements, a, z);
    LastValueOfThree(elements, b, y);
    TwoEntries(m, a, b);
  }

  /** The labels `a, b, a` in order of first occurrence are `a, b`. */
  lemma RepeatedFirstOccurrences(a: Name, b: Name)
    requires a != b
    ensures FirstOccurrences([], [a, b, a]) == [a, b]
  {
    assert [a, b, a][1..] == [b, a] && [b, a][1..] == [a] && [a][1..] == [];
    assert a in [a, b] && b !in [a] && a !in [];
    assert [] + [a] == [a] && [a] + [b] == [a, b];
    assert FirstOccurrences([a, b], [a]) == FirstOccurrences([a, b], []) == [a, b];
    assert FirstOccurrences([a], [b, a]) == FirstOccurrences([a] + [b], [a]);
    assert FirstOccurrences([], [a, b, a]) == FirstOccurrences([] + [a], [b, a]);
  }

  lemma LastValueOfThree<T>(elements: seq<(Name, T)>, k: Name, v: T)
    requires |elements| == 3
    requires (elements[2].0 == k && elements[2].1 == v) || (elements[2].0 != k && elements[1] == (k, v))
    ensures LastValue(elements, k) == Some(v)
  {
    if elements[2].0 != k {
      assert elements[..2][1] == elements[1];
    }
  }

  /** A map with the keys `a, b` is determined by what `Get` returns for them. */
  lemma TwoEntries<T>(m: IndexMap<Name, T>, a: Name, b: Name)
    requires a != b && Keys(m) == [a, b]
    ensures m == [(a, Get(m, a).value), (b, Get(m, b).value)]
  {
    assert m[0].0 == a && m[1].0 == b;
    assert m[1..][0] == m[1];
    assert m == [m[0], m[1]];
  }

  // ------------------------------------------------------------ commitment

  /**
    After `chan`, `typ` is decided: `typ_name` cannot take the keyword, and
    whatever `typ_chan` returns, a cut error included, is the result.
  */
  lemma TypCommitsAfterChan(input: seq<Token>)
    requires Starts(input, "chan")
    ensures Typ(input) == TypChan(input)
    ensures !Typ(input).Backtrack?
  {
    assert "chan" in Keywords;
  }

  /** After `let`, `expression` is decided by `expr_let`, a cut error included. */
  lemma ExpressionCommitsAfterLet(input: seq<Token>)
    requires Starts(input, "let")
    ensures Expression(input) == ExprLet(input)
    ensures !Expression(input).Backtrack?
  {
  }

  /** After `chan`, `expression` is decided by `expr_fork`: `do` and `let` do not start it. */
  lemma ExpressionCommitsAfterChan(input: seq<Token>)
    requires Starts(input, "chan")
    ensures Expression(input) == ExprFork(input)
  {
  }

  /**
    Without `<`, `type_args` and `type_params` are empty and consume nothing,
    so a bare name is a type with no arguments.
  */
  lemma TypNameWithoutArgs(input: seq<Token>)
    requires |input| >= 1 && input[0].kind == Ident && input[0].text !in Keywords
    requires !Starts(input[1..], "<")
    ensures TypName(input) == Ok(S.Type.Name(input[0].loc, Name(input[0].text), []), input[1..])
  {
  }
}
