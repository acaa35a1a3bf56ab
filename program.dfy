/**
  The top level of src/par/parser.rs: `type_def`, `declaration` and
  `definition`, and `program`, which repeats them and folds the items into the
  three tables of a `Program` with `IndexMap::insert`.

  As written, the `alt` of `program` ends with `cut_err(fail)`, so at the end
  of the input the alternative that was meant to report an unexpected token
  cuts the `repeat` as well: `Program` fails on every input
  (`ProgramAlwaysFails`).  `ProgramToEnd` is the evidently intended parser,
  which stops at the end of the input and reports the unexpected token
  otherwise.
*/
module ProgramParser {
  import opened Wrappers
  import opened Tokens
  import opened IndexMaps
  import opened Combinators
  import opened TypeGrammar
  import opened Grammar
  import S = Syntax
  import P = ParserProperties

  /** The three alternatives of `program`'s `Either`. */
  datatype Item =
    | TypeDefItem(name: Name, params: seq<Name>, definition: S.Type)
    | DeclarationItem(name: Name, typ: S.Type)
    | DefinitionItem(name: Name, annotation: Option<S.Type>, body: S.Expression)

  /** `type_def`: `type name<params> = type`. */
  function TypeDef(input: seq<Token>): (r: Res<Item>)
    ensures r.Ok? ==> |r.rest| < |input|
    ensures r.Backtrack? <==> !Starts(input, "type")
  {
    var lead :- Lit("type", input);
    CutErr(
      var n :- ParseName(lead.rest);
      var params :- TypeParams(n.rest);
      var eq :- Lit("=", params.rest);
      var body :- Typ(eq.rest);
      Ok(TypeDefItem(n.value, params.value, body.value), body.rest))
  }

  /** `declaration`: `dec name : type`. */
  function Declaration(input: seq<Token>): (r: Res<Item>)
    ensures r.Ok? ==> |r.rest| < |input|
    ensures r.Backtrack? <==> !Starts(input, "dec")
  {
    var lead :- Lit("dec", input);
    CutErr(
      var n :- ParseName(lead.rest);
      var colon :- Lit(":", n.rest);
      var typ :- Typ(colon.rest);
      Ok(DeclarationItem(n.value, typ.value), typ.rest))
  }

  /** `definition`: `def name: annotation = expression`. */
  function Definition(input: seq<Token>): (r: Res<Item>)
    ensures r.Ok? ==> |r.rest| < |input|
    ensures r.Backtrack? <==> !Starts(input, "def")
  {
    var lead :- Lit("def", input);
    CutErr(
      var n :- ParseName(lead.rest);
      var ann :- Annotation(n.rest);
      var eq :- Lit("=", ann.rest);
      var body :- Expression(eq.rest);
      Ok(DefinitionItem(n.value, ann.value, body.value), body.rest))
  }

  /**
    The `alt` inside `program`: a type definition, a declaration, a
    definition, or else `cut_err(fail)`, so anything that does not start an
    item, the end of the input included, is a cut error.
  */
  function ProgramItem(input: seq<Token>): (r: Res<Item>)
    ensures r.Ok? ==> |r.rest| < |input|
    ensures !r.Backtrack?
    ensures !Starts(input, "type") && !Starts(input, "dec") && !Starts(input, "def") ==> r.Cut?
  {
    Alt(TypeDef(input), Alt(Declaration(input), Alt(Definition(input), Cut)))
  }

  /** `repeat(0.., item)` as written: it stops only when an item backtracks, which `ProgramItem` never does. */
  function ProgramItems(input: seq<Token>): (r: Res<seq<Item>>)
    decreases |input|
  {
    match ProgramItem(input)
    case Backtrack => Ok([], input)
    case Cut => Cut
    case Ok(item, rest) =>
      var more :- ProgramItems(rest);
      Ok([item] + more.value, more.rest)
  }

  /** `program` as written: the items folded into a `Program`, the whole input consumed. */
  function Program(input: seq<Token>): Option<S.Program>
  {
    match ParseAll(ProgramItems(input))
    case None => None
    case Some(items) => Some(Assemble(items))
  }

  /** The repetition in `program` never ends in success: the last step always meets the cut at the end of the input. */
  lemma {:induction false} ProgramItemsAlwaysCut(input: seq<Token>)
    ensures ProgramItems(input).Cut?
    decreases |input|
  {
    match ProgramItem(input)
    case Cut =>
    case Ok(item, rest) =>
      ProgramItemsAlwaysCut(rest);
  }

  /** `program` as written rejects every token sequence, the empty one included. */
  lemma ProgramAlwaysFails(input: seq<Token>)
    ensures Program(input) == None
  {
    ProgramItemsAlwaysCut(input);
  }

  /**
    The evidently intended repetition: stop with success at the end of the
    input, and keep the cut error for a token that does not start an item.
  */
  function ProgramItemsToEnd(input: seq<Token>): (r: Res<seq<Item>>)
    ensures r.Ok? ==> r.rest == []
    ensures !r.Backtrack?
    decreases |input|
  {
    if input == [] then Ok([], [])
    else
      var item :- ProgramItem(input);
      var more :- ProgramItemsToEnd(item.rest);
      Ok([item.value] + more.value, more.rest)
  }

  /** The evidently intended `program`. */
  function ProgramToEnd(input: seq<Token>): Option<S.Program>
  {
    match ParseAll(ProgramItemsToEnd(input))
    case None => None
    case Some(items) => Some(Assemble(items))
  }

  /** The tokens of consecutive items, concatenated. */
  function Concat(chunks: seq<seq<Token>>): seq<Token>
  {
    if chunks == [] then [] else chunks[0] + Concat(chunks[1..])
  }

  /** `chunk` parses as `item` whatever follows it. */
  ghost predicate ParsesAs(chunk: seq<Token>, item: Item) {
    forall s :: ProgramItem(chunk + s) == Ok(item, s)
  }

  /**
    The intended `program` accepts any sequence of items and assembles exactly
    those items, in order.
  */
  lemma {:induction false} ProgramToEndAcceptsItems(chunks: seq<seq<Token>>, items: seq<Item>)
    requires |chunks| == |items|
    requires forall i | 0 <= i < |chunks| :: ParsesAs(chunks[i], items[i])
    ensures ProgramItemsToEnd(Concat(chunks)) == Ok(items, [])
    ensures ProgramToEnd(Concat(chunks)) == Some(Assemble(items))
  {
    if chunks != [] {
      var rest := Concat(chunks[1..]);
      assert forall i | 0 <= i < |chunks[1..]| :: ParsesAs(chunks[1..][i], items[1..][i]) by {
        forall i | 0 <= i < |chunks[1..]| ensures ParsesAs(chunks[1..][i], items[1..][i]) {
          assert ParsesAs(chunks[i + 1], items[i + 1]);
        }
      }
      ProgramToEndAcceptsItems(chunks[1..], items[1..]);
      assert ParsesAs(chunks[0], items[0]);
      assert ProgramItem(chunks[0] + rest) == Ok(items[0], rest);
      ItemsToEndStep(chunks[0], rest, items[0], items[1..]);
      assert Concat(chunks) == chunks[0] + rest;
      assert [items[0]] + items[1..] == items;
    }
  }

  /** An item in front of a sequence of items that reaches the end reaches the end. */
  lemma ItemsToEndStep(chunk: seq<Token>, rest: seq<Token>, item: Item, items: seq<Item>)
    requires ProgramItem(chunk + rest) == Ok(item, rest)
    requires ProgramItemsToEnd(rest) == Ok(items, [])
    ensures ProgramItemsToEnd(chunk + rest) == Ok([item] + items, [])
  {
    var input := chunk + rest;
    assert ProgramItem(input).Ok?;
    assert ProgramItemsToEnd(input) == Ok([item] + items, []);
  }

  /** The tokens of `dec x : !`. */
  const DecBreak: seq<Token> := [
    Token(Ident, "dec", Loc(1, 1)), Token(Ident, "x", Loc(1, 5)),
    Token(Other, ":", Loc(1, 7)), Token(Other, "!", Loc(1, 9))
  ]

  /** `dec x : !` is one item, the declaration of `x` as the break type. */
  lemma DecBreakParses()
    ensures ParsesAs(DecBreak, DeclarationItem(Name("x"), S.Type.Break(Loc(1, 9))))
  {
    forall s ensures ProgramItem(DecBreak + s) == Ok(DeclarationItem(Name("x"), S.Type.Break(Loc(1, 9))), s) {
      DecBreakBefore(s);
    }
  }

  lemma DecBreakBefore(s: seq<Token>)
    ensures ProgramItem(DecBreak + s) == Ok(DeclarationItem(Name("x"), S.Type.Break(Loc(1, 9))), s)
  {
    var t := DecBreak + s;
    assert t[..4] == DecBreak && t[4..] == s;
    assert "x" !in Keywords;
    DeclarationOfBreak(t);
  }

  /** `dec name : !` followed by anything is one declaration item. */
  lemma DeclarationOfBreak(t: seq<Token>)
    requires |t| >= 4 && Starts(t, "dec") && Starts(t[2..], ":")
    requires t[1].kind == Ident && t[1].text !in Keywords
    requires t[3].kind == Other && t[3].text == "!"
    ensures ProgramItem(t) == Ok(DeclarationItem(Name(t[1].text), S.Type.Break(t[3].loc)), t[4..])
  {
    assert t[1..][1..] == t[2..] && t[2..][1..] == t[3..] && t[3..][1..] == t[4..];
    P.TypOfSymbol(t[3..]);
    assert Declaration(t) == Ok(DeclarationItem(Name(t[1].text), S.Type.Break(t[3].loc)), t[4..]);
    assert TypeDef(t).Backtrack?;
  }

  /** As written, even the one-declaration program `dec x : !` is rejected. */
  lemma ProgramRejectsDecBreak()
    ensures Program(DecBreak) == None
  {
    ProgramAlwaysFails(DecBreak);
  }

  /** The intended `program` accepts `dec x : !` with `x` declared as the break type and nothing else. */
  lemma ProgramToEndAcceptsDecBreak()
    ensures ProgramToEnd(DecBreak) == Some(S.Program([], [(Name("x"), Some(S.Type.Break(Loc(1, 9))))], []))
  {
    var item := DeclarationItem(Name("x"), S.Type.Break(Loc(1, 9)));
    DecBreakParses();
    ProgramToEndAcceptsItems([DecBreak], [item]);
    assert Concat([DecBreak]) == DecBreak;
    assert [item][..0] == [];
  }

  // ---------------------------------------------------------- assembly

  predicate Unique(p: S.Program) {
    UniqueKeys(p.typeDefs) && UniqueKeys(p.declarations) && UniqueKeys(p.definitions)
  }

  /**
    One step of the fold in `program`: a type definition goes to `typeDefs`, a
    declaration to `declarations` as `Some(type)`, and a definition writes its
    annotation (possibly `None`) to `declarations` and its body to `definitions`.
  */
  function AddItem(p: S.Program, item: Item): (q: S.Program)
    requires Unique(p)
    ensures Unique(q)
  {
    match item
    case TypeDefItem(n, params, body) =>
      InsertKeepsUnique(p.typeDefs, n, (params, body));
      p.(typeDefs := Insert(p.typeDefs, n, (params, body)))
    case DeclarationItem(n, typ) =>
      InsertKeepsUnique(p.declarations, n, Some(typ));
      p.(declarations := Insert(p.declarations, n, Some(typ)))
    case DefinitionItem(n, ann, body) =>
      InsertKeepsUnique(p.declarations, n, ann);
      InsertKeepsUnique(p.definitions, n, body);
      p.(declarations := Insert(p.declarations, n, ann), definitions := Insert(p.definitions, n, body))
  }

  /** `fold(Program::default, ...)`: the items added left to right to empty tables. */
  function Assemble(items: seq<Item>): (p: S.Program)
    ensures Unique(p)
  {
    if items == [] then S.Program([], [], [])
    else AddItem(Assemble(items[..|items| - 1]), items[|items| - 1])
  }

  /** Reference definition: the declaration of `n` made by the last item that declares or defines `n`. */
  function LastDeclared(items: seq<Item>, n: Name): Option<Option<S.Type>>
  {
    if items == [] then None
    else match items[|items| - 1]
      case DeclarationItem(m, typ) => if m == n then Some(Some(typ)) else LastDeclared(items[..|items| - 1], n)
      case DefinitionItem(m, ann, _) => if m == n then Some(ann) else LastDeclared(items[..|items| - 1], n)
      case TypeDefItem(_, _, _) => LastDeclared(items[..|items| - 1], n)
  }

  /** Reference definition: the body of the last definition of `n`. */
  function LastDefined(items: seq<Item>, n: Name): Option<S.Expression>
  {
    if items == [] then None
    else match items[|items| - 1]
      case DefinitionItem(m, _, body) => if m == n then Some(body) else LastDefined(items[..|items| - 1], n)
      case _ => LastDefined(items[..|items| - 1], n)
  }

  /** Reference definition: the parameters and body of the last type definition of `n`. */
  function LastTypeDef(items: seq<Item>, n: Name): Option<(seq<Name>, S.Type)>
  {
    if items == [] then None
    else match items[|items| - 1]
      case TypeDefItem(m, params, body) => if m == n then Some((params, body)) else LastTypeDef(items[..|items| - 1], n)
      case _ => LastTypeDef(items[..|items| - 1], n)
  }

  /**
    What the assembled tables hold: for every name, the entry of the last item
    that wrote it; in particular a definition without annotation replaces an
    earlier declaration of the same name with `None`.
  */
  lemma {:induction false} AssembleLastWins(items: seq<Item>, n: Name)
    ensures Get(Assemble(items).declarations, n) == LastDeclared(items, n)
    ensures Get(Assemble(items).definitions, n) == LastDefined(items, n)
    ensures Get(Assemble(items).typeDefs, n) == LastTypeDef(items, n)
  {
    if items != [] {
      var front := items[..|items| - 1];
      AssembleLastWins(front, n);
      AddItemGet(Assemble(front), items[|items| - 1], n);
    }
  }

  /** What one step of the fold does to the entries under `n`. */
  lemma AddItemGet(p: S.Program, item: Item, n: Name)
    requires Unique(p)
    ensures Get(AddItem(p, item).declarations, n) == match item
      case DeclarationItem(m, typ) => if m == n then Some(Some(typ)) else Get(p.declarations, n)
      case DefinitionItem(m, ann, _) => if m == n then Some(ann) else Get(p.declarations, n)
      case TypeDefItem(_, _, _) => Get(p.declarations, n)
    ensures Get(AddItem(p, item).definitions, n) == match item
      case DefinitionItem(m, _, body) => if m == n then Some(body) else Get(p.definitions, n)
      case _ => Get(p.definitions, n)
    ensures Get(AddItem(p, item).typeDefs, n) == match item
      case TypeDefItem(m, params, body) => if m == n then Some((params, body)) else Get(p.typeDefs, n)
      case _ => Get(p.typeDefs, n)
  {
  }
}
