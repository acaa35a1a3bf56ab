# Par surface parser, tree walker and compiler environment in Dafny

This project models three sequential parts of the Par language implementation
and proves properties of them.

- **The surface parser** (`src/par/parser.rs`). This is a winnow recursive-descent
  grammar over the lexer's tokens.
  - Every production is a function from a token sequence to
    `Res<T> = Ok(value, rest) | Backtrack | Cut`. These stand for success,
    winnow's recoverable `ErrMode::Backtrack` and its `ErrMode::Cut`.
  - `commit_after` is written out in each production as a literal followed by
    `CutErr`. Once the leading token(s) match, a failure of the rest becomes a
    cut. (modules `Tokens`, `Syntax`, `Combinators`, `TypeGrammar`, `Grammar`,
    `ProgramParser`, `ParserProperties`)
- **The pest tree walker** (`src/parse.rs`).
  - The pest `Pair` is a datatype carrying a rule, text, line, column and
    children.
  - `parse_expression` and `parse_process` are methods that thread the
    mutable `free` list.
  - Each method is proved equal to a recursive specification function.
  - Properties are proved about those functions:
    - what a walk adds to the free list and what it removes;
    - the capture list of a fork;
    - rejection of a repeated top-level name.
  - `Name` equality and ordering compare only the text.
  - (modules `Base`, `PestWalker`, `WalkerProperties`)
- **The interaction-combinator compiler's environment and tree builders**
  (`src/icombs/compiler.rs`).
  - `multiplex_trees`, `choice_instance` and `either_instance` are modelled
    over a `Tree` datatype.
  - The `Compiler` class has:
    - a wire counter and a log of `link` calls, standing for the net;
    - the `IndexMap` of variables with their `Linear`/`Replicable`/`Boxed` kinds.
  - Its methods are proved against a specification of the whole state, so the
    linear discipline is stated per method: `bind_variable`, `use_variable`,
    `instantiate_variable`, the two halves of `with_captures`,
    `create_typed_wire` and the identity cases of `cast`.
  - (module `Icombs`)

`IndexMaps` models `indexmap::IndexMap`, which all three parts use, as a
sequence of entries in insertion order. It covers `get`, `insert` and
`swap_remove`.

Behaviour of the source that the proofs make visible:
- **A fork can capture its own channel.** A case whose branches both close the
  fork's channel pushes the channel name once per branch. The fork removes only
  one occurrence, so the other ends up in the capture list
  (`WalkerProperties.ForkOfTwoBreaksCapturesItsChannel`).
- **A binder can remove a sibling's name.** A binder removes the first
  occurrence of its name anywhere in the shared free list, including a name
  pushed by an earlier sibling term (`PestWalker.Unbind`).
- **`def x = y` fails at the very end of the input.** `apply_noop` and
  `proc_noop` go through `with_loc`, which peeks one token, so they fail when
  no token is left (`Grammar.ApplyNoop`).
- **A later `def` without annotation erases a `dec`.** In `program`, such a
  `def` overwrites an earlier `dec` of the same name with `None`
  (`ProgramParser.AssembleLastWins`).

## Model

The specification functions `PestWalker.ExprSpec`, `PestWalker.ProcSpec`,
`PestWalker.BranchesSpec`, `PestWalker.ProgramSpec`, `Icombs.UseSpec`,
`Icombs.CaptureSpec` and `Icombs.ChoiceTree` are what the methods
`PestWalker.ParseExpression`, `PestWalker.ParseProcess`,
`PestWalker.ParseBranches`, `PestWalker.ParseProgram`,
`Icombs.Compiler.UseVariable`, `Icombs.Compiler.EnterCaptures` and
`Icombs.Compiler.ChoiceInstance` are proved equal to; those methods' rows
and the lemma rows about them describe them. Definitions without a contract
of their own (`Icombs.Multiplex`, `ProgramParser.Program`, ...) have a row
naming the lemmas that state their properties.

| member | source | states |
|---|---|---|
| Combinators.Lit | src/par/parser.rs:198-205 | a literal such as `","` succeeds exactly when the first token has that text, consumes that one token and never cuts |
| Combinators.Alt | src/par/parser.rs:207-230 | `alt` tries the second parser only when the first backtracks; an `Ok` or a cut of the first is the result |
| Combinators.CutErr | src/par/parser.rs:28-44 | `cut_err` never backtracks: success passes through, every failure becomes a cut |
| Combinators.Opt | src/par/parser.rs:420-422 | `opt` gives `Some` on success, `None` without consuming input on backtrack, and propagates a cut |
| Combinators.ParseAll | src/par/parser.rs:1009-1034 | parsing a whole input succeeds exactly when the parser succeeds with no input left |
| Combinators.FirstLit | src/par/parser.rs:57-79 | an `alt` of literals succeeds exactly when the first token's text is one of them, consuming one token |
| Combinators.Keyword | src/par/parser.rs:57-79 | `keyword` succeeds exactly when the first token is one of the 15 reserved words |
| Combinators.ParseName | src/par/parser.rs:112-125 | `name` succeeds exactly on an identifier token that is not a reserved word, yielding its text and consuming it; it never cuts |
| Combinators.LoopLabel | src/par/parser.rs:998-1000 | `loop_label` always succeeds; it is `Some(n)` exactly when `:` and a name follow (consuming both) and otherwise `None` with the input untouched |
| Combinators.List | src/par/parser.rs:198-205 | `list` yields at least one item, never a longer rest, and backtracks when the first item backtracks |
| Combinators.SeparatedMore | src/par/parser.rs:198-205 | the `separated` loop after the first item keeps what was accumulated as a prefix of its result |
| Combinators.Labelled | src/par/parser.rs:941-952 | one `.label branch` element backtracks without a leading `.` and consumes input on success |
| Combinators.RepeatLabelled | src/par/parser.rs:941-952 | `repeat(0.., .label branch)` is the empty list, input untouched, when no `.` follows |
| Combinators.BranchMap | src/par/parser.rs:269-304 | folding branches with `IndexMap::insert` gives unique labels in first-occurrence order, and under each label the payload of its last occurrence |
| ProgramParser.TypeDef | src/par/parser.rs:177-181 | `type_def` backtracks exactly when the input does not start with `type`; after `type` it succeeds or cuts |
| ProgramParser.Declaration | src/par/parser.rs:183-188 | `declaration` backtracks exactly when the input does not start with `dec` |
| ProgramParser.Definition | src/par/parser.rs:190-196 | `definition` backtracks exactly when the input does not start with `def` |
| ProgramParser.ProgramItem | src/par/parser.rs:139-157 | the item `alt` never backtracks: any input not starting with `type`, `dec` or `def` is a cut error |
| ProgramParser.ProgramItems | src/par/parser.rs:139-158 | `repeat(0.., item)` as written; `ProgramItemsAlwaysCut` states that it ends in a cut on every input |
| ProgramParser.Program | src/par/parser.rs:127-175 | `program` as written; `ProgramAlwaysFails` states that it fails on every input, `ProgramRejectsDecBreak` on `dec x : !` |
| ProgramParser.ProgramItemsAlwaysCut | src/par/parser.rs:139-158 | as written, `repeat(0.., item)` ends in a cut on every input, the end of input included |
| ProgramParser.ProgramAlwaysFails | src/par/parser.rs:127-175 | as written, `program` returns an error on every input |
| ProgramParser.ProgramRejectsDecBreak | src/par/parser.rs:127-175 | as written, `program` rejects the one-item program `dec x : !` |
| ProgramParser.ProgramItemsToEnd | src/par/parser.rs:139-158 | the corrected item loop, which stops at the end of input, either cuts or consumes the whole input |
| ProgramParser.ProgramToEnd | src/par/parser.rs:127-175 | the corrected `program`, whose repetition stops at the end of input; `ProgramToEndAcceptsItems` states that it reads any sequence of items |
| ProgramParser.ProgramToEndAcceptsItems | src/par/parser.rs:127-175 | the corrected `program` accepts any concatenation of items and assembles exactly those items, in order |
| ProgramParser.DecBreakParses | src/par/parser.rs:183-188 | `dec x : !` is one item, the declaration of `x` as the break type |
| ProgramParser.DeclarationOfBreak | src/par/parser.rs:183-188 | `dec <name> : !` followed by anything is one declaration item of the break type |
| ProgramParser.ItemsToEndStep | src/par/parser.rs:139-157 | one more item in front of items read to the end is read to the end first |
| ProgramParser.ProgramToEndAcceptsDecBreak | src/par/parser.rs:127-175 | the corrected `program` turns `dec x : !` into a program with that one declaration |
| ProgramParser.AddItem | src/par/parser.rs:159-173 | one step of the fold keeps the three tables free of repeated keys |
| ProgramParser.Assemble | src/par/parser.rs:159-173 | the fold over all items keeps the three tables free of repeated keys |
| ProgramParser.AssembleLastWins | src/par/parser.rs:159-173 | under each name every table holds what the last item for that name wrote; a `def` writes its annotation (possibly `None`) to the declarations |
| ParserProperties.SeparatedMoreJoined | src/par/parser.rs:198-205 | the separated loop over `, item` chunks yields exactly the chunks' values, in order |
| ParserProperties.ListAcceptsJoined | src/par/parser.rs:198-205 | `list` accepts one or more comma-separated items with or without one trailing comma, and yields exactly their values |
| ParserProperties.ListLeavesSecondTrailingComma | src/par/parser.rs:198-205 | with two trailing commas `list` stops before the second comma, so parsing the whole input fails |
| ParserProperties.TestListAccepts | src/par/parser.rs:1009-1013 | the accepted inputs of the `test_list` unit test give the listed values |
| ParserProperties.TestListRejects | src/par/parser.rs:1014-1015 | the rejected inputs of `test_list` (double trailing comma, non-matching first item) fail |
| ParserProperties.NameParses | src/par/parser.rs:112-125 | a non-keyword identifier parses as the name with that text |
| ParserProperties.TestListNames | src/par/parser.rs:1016-1034 | a comma list of names parses to those names |
| ParserProperties.ListOfThreeNames | src/par/parser.rs:1016-1034 | three non-keyword names separated by commas parse, consuming everything, to those three names in order |
| ParserProperties.ListOfOne | src/par/parser.rs:198-205 | one item not followed by a comma is a list of one |
| ParserProperties.TestLoopLabel | src/par/parser.rs:1036-1048 | `: one` parses to the label `one` |
| Combinators.FoldArgs | src/par/parser.rs:441-450 | the right fold of the `(a1, ..., an) k` sugar, `a1` outermost; `FoldArgsPeels` states that it is undone into exactly its arguments and continuation |
| ParserProperties.FoldArgsPeels | src/par/parser.rs:441-450 | the right fold of `n` arguments onto a continuation can be taken apart again into exactly those arguments and that continuation |
| ParserProperties.PatternReceiveSugar | src/par/parser.rs:441-450 | `(p1, ..., pn) rest` is `n` nested receive patterns, `p1` outermost and `rest` innermost |
| ParserProperties.ConsSendSugar | src/par/parser.rs:536-545 | `(e1, ..., en) c` is `n` nested send constructions, `e1` outermost |
| ParserProperties.CmdSendSugar | src/par/parser.rs:855-864 | `(e1, ..., en) c` is `n` nested send commands, `e1` outermost |
| ParserProperties.TypBranchReceiveSugar | src/par/parser.rs:397-405 | `(A1, ..., An) B` in a branch type is `n` receive types with each argument first, `A1` outermost |
| ParserProperties.PatternReceiveOfParts | src/par/parser.rs:441-450 | `pattern_receive` on `(`, a list of patterns, `)` and a pattern returns the fold of those patterns around it, which reads back as exactly those patterns |
| ParserProperties.ConsSendOfParts | src/par/parser.rs:536-545 | `cons_send` on `(`, a list of expressions, `)` and a construction returns their fold, which reads back as exactly those arguments |
| ParserProperties.CmdSendOfParts | src/par/parser.rs:855-864 | `cmd_send` on `(`, a list of expressions, `)` and a command returns their fold, which reads back as exactly those arguments |
| ParserProperties.TypBranchReceiveOfParts | src/par/parser.rs:397-405 | `typ_branch_receive` on `(`, a list of types, `)` and a branch returns their fold, which reads back as exactly those types |
| TypeGrammar.TypSendNode | src/par/parser.rs:252-254 | the fold closure of `typ_send` as written, `\|arg, then\|`; `TypSendAsWritten` and `TypSendSwapsSlots` state where it puts each argument |
| TypeGrammar.TypReceiveNode | src/par/parser.rs:262-264 | the fold closure of `typ_receive` as written; `TypReceiveAsWritten` states where it puts each argument |
| ParserProperties.TypSendAsWritten | src/par/parser.rs:249-257 | as written, `typ_send` nests one send per argument but puts the argument in the second slot and the rest of the type in the first |
| ParserProperties.TypReceiveAsWritten | src/par/parser.rs:259-267 | as written, `typ_receive` has the same swapped slots |
| ParserProperties.TypSendSwapsSlots | src/par/parser.rs:249-257 | `(!) ?` parses as written to a send whose first slot is `?` and second slot `!` |
| ParserProperties.TypSendOfSymbols | src/par/parser.rs:249-257 | the tokens `( ! ) ?` give a send node whose first slot is the `?` after the parentheses and second slot the `!` inside |
| ParserProperties.TypSendOfParts | src/par/parser.rs:249-257 | `typ_send` folds the listed arguments around the type after `)`, the argument list as `list` yields it |
| ParserProperties.TypOfSymbol | src/par/parser.rs:306-316 | a symbol token `!` is the break type and `?` the continue type, whatever follows |
| ParserProperties.TypSendIntendedSugar | src/par/parser.rs:249-257 | with the node of the evidently intended closure, `(A1, ..., An) B` is `n` sends with `Ai` in the first slot and `B` innermost |
| ParserProperties.TypReceiveIntendedSugar | src/par/parser.rs:259-267 | the same for the intended `typ_receive` |
| ParserProperties.BranchMapRepeatedLabel | src/par/parser.rs:941-952 | branches `a, b, a` give the map `a, b` in that order with the second `a`'s payload |
| ParserProperties.TypCommitsAfterChan | src/par/parser.rs:207-247 | once `chan` is seen, `typ` is decided by `typ_chan` alone and does not backtrack to later alternatives |
| ParserProperties.ExpressionCommitsAfterLet | src/par/parser.rs:469-490 | once `let` is seen, `expression` is decided by `expr_let` alone and does not backtrack |
| ParserProperties.ExpressionCommitsAfterChan | src/par/parser.rs:469-506 | once `chan` is seen, `expression` is decided by `expr_fork` alone |
| ParserProperties.TypNameWithoutArgs | src/par/parser.rs:232-238 | a name not followed by `<` is a named type with no arguments, consuming one token |
| TypeGrammar.Typ | src/par/parser.rs:207-230 | `typ` consumes input when it succeeds |
| TypeGrammar.TypName | src/par/parser.rs:232-238 | `typ_name` backtracks when no name starts the input |
| TypeGrammar.TypeArgs | src/par/parser.rs:382-386 | `type_args` is the empty list, input untouched, when no `<` follows |
| TypeGrammar.TypChan | src/par/parser.rs:240-247 | backtracks exactly without a leading `chan`; after it, succeeds or cuts |
| TypeGrammar.TypSend | src/par/parser.rs:249-257 | backtracks exactly without a leading `(`; after it, succeeds or cuts |
| TypeGrammar.TypReceive | src/par/parser.rs:259-267 | backtracks exactly without a leading `[` |
| TypeGrammar.TypEither | src/par/parser.rs:269-286 | backtracks exactly without a leading `either` |
| TypeGrammar.TypChoice | src/par/parser.rs:288-304 | backtracks exactly without a leading `{` |
| TypeGrammar.TypBreak | src/par/parser.rs:306-310 | succeeds exactly on a leading `!`, giving the break type at its location; never cuts |
| TypeGrammar.TypContinue | src/par/parser.rs:312-316 | succeeds exactly on a leading `?`, giving the continue type; never cuts |
| TypeGrammar.TypRecursive | src/par/parser.rs:318-322 | backtracks exactly without a leading `recursive` |
| TypeGrammar.TypIterative | src/par/parser.rs:324-331 | backtracks exactly without a leading `iterative` |
| TypeGrammar.TypSelf | src/par/parser.rs:333-340 | succeeds exactly on a leading `self`, with the optional loop label that follows; never cuts |
| TypeGrammar.TypSendType | src/par/parser.rs:342-357 | backtracks exactly unless the input starts `( type` |
| TypeGrammar.TypRecvType | src/par/parser.rs:359-374 | backtracks exactly unless the input starts `[ type` |
| TypeGrammar.TypeParams | src/par/parser.rs:376-380 | `type_params` is the empty list, input untouched, when no `<` follows |
| TypeGrammar.TypBranch | src/par/parser.rs:388-391 | `typ_branch` consumes input when it succeeds |
| TypeGrammar.TypBranchThen | src/par/parser.rs:393-395 | backtracks exactly without a leading `=>` |
| TypeGrammar.TypBranchReceive | src/par/parser.rs:397-405 | backtracks exactly without a leading `(` |
| TypeGrammar.TypBranchRecvType | src/par/parser.rs:407-418 | backtracks exactly unless the input starts `( type` |
| TypeGrammar.Annotation | src/par/parser.rs:420-422 | `None` with the input untouched without a leading `:`; after `:` never `None` |
| TypeGrammar.Pattern | src/par/parser.rs:425-433 | `pattern` consumes input when it succeeds |
| TypeGrammar.PatternName | src/par/parser.rs:435-439 | backtracks when no name starts the input |
| TypeGrammar.PatternReceive | src/par/parser.rs:441-450 | backtracks exactly without a leading `(` |
| TypeGrammar.PatternContinue | src/par/parser.rs:452-456 | succeeds exactly on a leading `!`; never cuts |
| TypeGrammar.PatternReceiveType | src/par/parser.rs:458-467 | backtracks exactly unless the input starts `( type` |
| Grammar.Expression | src/par/parser.rs:469-479 | `expression` consumes input when it succeeds |
| Grammar.Braced | src/par/parser.rs:469-479 | the braced alternative backtracks without a leading `{` |
| Grammar.ExprLet | src/par/parser.rs:481-490 | backtracks exactly without a leading `let` |
| Grammar.ExprDo | src/par/parser.rs:492-498 | backtracks exactly without a leading `do` |
| Grammar.ExprFork | src/par/parser.rs:500-506 | backtracks exactly without a leading `chan` |
| Grammar.Construction | src/par/parser.rs:508-522 | `construction` consumes input when it succeeds |
| Grammar.ConsThen | src/par/parser.rs:524-534 | `cons_then` consumes input when it succeeds |
| Grammar.ConsSend | src/par/parser.rs:536-545 | backtracks exactly without a leading `(` |
| Grammar.ConsReceive | src/par/parser.rs:547-556 | backtracks exactly without a leading `[` |
| Grammar.ConsChoose | src/par/parser.rs:558-562 | backtracks exactly without a leading `.` |
| Grammar.ConsEither | src/par/parser.rs:564-580 | backtracks exactly without a leading `{` |
| Grammar.ConsBreak | src/par/parser.rs:582-586 | succeeds exactly on a leading `!`; never cuts |
| Grammar.ConsBegin | src/par/parser.rs:588-592 | backtracks exactly without a leading `begin` |
| Grammar.ConsLoop | src/par/parser.rs:594-598 | succeeds exactly on a leading `loop`, with the optional label that follows |
| Grammar.ConsSendType | src/par/parser.rs:600-609 | backtracks exactly unless the input starts `( type` |
| Grammar.ConsRecvType | src/par/parser.rs:611-620 | backtracks exactly unless the input starts `[ type` |
| Grammar.ConsBranch | src/par/parser.rs:622-624 | `cons_branch` consumes input when it succeeds |
| Grammar.ConsBranchThen | src/par/parser.rs:626-630 | backtracks exactly without a leading `=>` |
| Grammar.ConsBranchReceive | src/par/parser.rs:632-641 | backtracks exactly without a leading `(` |
| Grammar.ConsBranchRecvType | src/par/parser.rs:643-652 | backtracks exactly unless the input starts `( type` |
| Grammar.Application | src/par/parser.rs:654-664 | `application` consumes input when it succeeds |
| Grammar.Apply | src/par/parser.rs:666-677 | `apply` never returns a longer rest |
| Grammar.ApplySend | src/par/parser.rs:679-688 | backtracks exactly without a leading `(` |
| Grammar.ApplyChoose | src/par/parser.rs:690-694 | backtracks exactly without a leading `.` |
| Grammar.ApplyEither | src/par/parser.rs:696-712 | backtracks exactly without a leading `{` |
| Grammar.ApplyBegin | src/par/parser.rs:714-718 | backtracks exactly without a leading `begin` |
| Grammar.ApplyLoop | src/par/parser.rs:720-724 | succeeds exactly on a leading `loop`, with the optional label that follows |
| Grammar.ApplySendType | src/par/parser.rs:726-735 | backtracks exactly unless the input starts `( type` |
| Grammar.ApplyNoop | src/par/parser.rs:737-741 | succeeds exactly when a token is left, consuming nothing |
| Grammar.ApplyBranch | src/par/parser.rs:743-751 | `apply_branch` consumes input when it succeeds |
| Grammar.ApplyBranchThen | src/par/parser.rs:753-757 | backtracks exactly when no name starts the input |
| Grammar.ApplyBranchReceive | src/par/parser.rs:759-768 | backtracks exactly without a leading `(` |
| Grammar.ApplyBranchContinue | src/par/parser.rs:770-774 | backtracks exactly without a leading `!` |
| Grammar.ApplyBranchRecvType | src/par/parser.rs:776-785 | backtracks exactly unless the input starts `( type` |
| Grammar.Process | src/par/parser.rs:787-791 | `process` never returns a longer rest |
| Grammar.ProcLet | src/par/parser.rs:793-799 | backtracks exactly without a leading `let` |
| Grammar.ProcPass | src/par/parser.rs:801-805 | succeeds exactly on a leading `pass`; never cuts |
| Grammar.ProcTelltypes | src/par/parser.rs:807-811 | backtracks exactly without a leading `telltypes` |
| Grammar.ProcNoop | src/par/parser.rs:813-817 | succeeds exactly when a token is left, consuming nothing |
| Grammar.Command | src/par/parser.rs:819-823 | backtracks when no name starts the input |
| Grammar.Cmd | src/par/parser.rs:825-841 | `cmd` never returns a longer rest |
| Grammar.CmdThen | src/par/parser.rs:843-847 | `cmd_then` never returns a longer rest |
| Grammar.CmdLink | src/par/parser.rs:849-853 | backtracks exactly without a leading `<>` |
| Grammar.CmdSend | src/par/parser.rs:855-864 | backtracks exactly without a leading `(` |
| Grammar.CmdReceive | src/par/parser.rs:866-875 | backtracks exactly without a leading `[` |
| Grammar.CmdChoose | src/par/parser.rs:877-881 | backtracks exactly without a leading `.` |
| Grammar.CmdEither | src/par/parser.rs:883-889 | backtracks exactly without a leading `{` |
| Grammar.CmdBreak | src/par/parser.rs:891-895 | succeeds exactly on a leading `!`; never cuts |
| Grammar.CmdContinue | src/par/parser.rs:897-901 | backtracks without a leading `?` |
| Grammar.CmdBegin | src/par/parser.rs:903-907 | backtracks exactly without a leading `begin` |
| Grammar.CmdLoop | src/par/parser.rs:909-913 | succeeds exactly on a leading `loop`, with the optional label that follows |
| Grammar.CmdSendType | src/par/parser.rs:915-924 | backtracks exactly unless the input starts `( type` |
| Grammar.CmdRecvType | src/par/parser.rs:926-935 | backtracks exactly unless the input starts `[ type` |
| Grammar.PassProcess | src/par/parser.rs:937-939 | `pass_process` consumes input when it succeeds |
| Grammar.CmdBranches | src/par/parser.rs:941-952 | `cmd_branches` is the empty map, input untouched, when no `.` follows |
| Grammar.CmdBranch | src/par/parser.rs:954-962 | `cmd_branch` consumes input when it succeeds |
| Grammar.CmdBranchThen | src/par/parser.rs:964-968 | backtracks exactly without a leading `=>` |
| Grammar.CmdBranchReceive | src/par/parser.rs:970-979 | backtracks exactly without a leading `(` |
| Grammar.CmdBranchContinue | src/par/parser.rs:981-985 | backtracks exactly without a leading `!` |
| Grammar.CmdBranchRecvType | src/par/parser.rs:987-996 | backtracks exactly unless the input starts `( type` |
| IndexMaps.Get | src/icombs/compiler.rs:133-134 | `get` finds nothing exactly when the key is absent |
| IndexMaps.IndexOf | src/icombs/compiler.rs:133-134 | the position found holds the key and no earlier entry does; none exactly when the key is absent |
| IndexMaps.Insert | src/par/parser.rs:159-173 | `insert` stores the value under the key, leaves every other key's value, keeps an existing key in place and appends a new one |
| IndexMaps.SwapRemoveAt | src/parse.rs:73-75 | `swap_remove` at a position removes exactly that element (as a multiset), moving the last one into its place |
| IndexMaps.SwapRemove | src/icombs/compiler.rs:134 | `IndexMap::swap_remove` returns the value stored under the key and changes nothing when the key is absent |
| IndexMaps.GetIffEntry | src/icombs/compiler.rs:133-134 | with unique keys, `get` returns a value exactly when that entry is in the map |
| IndexMaps.InsertKeepsUnique | src/icombs/compiler.rs:120-125 | `insert` keeps the keys unique |
| IndexMaps.SwapRemoveSpec | src/icombs/compiler.rs:134 | `swap_remove` keeps the keys unique, forgets the key and keeps every other entry |
| IndexMaps.InsertAll | src/par/parser.rs:941-952 | repeated `IndexMap::insert`; `InsertAllSpec` states its key order and values |
| IndexMaps.InsertAllSpec | src/par/parser.rs:941-952 | a fold of `insert` gives unique keys in first-occurrence order and under each key the value of its last pair |
| IndexMaps.SwapRemoveGet | src/icombs/compiler.rs:134 | after `swap_remove` every other key still finds its value |
| IndexMaps.InsertNew | src/icombs/compiler.rs:120-125 | inserting an absent key appends the entry at the end |
| IndexMaps.SwapRemoveInsert | src/icombs/compiler.rs:134-150 | removing a key and inserting it again keeps keys unique, finds the new value under it and leaves every other key alone |
| Base.Compare | src/parse.rs:220-224 | `Ord for Name` compares the texts alone: `Equal` exactly when the texts are equal, whatever the locations |
| Base.Same | src/parse.rs:226-230 | `PartialEq for Name` through `cmp`; `SameIffText` states that it holds exactly when the texts are equal |
| Base.CompareStrings | src/parse.rs:220-224 | `String::cmp` says `Equal` exactly for equal strings |
| Base.SameIffText | src/parse.rs:226-230 | two names are equal exactly when their texts are, whatever their locations |
| Base.CompareStringsFlip | src/parse.rs:214-224 | swapping the operands of the ordering flips its result |
| Base.CompareStringsTransitive | src/parse.rs:214-224 | the ordering of names is transitive |
| PestWalker.Position | src/parse.rs:73 | `free.iter().position(..)` finds the first name with the same text, and none exactly when no such name is there |
| PestWalker.Unbind | src/parse.rs:73-75 | removing a binder takes exactly one occurrence of its text out of the free list when there is one, and adds nothing |
| PestWalker.ParseExpression | src/parse.rs:63-91 | `parse_expression` builds the term and leaves the free list that the specification `ExprSpec` gives: a reference pushes its name; a fork walks its body, removes one occurrence of its channel and captures what remains |
| PestWalker.ParseProcess | src/parse.rs:93-178 | `parse_process` builds the term and free list of `ProcSpec`, rule by rule, the `p_case` loop keeping branches in source order and walking `otherwise` only when present |
| PestWalker.ParseBranches | src/parse.rs:161-166 | the `p_case` branch loop returns the branches of `BranchesSpec` in source order, threading the free list through each branch |
| PestWalker.Entries | src/parse.rs:40-47 | every item other than `EOI` contributes its name and its expression walked from an empty free list |
| PestWalker.ParseProgram | src/parse.rs:34-56 | the loop over items returns what `ProgramSpec` gives: `EOI` skipped, each item from a fresh free list, the first repeated name an error |
| WalkerProperties.AccountsCompose | src/parse.rs:101-175 | free-list accounting composes over walks made one after the other |
| WalkerProperties.AccountsPush | src/parse.rs:84-87 | pushing a name accounts for it as mentioned |
| WalkerProperties.AccountsUnbind | src/parse.rs:73-75 | removing a binder's occurrence keeps the accounting exact for every other text |
| WalkerProperties.CountTexts | src/parse.rs:73-75 | the recursive count of a text equals its multiplicity among the texts |
| WalkerProperties.ExprWalkAccounts | src/parse.rs:63-91 | a walked expression adds to the free list only the names it mentions, counts exactly every text it does not bind, and without binders appends exactly its mentions in order |
| WalkerProperties.ProcWalkAccounts | src/parse.rs:93-178 | the same accounting for every process rule |
| WalkerProperties.BreakAccounts | src/parse.rs:116-120 | `p_break` mentions only its subject, binds nothing, and appends exactly that subject |
| WalkerProperties.SelectAccounts | src/parse.rs:148-156 | `p_select` changes the list only through its continuation; its subject and label are not added |
| WalkerProperties.LetAccounts | src/parse.rs:101-109 | `p_let` walks its value then its body and then removes one occurrence of its name |
| WalkerProperties.LinkAccounts | src/parse.rs:110-115 | `p_link` appends its subject after the argument's names |
| WalkerProperties.ContinueAccounts | src/parse.rs:121-126 | `p_continue` appends its subject after the body's names |
| WalkerProperties.SendAccounts | src/parse.rs:127-135 | `p_send` changes the list only through its argument and body; its subject is not added |
| WalkerProperties.ReceiveAccounts | src/parse.rs:136-147 | `p_receive` removes one occurrence of its parameter after its body; its subject is not added |
| WalkerProperties.CaseAccounts | src/parse.rs:157-175 | `p_case` accounts for its branches and its optional `otherwise`; its subject is not added |
| WalkerProperties.CaseTerm | src/parse.rs:157-175 | a case mentions and binds what its branches and `otherwise` do |
| WalkerProperties.BranchesWalkAccounts | src/parse.rs:161-166 | the branch loop accounts for the branches it walks, in order |
| WalkerProperties.BranchMentionsIgnoreOtherwise | src/parse.rs:161-170 | the branches' mentions and binders do not depend on `otherwise` |
| WalkerProperties.ForkCaptures | src/parse.rs:69-83 | a fork's capture list is the free list it leaves: its body's list less at most one occurrence of the channel, by text exactly one if present |
| WalkerProperties.ForkOfTwoBreaksCapturesItsChannel | src/parse.rs:69-83 | a fork whose case branches both close the channel captures the channel itself |
| WalkerProperties.ForkOfTwoOccurrences | src/parse.rs:69-83 | a fork whose body leaves two occurrences of the channel's text captures only the later one |
| WalkerProperties.BreakBranchWalk | src/parse.rs:116-120 | `p_break` appends its subject to the free list |
| PestWalker.Collect | src/parse.rs:45-53 | the insertion of each item into the statics; `CollectOkIff`, `CollectErrAtFirstClash` and `CollectDefines` state when it succeeds, where it fails and what it stores |
| WalkerProperties.CollectOkIff | src/parse.rs:45-53 | inserting the entries succeeds exactly when no entry repeats a name |
| WalkerProperties.CollectErrAtFirstClash | src/parse.rs:48-53 | a failure reports `"<name>" is already defined` at the first entry that repeats a name |
| WalkerProperties.CollectDefines | src/parse.rs:48 | on success the statics hold exactly the entries' texts, each with the defining name itself (location included) and its expression, and keep what was there before |
| WalkerProperties.ProgramAcceptsDistinctNames | src/parse.rs:34-56 | `parse_program` succeeds exactly when the item names are pairwise distinct, each name's text then mapping to that name, location included, and its expression walked from an empty free list |
| WalkerProperties.ProgramRejectsFirstRepeat | src/parse.rs:48-53 | a rejected program reports the second occurrence of the first repeated name, at that occurrence's location |
| WalkerProperties.FirstRepeatRejected | src/parse.rs:48-53 | the same for the list of entries inserted |
| Icombs.Multiplex | src/icombs/compiler.rs:51-60 | `multiplex_trees`; `MultiplexRoundTrip`, `MultiplexFew`, `MultiplexBalanced` and `MultiplexInjective` state its properties |
| Icombs.MultiplexRoundTrip | src/icombs/compiler.rs:51-60 | the trees of a multiplexed tree read back in order are the trees multiplexed |
| Icombs.MultiplexFew | src/icombs/compiler.rs:52-56 | no tree multiplexes to the eraser and one tree to itself |
| Icombs.MultiplexBalanced | src/icombs/compiler.rs:57-59 | up to `2^k` trees are at most `k` levels below the root |
| Icombs.SplitDepth | src/icombs/compiler.rs:57-59 | when both halves multiplex to at most `bound` levels, the whole is at most one level deeper |
| Icombs.MultiplexInjective | src/icombs/compiler.rs:51-60 | equally many trees multiplex to the same tree only if they are the same trees |
| Icombs.ChoiceTreeSlots | src/icombs/compiler.rs:282-287 | a choice instance is one end of the fresh wire beside slots that are all erasers except slot `index`, which is the other end with the tree |
| Icombs.EitherInstance | src/icombs/compiler.rs:288-293 | `either_instance` puts the context tree beside the cases, each a `C` node of its pair, in order |
| Icombs.UseLinear | src/icombs/compiler.rs:133-136 | using a `Linear` variable hands out its tree, unbinds it, and leaves the net and every other variable alone |
| Icombs.UseShared | src/icombs/compiler.rs:137-158 | using a `Replicable` or `Boxed` variable makes two fresh wires, links `D` of them to the old tree, keeps the name bound with the same kind and type on one end, and hands out the other |
| Icombs.UseGlobal | src/icombs/compiler.rs:159-164 | using an unbound global binds it as `Replicable` and hands out its compiled tree |
| Icombs.LinearCapturesStep | src/icombs/compiler.rs:102-106 | capturing a linear variable moves its binding from the variables to the captured table |
| Icombs.CaptureUnbindsLinear | src/icombs/compiler.rs:102-106 | after capturing linear variables exactly those are unbound and the net is unchanged |
| Icombs.CaptureMovesLinear | src/icombs/compiler.rs:102-107 | the captured table is the linear captures' bindings, in order |
| Icombs.LinearCapturable | src/icombs/compiler.rs:102-106 | capturing only bound linear variables never meets an unbound name |
| Icombs.Compiler.constructor | src/icombs/compiler.rs:425-432 | a new compiler has no wires, no links and no variables |
| Icombs.Compiler.CreateWire | src/icombs/compiler.rs:138-139 | a fresh wire is the next wire number; nothing else changes |
| Icombs.Compiler.Link | src/icombs/compiler.rs:140 | a link is appended to the log; nothing else changes |
| Icombs.Compiler.CreateTypedWire | src/icombs/compiler.rs:169-184 | the two ends of one fresh wire, typed with the type and its dual |
| Icombs.Compiler.BindVariable | src/icombs/compiler.rs:120-125 | binding an unbound name appends it as `Linear`; the net is unchanged |
| Icombs.Compiler.UseVariable | src/icombs/compiler.rs:133-168 | the new state, value and kind are those of `UseSpec`; keys stay unique |
| Icombs.Compiler.InstantiateVariable | src/icombs/compiler.rs:126-132 | a non-`Boxed` variable is used as by `use_variable` and its value returned |
| Icombs.Compiler.EnterCaptures | src/icombs/compiler.rs:102-107 | the captures are used one after the other, the captured table becomes the variables and the caller's variables are returned; both tables keep their keys unique |
| Icombs.Compiler.LeaveCaptures | src/icombs/compiler.rs:109-117 | the caller's variables come back, keys still unique, and every leftover capture, none of them linear, is linked to an eraser |
| Icombs.Compiler.ChoiceInstance | src/icombs/compiler.rs:282-287 | the choice tree on one fresh wire; links and variables unchanged |
| Icombs.Compiler.Cast | src/icombs/compiler.rs:227-228 | casting `!` to `!` or `?` to `?` returns the tree as it is |

## Left out

- The lexer, `Loc` and token spans, `with_span`, winnow's `StrContext` labels and error values: a location is an opaque pair carried by each token, and a failure is only `Backtrack` or `Cut`.
- `with_loc`: each production takes the location of its first token; its one behaviour that matters, failing on empty input, is kept in the no-op productions.
- The pest grammar and pest's errors: the walker assumes the tree shapes pest produces (`ExprShape`, `ProcShape`, `ItemsShape`), so its `unreachable!` arms and `unwrap`s are not reached.
- `parse_name`, `From<Pair> for Location` and `From<Pair> for Name`: a pair's name is its text at its line and column (`PestWalker.NameOf`).
- Programs with shared `Arc` nodes: the model builds plain values, so sharing and reference counts are not represented.
- `compile_global`: it runs the net reducer, which is not part of this model; the compiler takes a map `globals` from a name to the typed tree `compile_global` would return.
- The closure passed to `with_captures` cannot be modelled; `with_captures` is split into `EnterCaptures` (lines 102-107) and `LeaveCaptures` (lines 109-117), between which the caller runs the body.
- `Icombs.Compiler.LeaveCaptures`: the panic on a leftover linear capture is the precondition `NoLinear`, not an error result.
- `Icombs.Compiler.BindVariable`: the `assert!` panic on a name already bound (compiler.rs:121-124) is the precondition that the name is not bound, not an error result.
- `Icombs.Compiler.EnterCaptures`: the debug `println!` of the captures (compiler.rs:101) is output only and is not modelled.
- `Icombs.Compiler.UseVariable`: the panic on an unknown name is the precondition that the name is bound or global.
- `Icombs.Compiler.InstantiateVariable`: the `todo!()` on a `Boxed` variable is a precondition excluding it.
- `Icombs.Compiler.ChoiceInstance`: the panic of `get_mut(index).unwrap()` is the precondition `index < outOf`.
- `Icombs.Compiler.Cast`: only the identity cases are modelled; the send, receive and choice cases depend on `Type::dual` and the net.
- The net (`src/icombs/net.rs`): both ends of the n-th wire are `Wire(n)`, and the net is a wire counter with a log of links.
- The language's types (`src/par/types.rs`): `Type` is `!`, `?` or an opaque type whose dual flips a flag.
- `compile_expression`, `compile_process`, `compile_command`, `show_state`, the loop of `compile_file` over the definitions and `Display for IcCompiled`.
- `src/main.rs` and `src/print.rs`: a GUI entry point and printing.
- Integer widths: `usize` indices and wire numbers are unbounded naturals; no overflow can be reached with the sizes involved.
- `ProgramParser.ProgramToEnd`: the evidently intended `program` stops at the end of input; all other behaviour is as written.
- `TypeGrammar.Typ`, `TypeGrammar.TypBranch`, `TypeGrammar.Pattern`: weaker, only that a success consumes input; their alternatives are specified one by one.
- `Grammar.Expression`, `Grammar.Construction`, `Grammar.ConsThen`, `Grammar.Application`: weaker, only that a success consumes input; their alternatives are specified one by one.
- `Grammar.Apply`, `Grammar.Process`, `Grammar.Cmd`, `Grammar.CmdThen`: weaker, only that a success never lengthens the input.
- `Grammar.ConsBranch`, `Grammar.ApplyBranch`, `Grammar.CmdBranch`, `Grammar.PassProcess`: weaker, only that a success consumes input.
- `Grammar.Braced`, `Grammar.CmdContinue`, `Grammar.Command`, `TypeGrammar.TypName`, `TypeGrammar.PatternName`: weaker, the backtrack condition is stated in one direction only.
- `Combinators.List`, `Combinators.SeparatedMore`, `Combinators.Labelled`, `Combinators.RepeatLabelled`: weaker on their own; what `list` yields is stated by `ParserProperties.ListAcceptsJoined`.

## Findings

| source | as written | input that shows it | evidently intended | confidence | as-written member | corrected member |
|---|---|---|---|---|---|---|
| src/par/parser.rs:139-157 | `repeat(0.., alt((type_def, declaration, definition, cut_err(fail))))`: at the end of input the last alternative cuts, so the repetition never ends successfully and `program` fails on every input | `dec x : !` | the repetition stops at the end of input and `program` returns the items read | not executed | ProgramParser.ProgramAlwaysFails | ProgramParser.ProgramToEndAcceptsItems |
| src/par/parser.rs:249-267 | the fold closure of `typ_send` and `typ_receive` is `\|arg, then\|`, so the accumulated type lands in the argument slot and each argument in the continuation slot | `(!) ?` | `\|acc, arg\|` as in `typ_branch_receive` (lines 397-405): argument first, continuation second | not executed | ParserProperties.TypSendAsWritten | ParserProperties.TypSendIntendedSugar |

The grammar keeps the as-written fold of `typ_send` and `typ_receive`, so that
every other production is modelled on what the code parses; the intended
nodes are `ParserProperties.TypSendIntendedNode` and
`ParserProperties.TypReceiveIntendedNode`.
