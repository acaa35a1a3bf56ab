/**
  The trees the surface-syntax parser builds (the `language` and `types`
  modules of the program, whose definitions are not part of this model:
  each constructor below is the one the parser applies, with its fields in
  the order the parser passes them).  A branch map is an `IndexMap` from the
  branch label to the branch.
*/
module Syntax {
  import opened Wrappers
  import opened Tokens
  import opened IndexMaps

  datatype Type =
    | Name(loc: Loc, name: Name, args: seq<Type>)
    | Chan(loc: Loc, body: Type)
    | Send(loc: Loc, first: Type, second: Type)
    | Receive(loc: Loc, first: Type, second: Type)
    | Either(loc: Loc, branches: IndexMap<Name, Type>)
    | Choice(loc: Loc, branches: IndexMap<Name, Type>)
    | Break(loc: Loc)
    | Continue(loc: Loc)
    | Recursive(loc: Loc, loopLabel: Option<Name>, body: Type)
    | Iterative(loc: Loc, loopLabel: Option<Name>, body: Type)
    | Self(loc: Loc, loopLabel: Option<Name>)
    | SendType(loc: Loc, param: Name, body: Type)
    | ReceiveType(loc: Loc, param: Name, body: Type)

  datatype Pattern =
    | Name(loc: Loc, name: Name, annotation: Option<Type>)
    | Receive(loc: Loc, first: Pattern, rest: Pattern)
    | Continue(loc: Loc)
    | ReceiveType(loc: Loc, param: Name, rest: Pattern)

  datatype Expression =
    | Let(loc: Loc, pattern: Pattern, value: Expression, body: Expression)
    | Do(loc: Loc, process: Process, body: Expression)
    | Fork(loc: Loc, channel: Name, annotation: Option<Type>, process: Process)
    | Construction(loc: Loc, construct: Construct)
    | Application(loc: Loc, target: Expression, apply: Apply)
    | Reference(loc: Loc, name: Name)

  datatype Construct =
    | Then(loc: Loc, expression: Expression)
    | Send(loc: Loc, argument: Expression, next: Construct)
    | Receive(loc: Loc, pattern: Pattern, next: Construct)
    | Choose(loc: Loc, chosen: Name, next: Construct)
    | Either(loc: Loc, branches: IndexMap<Name, ConstructBranch>)
    | Break(loc: Loc)
    | Begin(loc: Loc, loopLabel: Option<Name>, next: Construct)
    | Loop(loc: Loc, loopLabel: Option<Name>)
    | SendType(loc: Loc, argType: Type, next: Construct)
    | ReceiveType(loc: Loc, param: Name, next: Construct)

  datatype ConstructBranch =
    | Then(loc: Loc, expression: Expression)
    | Receive(loc: Loc, pattern: Pattern, next: ConstructBranch)
    | ReceiveType(loc: Loc, param: Name, next: ConstructBranch)

  datatype Apply =
    | Send(loc: Loc, argument: Expression, next: Apply)
    | Choose(loc: Loc, chosen: Name, next: Apply)
    | Either(loc: Loc, branches: IndexMap<Name, ApplyBranch>)
    | Begin(loc: Loc, loopLabel: Option<Name>, next: Apply)
    | Loop(loc: Loc, loopLabel: Option<Name>)
    | SendType(loc: Loc, argType: Type, next: Apply)
    | Noop(loc: Loc)

  datatype ApplyBranch =
    | Then(loc: Loc, param: Name, expression: Expression)
    | Receive(loc: Loc, pattern: Pattern, next: ApplyBranch)
    | Continue(loc: Loc, expression: Expression)
    | ReceiveType(loc: Loc, param: Name, next: ApplyBranch)

  datatype Process =
    | Let(loc: Loc, pattern: Pattern, value: Expression, next: Process)
    | Pass(loc: Loc)
    | Telltypes(loc: Loc, next: Process)
    | Noop(loc: Loc)
    | Command(subject: Name, command: Command)

  datatype Command =
    | Then(process: Process)
    | Link(loc: Loc, expression: Expression)
    | Send(loc: Loc, argument: Expression, next: Command)
    | Receive(loc: Loc, pattern: Pattern, next: Command)
    | Choose(loc: Loc, chosen: Name, next: Command)
    | Either(loc: Loc, branches: IndexMap<Name, CommandBranch>, pass: Option<Process>)
    | Break(loc: Loc)
    | Continue(loc: Loc, process: Process)
    | Begin(loc: Loc, loopLabel: Option<Name>, next: Command)
    | Loop(loc: Loc, loopLabel: Option<Name>)
    | SendType(loc: Loc, argType: Type, next: Command)
    | ReceiveType(loc: Loc, param: Name, next: Command)

  datatype CommandBranch =
    | Then(process: Process)
    | Receive(loc: Loc, pattern: Pattern, next: CommandBranch)
    | Continue(loc: Loc, process: Process)
    | ReceiveType(loc: Loc, param: Name, next: CommandBranch)

  /** The three tables `program` fills: type definitions, declarations and definitions. */
  datatype Program = Program(
    typeDefs: IndexMap<Name, (seq<Name>, Type)>,
    declarations: IndexMap<Name, Option<Type>>,
    definitions: IndexMap<Name, Expression>)
}
