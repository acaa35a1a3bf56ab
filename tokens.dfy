/**
  The token stream the surface-syntax parser consumes.  The lexer that
  produces it is not part of this model: a token is its kind, its text and
  its location, and the parser only ever compares the text or asks whether
  the kind is an identifier.
*/
module Tokens {

  /** A source location; the parser copies it into the tree and never inspects it. */
  datatype Loc = Loc(line: nat, column: nat)

  /** The lexer's token kinds, as far as the parser tells them apart. */
  datatype TokenKind = Ident | Other

  datatype Token = Token(kind: TokenKind, text: string, loc: Loc)

  /** A parsed identifier (the parser's `Name { string }`). */
  datatype Name = Name(text: string)
}
