/**
 * The part of the SwiftSyntax concrete syntax tree that a closure rewrite touches, as
 * immutable values. Trivia (the spacing attached to a token) is a count of spaces before
 * and after the token's text; a `with…` call of SwiftSyntax is a datatype update here.
 */
module Syntax {
  import opened Wrappers

  /** An offset into the source text, as SwiftSyntax's `AbsolutePosition` gives it. */
  type Position = nat

  datatype Token = Token(text: string, leadingSpaces: nat, trailingSpaces: nat)

  /** A type written in the source: a plain type identifier, or any other type syntax. */
  datatype TypeSyntax =
    | TypeIdentifier(name: Token)
    | OtherType(tokens: seq<Token>)

  /** One name in a bare closure parameter list such as `{ i, j in }`. */
  datatype ClosureParam = ClosureParam(name: Token, trailingComma: Option<Token>)

  /** One parameter of a parenthesised clause such as `(i: Int, j)`. */
  datatype FunctionParameter = FunctionParameter(
    attributes: Option<seq<Token>>,
    firstName: Option<Token>,
    secondName: Option<Token>,
    colon: Option<Token>,
    paramType: Option<TypeSyntax>,
    ellipsis: Option<Token>,
    defaultArgument: Option<seq<Token>>,
    trailingComma: Option<Token>)

  datatype ParameterClause = ParameterClause(
    leftParen: Token,
    parameterList: seq<FunctionParameter>,
    rightParen: Token)

  /** `-> T` before the `in` of a closure signature. */
  datatype ReturnClause = ReturnClause(arrow: Token, returnType: TypeSyntax)

  /** The two shapes a closure signature's input takes. */
  datatype SignatureInput =
    | ParamList(params: seq<ClosureParam>)
    | Clause(clause: ParameterClause)

  datatype ClosureSignature = ClosureSignature(
    capture: Option<seq<Token>>,
    input: Option<SignatureInput>,
    throwsTok: Option<Token>,
    output: Option<ReturnClause>,
    inTok: Token)

  datatype ClosureExpr = ClosureExpr(
    leftBrace: Token,
    signature: Option<ClosureSignature>,
    statements: seq<Token>,
    rightBrace: Token)

  /** `syntax.signature?.input` */
  function InputOf(syntax: ClosureExpr): Option<SignatureInput>
  {
    if syntax.signature.Some? then syntax.signature.value.input else None
  }

  /** `token.withoutTrailingTrivia()` */
  function WithoutTrailingTrivia(t: Token): (r: Token)
    ensures r.text == t.text && r.leadingSpaces == t.leadingSpaces && r.trailingSpaces == 0
  {
    t.(trailingSpaces := 0)
  }

  // The tokens SyntaxFactory makes; a factory token has no trivia unless one is passed in.

  const LeftParenToken: Token := Token("(", 0, 0)
  const RightParenToken: Token := Token(")", 0, 0)

  function CommaToken(trailingSpaces: nat): Token
  {
    Token(",", 0, trailingSpaces)
  }

  function ColonToken(trailingSpaces: nat): Token
  {
    Token(":", 0, trailingSpaces)
  }

  function ArrowToken(leadingSpaces: nat): Token
  {
    Token("->", leadingSpaces, 0)
  }

  /** `SyntaxFactory.makeTypeIdentifier(name, leadingTrivia:, trailingTrivia:)` */
  function MakeTypeIdentifier(name: string, leadingSpaces: nat, trailingSpaces: nat): TypeSyntax
  {
    TypeIdentifier(Token(name, leadingSpaces, trailingSpaces))
  }
}
