/**
 * The interface of the TypeCheckedAST library that the rewriter relies on: nodes of the
 * compiler's type-checked AST dump, the function types read from them, and the lookups.
 * The lookups' implementations are not part of this model; they are given to the rewriter
 * as total functions with no property assumed of them.
 */
module TypeCheckedAst {
  import opened Wrappers
  import opened Syntax

  /** A type, known only by its textual `description`. */
  datatype SwiftType = SwiftType(description: string)

  /** The result of `parseFunctionType`: the input types in order and the output type. */
  datatype FunctionType = FunctionType(input: seq<SwiftType>, output: SwiftType)

  /** A node of the dump: its `name` (such as "closure_expr") and its raw `type` text. */
  datatype ASTNode = ASTNode(name: string, rawType: Option<string>, children: seq<ASTNode>)

  /**
   * The helpers the rewriter calls:
   * - `findPoint(n, p)` is `n.find(point: Point(position: p))`;
   * - `findNamed(n, s)` is `n.find(where: { $0.name == s })`, the only form of `find(where:)`
   *   the rewriter uses;
   * - `parseFunctionType(s)` is `try? parseFunctionType(s)`, with a thrown error as `None`.
   */
  datatype AstQueries = AstQueries(
    findPoint: (ASTNode, Position) -> Option<ASTNode>,
    findNamed: (ASTNode, string) -> Option<ASTNode>,
    parseFunctionType: string -> Option<FunctionType>)
}
