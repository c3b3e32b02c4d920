/**
 * The closure-signature rewriter: given one closure of the concrete syntax tree and the
 * type-checked AST dump, it returns the closure with explicit parameter types and, when none
 * was written, a return clause. Every lookup that fails returns the closure unchanged.
 */
module ClosureExprRewriter {
  import opened Wrappers
  import opened Sequences
  import opened Syntax
  import opened TypeCheckedAst

  /** The source positions the rewriter reads: the closure's and its parameter list's. */
  datatype SourcePositions = SourcePositions(closure: Position, parameterList: Position)

  const FunctionConversionExprName: string := "function_conversion_expr"
  const ClosureExprName: string := "closure_expr"
  const ParameterListName: string := "parameter_list"
  const WildcardName: string := "_"

  // ---------------------------------------------------------------------------------------
  // What a rewrite produces

  /** `after` differs from `before` at most in the signature's input and output. */
  predicate KeepsAllButInputAndOutput(before: ClosureExpr, after: ClosureExpr)
  {
    after.(signature := before.signature) == before
    && (after.signature.Some? <==> before.signature.Some?)
    && (before.signature.Some? ==>
          after.signature.value.(input := before.signature.value.input, output := before.signature.value.output)
          == before.signature.value)
  }

  /**
   * `clause` is the bare form's new clause for `params` typed by `inputs`: fresh parentheses,
   * one annotated parameter per zipped pair in order, and a comma with one trailing space after
   * every parameter except the one at index `|params| - 1`.
   */
  predicate IsBareClause(clause: ParameterClause, params: seq<ClosureParam>, inputs: seq<SwiftType>)
  {
    clause.leftParen == LeftParenToken && clause.rightParen == RightParenToken
    && |clause.parameterList| == Min(|params|, |inputs|)
    && forall i :: 0 <= i < |clause.parameterList| ==>
         clause.parameterList[i].(trailingComma := None) == AnnotateClosureParam(params[i], inputs[i])
         && clause.parameterList[i].trailingComma == (if i == |params| - 1 then None else Some(CommaToken(1)))
  }

  /**
   * `after` is `before` with the parameters that have an input type annotated and all the
   * others, and the parentheses, untouched.
   */
  predicate IsAnnotatedClause(after: ParameterClause, before: ParameterClause, inputs: seq<SwiftType>)
  {
    after.leftParen == before.leftParen && after.rightParen == before.rightParen
    && |after.parameterList| == |before.parameterList|
    && forall i :: 0 <= i < |before.parameterList| ==>
         after.parameterList[i] ==
           if i < |inputs| then AnnotateFunctionParam(before.parameterList[i], inputs[i])
           else before.parameterList[i]
  }

  // ---------------------------------------------------------------------------------------
  // Dispatch

  /** `write(_:node:)`: dispatch on the shape of the signature's input. */
  function Write(syntax: ClosureExpr, at: SourcePositions, node: ASTNode, q: AstQueries): (r: ClosureExpr)
    ensures InputOf(syntax).None? ==> r == syntax
    ensures InputOf(syntax).Some? && InputOf(syntax).value.Clause? ==>
      r == WriteParenthesised(syntax, InputOf(syntax).value.clause, at, node, q)
    ensures InputOf(syntax).Some? && InputOf(syntax).value.ParamList? ==>
      r == WriteBare(syntax, InputOf(syntax).value.params, at, node, q)
  {
    match InputOf(syntax)
    case Some(Clause(input)) => WriteParenthesised(syntax, input, at, node, q)
    case Some(ParamList(parameterList)) => WriteBare(syntax, parameterList, at, node, q)
    case None => syntax
  }

  /** The type of a matched node, parsed: absent when there is no node, no type or no parse. */
  function ResolvedType(closureNode: Option<ASTNode>, q: AstQueries): (r: Option<FunctionType>)
    ensures r.Some? <==>
      closureNode.Some? && closureNode.value.rawType.Some?
      && q.parseFunctionType(closureNode.value.rawType.value).Some?
    ensures r.Some? ==> r == q.parseFunctionType(closureNode.value.rawType.value)
  {
    if closureNode.Some? && closureNode.value.rawType.Some? then
      q.parseFunctionType(closureNode.value.rawType.value)
    else
      None
  }

  // ---------------------------------------------------------------------------------------
  // The bare form `{ i in }`

  /**
   * The node whose type the bare form reads: an implicit function conversion when one is
   * found under the located node, the closure's own node otherwise.
   */
  function BareTypeNode(parenNode: ASTNode, q: AstQueries): (r: Option<ASTNode>)
    ensures q.findNamed(parenNode, FunctionConversionExprName).Some? ==>
      r == q.findNamed(parenNode, FunctionConversionExprName)
    ensures q.findNamed(parenNode, FunctionConversionExprName).None? ==>
      r == q.findNamed(parenNode, ClosureExprName)
  {
    OrElse(q.findNamed(parenNode, FunctionConversionExprName), q.findNamed(parenNode, ClosureExprName))
  }

  /**
   * `write(_:parameterList:node:)`: unchanged when the position lookup, the node search, the
   * node's type or the parse fails, and otherwise the rewrite with the parsed type.
   */
  function WriteBare(syntax: ClosureExpr, parameterList: seq<ClosureParam>, at: SourcePositions,
                     node: ASTNode, q: AstQueries): (r: ClosureExpr)
    ensures (|| q.findPoint(node, at.closure).None?
             || (var closureNode := BareTypeNode(q.findPoint(node, at.closure).value, q);
                 || closureNode.None?
                 || closureNode.value.rawType.None?
                 || q.parseFunctionType(closureNode.value.rawType.value).None?))
            ==> r == syntax
    ensures var parenNode := q.findPoint(node, at.closure);
      parenNode.Some? ==>
        var closureNode := BareTypeNode(parenNode.value, q);
        closureNode.Some? && closureNode.value.rawType.Some? ==>
          var closureType := q.parseFunctionType(closureNode.value.rawType.value);
          closureType.Some? ==> r == RewriteBare(syntax, parameterList, closureType.value)
  {
    match q.findPoint(node, at.closure)
    case None => syntax
    case Some(parenNode) =>
      match ResolvedType(BareTypeNode(parenNode, q), q)
      case None => syntax
      case Some(closureType) => RewriteBare(syntax, parameterList, closureType)
  }

  /** `addTypeAnnotation(to: ClosureParamSyntax, type:)`: a closure parameter as a function parameter. */
  function AnnotateClosureParam(parameter: ClosureParam, t: SwiftType): (r: FunctionParameter)
    ensures r.firstName == Some(WithoutTrailingTrivia(parameter.name))
    ensures r.attributes.None? && r.secondName.None? && r.ellipsis.None?
    ensures r.defaultArgument.None? && r.trailingComma.None?
    ensures r.colon.None? <==> parameter.name.text == WildcardName
    ensures r.paramType.None? <==> parameter.name.text == WildcardName
    ensures parameter.name.text != WildcardName ==>
      r.colon == Some(ColonToken(1)) && r.paramType == Some(MakeTypeIdentifier(t.description, 0, 0))
  {
    var funcParameter := FunctionParameter(
      None, Some(WithoutTrailingTrivia(parameter.name)), None, None, None, None, None, None);
    if parameter.name.text == WildcardName then
      funcParameter
    else
      funcParameter.(colon := Some(ColonToken(1)), paramType := Some(MakeTypeIdentifier(t.description, 0, 0)))
  }

  /** One element of the bare form's `zip(...).enumerated().map { ... }`. */
  function BareElement(index: int, parameter: ClosureParam, t: SwiftType, count: int): (r: FunctionParameter)
    ensures r.(trailingComma := None) == AnnotateClosureParam(parameter, t)
    ensures r.trailingComma == if index == count - 1 then None else Some(CommaToken(1))
  {
    var newType := AnnotateClosureParam(parameter, t);
    if index == count - 1 then newType else newType.(trailingComma := Some(CommaToken(1)))
  }

  /** The new parameter list of the bare form. */
  function TypedBareParameters(parameterList: seq<ClosureParam>, inputs: seq<SwiftType>): (r: seq<FunctionParameter>)
    ensures |r| == Min(|parameterList|, |inputs|)
    ensures forall i :: 0 <= i < |r| ==>
      r[i] == BareElement(i, parameterList[i], inputs[i], |parameterList|)
  {
    var pairs := Zip(parameterList, inputs);
    seq(|pairs|, i requires 0 <= i < |pairs| => BareElement(i, pairs[i].0, pairs[i].1, |parameterList|))
  }

  /** Lines 25-59 of the bare form, once the closure's function type is known. */
  function RewriteBare(syntax: ClosureExpr, parameterList: seq<ClosureParam>, closureType: FunctionType): (r: ClosureExpr)
    ensures KeepsAllButInputAndOutput(syntax, r)
    ensures syntax.signature.Some? ==>
      var s := r.signature.value;
      s.input.Some? && s.input.value.Clause? && IsBareClause(s.input.value.clause, parameterList, closureType.input)
    ensures syntax.signature.Some? ==>
      r.signature.value.output ==
        if syntax.signature.value.output.Some? then syntax.signature.value.output
        else Some(ReturnClause(Token("->", 1, 0), TypeIdentifier(Token(closureType.output.description, 1, 1))))
  {
    var parameterClause := ParameterClause(
      LeftParenToken, TypedBareParameters(parameterList, closureType.input), RightParenToken);
    var newSignature := Map(syntax.signature, (s: ClosureSignature) => s.(input := Some(Clause(parameterClause))));
    if syntax.signature.Some? && syntax.signature.value.output.Some? then
      syntax.(signature := newSignature)
    else
      var output := ReturnClause(ArrowToken(1), MakeTypeIdentifier(closureType.output.description, 1, 1));
      syntax.(signature := Map(newSignature, (s: ClosureSignature) => s.(output := Some(output))))
  }

  // ---------------------------------------------------------------------------------------
  // The parenthesised form `{ (i) in }`

  /**
   * `write(_:input:node:)`: unchanged when a position lookup, the `closure_expr` search, the
   * node's type or the parse fails, or when the node at the parameter list is not named
   * `parameter_list`; otherwise the rewrite with the parsed type.
   */
  function WriteParenthesised(syntax: ClosureExpr, input: ParameterClause, at: SourcePositions,
                              node: ASTNode, q: AstQueries): (r: ClosureExpr)
    ensures (|| q.findPoint(node, at.closure).None?
             || (var closureNode := q.findNamed(q.findPoint(node, at.closure).value, ClosureExprName);
                 || closureNode.None?
                 || closureNode.value.rawType.None?
                 || q.parseFunctionType(closureNode.value.rawType.value).None?)
             || q.findPoint(node, at.parameterList).None?
             || q.findPoint(node, at.parameterList).value.name != ParameterListName)
            ==> r == syntax
    ensures var parenNode := q.findPoint(node, at.closure);
      parenNode.Some? ==>
        var closureNode := q.findNamed(parenNode.value, ClosureExprName);
        closureNode.Some? && closureNode.value.rawType.Some? ==>
          var closureType := q.parseFunctionType(closureNode.value.rawType.value);
          var parameterListNode := q.findPoint(node, at.parameterList);
          closureType.Some? && parameterListNode.Some? && parameterListNode.value.name == ParameterListName ==>
            r == RewriteParenthesised(syntax, input, closureType.value)
  {
    match q.findPoint(node, at.closure)
    case None => syntax
    case Some(parenNode) =>
      match ResolvedType(q.findNamed(parenNode, ClosureExprName), q)
      case None => syntax
      case Some(closureType) =>
        match q.findPoint(node, at.parameterList)
        case None => syntax
        case Some(parameterListNode) =>
          if parameterListNode.name != ParameterListName then syntax
          else RewriteParenthesised(syntax, input, closureType)
  }

  /** A parameter whose first name is the wildcard `_`. */
  predicate IsWildcard(parameter: FunctionParameter)
  {
    parameter.firstName.Some? && parameter.firstName.value.text == WildcardName
  }

  /** `addTypeAnnotation(to: FunctionParameterSyntax, type:)`: replaces the colon and the type. */
  function AnnotateFunctionParam(parameter: FunctionParameter, t: SwiftType): (r: FunctionParameter)
    ensures IsWildcard(parameter) ==> r == parameter
    ensures !IsWildcard(parameter) ==>
      r.colon == Some(ColonToken(1)) && r.paramType == Some(MakeTypeIdentifier(t.description, 0, 0))
    ensures r.(colon := parameter.colon, paramType := parameter.paramType) == parameter
  {
    if IsWildcard(parameter) then
      parameter
    else
      parameter.(colon := Some(ColonToken(1)), paramType := Some(MakeTypeIdentifier(t.description, 0, 0)))
  }

  /**
   * `typed.enumerated().reduce(list) { $0.replacing(childAt: $1.offset, with: $1.element) }`,
   * with the enumeration starting at `offset`.
   */
  function ReplaceChildren(list: seq<FunctionParameter>, typed: seq<FunctionParameter>, offset: nat): (r: seq<FunctionParameter>)
    requires offset + |typed| <= |list|
    ensures |r| == |list|
    ensures forall i :: offset <= i < offset + |typed| ==> r[i] == typed[i - offset]
    ensures forall i :: 0 <= i < |list| && !(offset <= i < offset + |typed|) ==> r[i] == list[i]
    decreases |typed|
  {
    if typed == [] then list else ReplaceChildren(list[offset := typed[0]], typed[1..], offset + 1)
  }

  /** The new parameter list of the parenthesised form. */
  function AnnotatedParameterList(parameterList: seq<FunctionParameter>, inputs: seq<SwiftType>): (r: seq<FunctionParameter>)
    ensures |r| == |parameterList|
    ensures forall i :: 0 <= i < |r| ==>
      r[i] == if i < |inputs| then AnnotateFunctionParam(parameterList[i], inputs[i]) else parameterList[i]
  {
    var pairs := Zip(parameterList, inputs);
    var typed := seq(|pairs|, i requires 0 <= i < |pairs| => AnnotateFunctionParam(pairs[i].0, pairs[i].1));
    ReplaceChildren(parameterList, typed, 0)
  }

  /** Lines 91-114 of the parenthesised form, once the closure's function type is known. */
  function RewriteParenthesised(syntax: ClosureExpr, input: ParameterClause, closureType: FunctionType): (r: ClosureExpr)
    ensures KeepsAllButInputAndOutput(syntax, r)
    ensures syntax.signature.Some? ==>
      var s := r.signature.value;
      s.input.Some? && s.input.value.Clause? && IsAnnotatedClause(s.input.value.clause, input, closureType.input)
    ensures syntax.signature.Some? ==>
      r.signature.value.output ==
        if syntax.signature.value.output.Some? then syntax.signature.value.output
        else Some(ReturnClause(Token("->", 0, 0), TypeIdentifier(Token(closureType.output.description, 1, 1))))
  {
    var newInput := input.(parameterList := AnnotatedParameterList(input.parameterList, closureType.input));
    if syntax.signature.Some? && syntax.signature.value.output.Some? then
      syntax.(signature := Map(syntax.signature, (s: ClosureSignature) => s.(input := Some(Clause(newInput)))))
    else
      var output := ReturnClause(ArrowToken(0), MakeTypeIdentifier(closureType.output.description, 1, 1));
      syntax.(signature := Map(syntax.signature,
        (s: ClosureSignature) => s.(input := Some(Clause(newInput))).(output := Some(output))))
  }
}
