/** What the closure rewriter guarantees, stated over the functions of `ClosureExprRewriter`. */
module ClosureExprRewriterProperties {
  import opened Wrappers
  import opened Sequences
  import opened Syntax
  import opened TypeCheckedAst
  import opened ClosureExprRewriter

  /** A parameter that already carries the annotation the rewriter would give it, or is `_`. */
  predicate CarriesAnnotation(parameter: FunctionParameter, t: SwiftType)
  {
    IsWildcard(parameter)
    || (parameter.colon == Some(ColonToken(1)) && parameter.paramType == Some(MakeTypeIdentifier(t.description, 0, 0)))
  }

  // ---------------------------------------------------------------------------------------
  // Which node is consulted, and the fail-soft exits

  /** A conversion node without a type is not passed over for the closure's own node. */
  lemma BareConversionNodeWithoutType(syntax: ClosureExpr, parameterList: seq<ClosureParam>,
                                      at: SourcePositions, node: ASTNode, q: AstQueries,
                                      parenNode: ASTNode, conversionNode: ASTNode)
    requires q.findPoint(node, at.closure) == Some(parenNode)
    requires q.findNamed(parenNode, FunctionConversionExprName) == Some(conversionNode)
    requires conversionNode.rawType.None?
    ensures WriteBare(syntax, parameterList, at, node, q) == syntax
  {
  }

  /** Two dumps that agree on everything but `function_conversion_expr` nodes give the same result. */
  lemma ParenthesisedIgnoresConversionNodes(syntax: ClosureExpr, input: ParameterClause, at: SourcePositions,
                                            node: ASTNode, q: AstQueries, q': AstQueries)
    requires forall n: ASTNode, p: Position :: q.findPoint(n, p) == q'.findPoint(n, p)
    requires forall n: ASTNode :: q.findNamed(n, ClosureExprName) == q'.findNamed(n, ClosureExprName)
    requires forall s: string :: q.parseFunctionType(s) == q'.parseFunctionType(s)
    ensures WriteParenthesised(syntax, input, at, node, q) == WriteParenthesised(syntax, input, at, node, q')
  {
  }

  // ---------------------------------------------------------------------------------------
  // The shape of the rewritten signature

  /** More names than input types: the last name written also keeps a comma. */
  lemma BareSurplusParametersAllTakeCommas(syntax: ClosureExpr, parameterList: seq<ClosureParam>,
                                           closureType: FunctionType)
    requires syntax.signature.Some? && |parameterList| > |closureType.input|
    ensures var s := RewriteBare(syntax, parameterList, closureType).signature;
      s.Some? && s.value.input.Some? && s.value.input.value.Clause?
      && forall p <- s.value.input.value.clause.parameterList :: p.trailingComma == Some(CommaToken(1))
  {
  }

  lemma WriteKeepsAllButInputAndOutput(syntax: ClosureExpr, at: SourcePositions, node: ASTNode, q: AstQueries)
    ensures KeepsAllButInputAndOutput(syntax, Write(syntax, at, node, q))
  {
  }

  // ---------------------------------------------------------------------------------------
  // Wildcards and idempotence

  lemma BareWildcardsStayUnannotated(syntax: ClosureExpr, parameterList: seq<ClosureParam>,
                                     closureType: FunctionType)
    requires syntax.signature.Some?
    ensures var s := RewriteBare(syntax, parameterList, closureType).signature;
      s.Some? && s.value.input.Some? && s.value.input.value.Clause?
      && var list := s.value.input.value.clause.parameterList;
         forall i :: 0 <= i < |list| && parameterList[i].name.text == WildcardName ==>
           list[i].firstName == Some(WithoutTrailingTrivia(parameterList[i].name))
           && list[i].colon.None? && list[i].paramType.None?
  {
  }

  lemma ParenthesisedWildcardsStayUnchanged(syntax: ClosureExpr, input: ParameterClause,
                                            closureType: FunctionType)
    requires syntax.signature.Some?
    ensures var s := RewriteParenthesised(syntax, input, closureType).signature;
      s.Some? && s.value.input.Some? && s.value.input.value.Clause?
      && var list := s.value.input.value.clause.parameterList;
         |list| == |input.parameterList|
         && forall i :: 0 <= i < |list| && IsWildcard(input.parameterList[i]) ==> list[i] == input.parameterList[i]
  {
  }

  lemma AnnotationsAgree(parameter: ClosureParam, t: SwiftType, comma: Option<Token>)
    ensures var p := AnnotateClosureParam(parameter, t).(trailingComma := comma);
      AnnotateFunctionParam(p, t) == p
  {
  }

  lemma AlreadyAnnotatedIsUnchanged(syntax: ClosureExpr, input: ParameterClause, closureType: FunctionType)
    requires syntax.signature.Some? && syntax.signature.value.output.Some?
    requires syntax.signature.value.input == Some(Clause(input))
    requires forall i :: 0 <= i < Min(|input.parameterList|, |closureType.input|) ==>
      CarriesAnnotation(input.parameterList[i], closureType.input[i])
    ensures RewriteParenthesised(syntax, input, closureType) == syntax
  {
    var list := input.parameterList;
    var newList := AnnotatedParameterList(list, closureType.input);
    assert |newList| == |list|;
    forall i | 0 <= i < |list|
      ensures newList[i] == list[i]
    {
      if i < |closureType.input| {
        assert CarriesAnnotation(list[i], closureType.input[i]);
      }
    }
    assert newList == list;
    assert input.(parameterList := newList) == input;
  }

  lemma ParenthesisedRewriteIdempotent(syntax: ClosureExpr, input: ParameterClause, closureType: FunctionType)
    requires syntax.signature.Some?
    ensures var r := RewriteParenthesised(syntax, input, closureType);
      r.signature.Some? && r.signature.value.input.Some? && r.signature.value.input.value.Clause?
      && RewriteParenthesised(r, r.signature.value.input.value.clause, closureType) == r
  {
    var r := RewriteParenthesised(syntax, input, closureType);
    var clause := r.signature.value.input.value.clause;
    forall i | 0 <= i < Min(|clause.parameterList|, |closureType.input|)
      ensures CarriesAnnotation(clause.parameterList[i], closureType.input[i])
    {
      assert clause.parameterList[i] == AnnotateFunctionParam(input.parameterList[i], closureType.input[i]);
    }
    AlreadyAnnotatedIsUnchanged(r, clause, closureType);
  }

  /** The parenthesised form, applied to what the bare form produced, changes nothing. */
  lemma BareRewriteIsStable(syntax: ClosureExpr, parameterList: seq<ClosureParam>, closureType: FunctionType)
    requires syntax.signature.Some?
    ensures var r := RewriteBare(syntax, parameterList, closureType);
      r.signature.Some? && r.signature.value.input.Some? && r.signature.value.input.value.Clause?
      && RewriteParenthesised(r, r.signature.value.input.value.clause, closureType) == r
  {
    var r := RewriteBare(syntax, parameterList, closureType);
    var clause := r.signature.value.input.value.clause;
    forall i | 0 <= i < Min(|clause.parameterList|, |closureType.input|)
      ensures CarriesAnnotation(clause.parameterList[i], closureType.input[i])
    {
      assert clause.parameterList[i].(trailingComma := None)
        == AnnotateClosureParam(parameterList[i], closureType.input[i]);
    }
    AlreadyAnnotatedIsUnchanged(r, clause, closureType);
  }

  // ---------------------------------------------------------------------------------------
  // Worked examples

  /** `{ x in }` resolved to `(Int) -> String` through a conversion node becomes `{ (x: Int) -> String in }`. */
  lemma ExampleBareThroughConversionNode()
    ensures
      var x := ClosureParam(Token("x", 0, 1), None);
      var syntax := ClosureExpr(Token("{", 0, 1),
        Some(ClosureSignature(None, Some(ParamList([x])), None, None, Token("in", 0, 1))), [], Token("}", 0, 0));
      var conversion := ASTNode(FunctionConversionExprName, Some("(Int) -> String"), []);
      var q := AstQueries(
        (n: ASTNode, p: Position) => Some(n),
        (n: ASTNode, name: string) => if name == FunctionConversionExprName then Some(conversion) else None,
        (text: string) => if text == "(Int) -> String" then Some(FunctionType([SwiftType("Int")], SwiftType("String"))) else None);
      Write(syntax, SourcePositions(2, 2), ASTNode("brace_stmt", None, []), q).signature
      == Some(ClosureSignature(None,
           Some(Clause(ParameterClause(LeftParenToken,
             [FunctionParameter(None, Some(Token("x", 0, 0)), None, Some(Token(":", 0, 1)),
                                Some(TypeIdentifier(Token("Int", 0, 0))), None, None, None)],
             RightParenToken))),
           None,
           Some(ReturnClause(Token("->", 1, 0), TypeIdentifier(Token("String", 1, 1)))),
           Token("in", 0, 1)))
  {
    var x := ClosureParam(Token("x", 0, 1), None);
    var signature := ClosureSignature(None, Some(ParamList([x])), None, None, Token("in", 0, 1));
    var syntax := ClosureExpr(Token("{", 0, 1), Some(signature), [], Token("}", 0, 0));
    var closureType := FunctionType([SwiftType("Int")], SwiftType("String"));
    var typed := TypedBareParameters([x], closureType.input);
    assert |typed| == 1;
    assert typed[0] == BareElement(0, x, SwiftType("Int"), 1);
    assert typed == [FunctionParameter(None, Some(Token("x", 0, 0)), None, Some(Token(":", 0, 1)),
                                       Some(TypeIdentifier(Token("Int", 0, 0))), None, None, None)];
  }

  /**
   * `{ _ -> CustomType in }` resolved to `(Int) -> String` becomes `{ (_)-> CustomType in }`: the
   * wildcard loses its trailing space, and the authored arrow has none before it.
   */
  lemma ExampleWildcardWithAuthoredReturnClause()
    ensures
      var wildcard := ClosureParam(Token("_", 0, 1), None);
      var authored := ReturnClause(Token("->", 0, 1), TypeIdentifier(Token("CustomType", 0, 1)));
      var syntax := ClosureExpr(Token("{", 0, 1),
        Some(ClosureSignature(None, Some(ParamList([wildcard])), None, Some(authored), Token("in", 0, 1))),
        [], Token("}", 0, 0));
      RewriteBare(syntax, [wildcard], FunctionType([SwiftType("Int")], SwiftType("String"))).signature
      == Some(ClosureSignature(None,
           Some(Clause(ParameterClause(LeftParenToken,
             [FunctionParameter(None, Some(Token("_", 0, 0)), None, None, None, None, None, None)],
             RightParenToken))),
           None, Some(authored), Token("in", 0, 1)))
  {
    var wildcard := ClosureParam(Token("_", 0, 1), None);
    var typed := TypedBareParameters([wildcard], [SwiftType("Int")]);
    assert |typed| == 1;
    assert typed[0] == BareElement(0, wildcard, SwiftType("Int"), 1);
    assert typed == [FunctionParameter(None, Some(Token("_", 0, 0)), None, None, None, None, None, None)];
  }
}