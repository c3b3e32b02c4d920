# Closure-signature rewriter of SwiftTypeInjector

SwiftTypeInjector adds explicit types to Swift closures. It reads the types the compiler
inferred from the compiler's type-checked AST dump and writes them into the closure's
signature. This project models the rewriter for one closure. The rewriter takes the closure's
SwiftSyntax node and the dump. When every lookup succeeds, it returns a new closure node in
which each non-wildcard parameter paired with an input type has a type annotation. When the
closure had no return clause, the new node also has one. Parameters beyond the number of input
types are dropped in the bare form and left as they were in the parenthesised form.

The rewriter handles two signature shapes:

- the bare list `{ i, j in }`, which becomes a parenthesised clause `(i: Int, j: Int)`;
- the parenthesised clause `{ (i, j) in }`, which is annotated in place.

Every step that cannot find what it needs returns the closure unchanged.

Files:

- `wrappers.dfy`: `Option`, optional chaining (`Map`) and nil-coalescing (`OrElse`).
- `sequences.dfy`: `Min` and Swift's `zip`.
- `syntax.dfy`: the SwiftSyntax values the rewrite touches. A token carries its text and its
  leading and trailing trivia as counts of spaces. A `with…` call is a datatype update.
- `type_checked_ast.dfy`: AST dump nodes, function types, and the three helpers the rewriter
  calls: `find(point:)`, `find(where:)` and `parseFunctionType`. Their implementations are not
  part of this model. They are passed in as total functions (`AstQueries`), and nothing is
  assumed about what they return.
- `closure_expr_rewriter.dfy`: the rewriter, one function per Swift method.
- `closure_expr_rewriter_properties.dfy`: what the rewriter guarantees, as lemmas.

What the code does, as modelled:

- Neither form checks arity. An arity mismatch does not leave the closure unchanged: `zip`
  pairs parameters with input types and stops at the shorter list, so the bare form drops the
  surplus names and the parenthesised form leaves the surplus parameters untouched
  (`RewriteBare`, `RewriteParenthesised`).
- In the bare form, a comma goes after every parameter except the one at index
  `parameterList.count - 1`. So when there are more names than input types, every parameter
  written out keeps a comma (`BareSurplusParametersAllTakeCommas`).
- In the bare form the new `)` has no trivia and each name loses its trailing trivia. So an
  authored return clause loses the space before its arrow: `{ _ -> T in }` becomes
  `{ (_)-> T in }` (`ExampleWildcardWithAuthoredReturnClause`).
- The bare form reads the type of a `function_conversion_expr` node when one is found. Only
  when none is found does it use a `closure_expr` node. A conversion node without a type makes
  the rewrite a no-op: the closure node is not tried instead.
- The parenthesised form only ever reads a `closure_expr` node. It also looks up the node at
  the parameter list's position, starting from the root node, and that node must be named
  `parameter_list`.

## Model

| member | source | states |
|---|---|---|
| ClosureExprRewriter.Write | Sources/SwiftTypeInjector/Rewriter/ClosureExprRewriter.swift:5-13 | a parenthesised input goes to the parenthesised form, a bare list to the bare form, and a closure with no signature or no input comes back unchanged |
| ClosureExprRewriter.WriteBare | Sources/SwiftTypeInjector/Rewriter/ClosureExprRewriter.swift:16-60 | returns the closure unchanged when the position lookup fails, no conversion or closure node is found, the node has no type, or the type does not parse; when all of them succeed, it is the rewrite with the type parsed from the consulted node |
| ClosureExprRewriter.BareElement | Sources/SwiftTypeInjector/Rewriter/ClosureExprRewriter.swift:26-36 | an element is the annotated parameter with a comma and one trailing space, except at index `parameterList.count - 1`, which has no comma |
| ClosureExprRewriter.RewriteBare | Sources/SwiftTypeInjector/Rewriter/ClosureExprRewriter.swift:25-59 | only the signature's input and output change; the input becomes a clause with fresh parentheses and min(#params, #inputs) parameters in order, each annotated with the input type at its index, with a comma after every one except index `count - 1`; an authored return clause is kept as it was, otherwise the new one has an arrow with one leading space and the output type's description with one space on each side |
| ClosureExprRewriter.WriteParenthesised | Sources/SwiftTypeInjector/Rewriter/ClosureExprRewriter.swift:78-115 | returns the closure unchanged when a position lookup fails, no `closure_expr` node is found, it has no type, the type does not parse, or the node at the parameter list's position is not named `parameter_list`; when all of them succeed, it is the rewrite with the type parsed from the `closure_expr` node |
| ClosureExprRewriter.AnnotatedParameterList | Sources/SwiftTypeInjector/Rewriter/ClosureExprRewriter.swift:91-98 | the list keeps its length; the positions below #inputs hold the annotated parameters and the others are untouched |
| ClosureExprRewriter.RewriteParenthesised | Sources/SwiftTypeInjector/Rewriter/ClosureExprRewriter.swift:91-114 | only the signature's input and output change; the clause keeps its parentheses and length, positions below min(#params, #inputs) are annotated and the rest are untouched; an authored return clause is kept as it was, otherwise the new one has an arrow with no trivia and the output type's description with one space on each side |
| ClosureExprRewriter.ResolvedType | Sources/SwiftTypeInjector/Rewriter/ClosureExprRewriter.swift:20-21 | a type is obtained exactly when a node was found, it has a type, and `parseFunctionType` accepts that type's text; the type is then the parser's result |
| ClosureExprRewriter.BareTypeNode | Sources/SwiftTypeInjector/Rewriter/ClosureExprRewriter.swift:18-19 | the bare form reads the `function_conversion_expr` node when one is found, and the `closure_expr` node only otherwise |
| ClosureExprRewriter.AnnotateClosureParam | Sources/SwiftTypeInjector/Rewriter/ClosureExprRewriter.swift:62-74 | the new parameter's first name is the closure parameter's name without trailing trivia; there are no attributes, second name, ellipsis, default value or comma; the colon and type are absent exactly for `_`, and otherwise are a colon with one trailing space and a type identifier whose text is the type's description |
| ClosureExprRewriter.TypedBareParameters | Sources/SwiftTypeInjector/Rewriter/ClosureExprRewriter.swift:25-37 | one element per zipped pair (min of the two lengths), each the annotated parameter at that index, with a comma unless the index is `parameterList.count - 1` |
| ClosureExprRewriter.AnnotateFunctionParam | Sources/SwiftTypeInjector/Rewriter/ClosureExprRewriter.swift:117-122 | a `_` parameter comes back as given; any other one gets the colon with one trailing space and the type identifier; nothing but the colon and the type changes |
| ClosureExprRewriter.ReplaceChildren | Sources/SwiftTypeInjector/Rewriter/ClosureExprRewriter.swift:94-98 | the fold of `replacing(childAt:with:)` keeps the list's length, puts each typed element at its offset, and leaves every other element as it was |
| Sequences.Zip | Sources/SwiftTypeInjector/Rewriter/ClosureExprRewriter.swift:25 | `zip` has the length of the shorter sequence and pairs the elements at equal indices |
| ClosureExprRewriterProperties.BareConversionNodeWithoutType | Sources/SwiftTypeInjector/Rewriter/ClosureExprRewriter.swift:18-21 | a conversion node without a type makes the bare form a no-op, whatever the closure node holds |
| ClosureExprRewriterProperties.ParenthesisedIgnoresConversionNodes | Sources/SwiftTypeInjector/Rewriter/ClosureExprRewriter.swift:80 | two dumps that agree on position lookups, on `closure_expr` searches and on type parsing give the same parenthesised result |
| ClosureExprRewriterProperties.BareSurplusParametersAllTakeCommas | Sources/SwiftTypeInjector/Rewriter/ClosureExprRewriter.swift:31-36 | when there are more parameter names than input types, every parameter written out carries a trailing comma |
| ClosureExprRewriterProperties.WriteKeepsAllButInputAndOutput | Sources/SwiftTypeInjector/Rewriter/ClosureExprRewriter.swift:5-13 | a rewrite changes nothing of the closure but its signature's input and output: braces, statements, capture list, `throws` and `in` are kept |
| ClosureExprRewriterProperties.BareWildcardsStayUnannotated | Sources/SwiftTypeInjector/Rewriter/ClosureExprRewriter.swift:69 | in the bare form a `_` parameter keeps just its name, with no colon and no type |
| ClosureExprRewriterProperties.ParenthesisedWildcardsStayUnchanged | Sources/SwiftTypeInjector/Rewriter/ClosureExprRewriter.swift:118 | in the parenthesised form a `_` parameter is returned exactly as given |
| ClosureExprRewriterProperties.AnnotationsAgree | Sources/SwiftTypeInjector/Rewriter/ClosureExprRewriter.swift:62-74 | a parameter the bare form produced is left as it is by the parenthesised form's annotation with the same type |
| ClosureExprRewriterProperties.AlreadyAnnotatedIsUnchanged | Sources/SwiftTypeInjector/Rewriter/ClosureExprRewriter.swift:91-104 | a parenthesised closure with an authored return clause whose typed parameters already carry their annotations, or are `_`, is reproduced exactly |
| ClosureExprRewriterProperties.ParenthesisedRewriteIdempotent | Sources/SwiftTypeInjector/Rewriter/ClosureExprRewriter.swift:91-114 | rewriting the parenthesised form's output again with the same type changes nothing |
| ClosureExprRewriterProperties.BareRewriteIsStable | Sources/SwiftTypeInjector/Rewriter/ClosureExprRewriter.swift:25-59 | rewriting the bare form's output with the parenthesised form and the same type changes nothing |
| ClosureExprRewriterProperties.ExampleBareThroughConversionNode | Sources/SwiftTypeInjector/Rewriter/ClosureExprRewriter.swift:16-59 | `{ x in }` whose conversion node has type `(Int) -> String` becomes `{ (x: Int) -> String in }` |
| ClosureExprRewriterProperties.ExampleWildcardWithAuthoredReturnClause | Sources/SwiftTypeInjector/Rewriter/ClosureExprRewriter.swift:25-48 | `{ _ -> CustomType in }` with type `(Int) -> String` becomes `{ (_)-> CustomType in }`: the wildcard loses its trailing space and the authored arrow keeps its own trivia, none before it |

## Left out

- Sources/TypeCheckedAST/SwiftcInvocator.swift: it finds `swiftc` on `PATH`, launches it and drains its output pipe. That is process and file I/O, so it is not modelled.
- The AST dump parser, `ASTNode.find(point:)`, `ASTNode.find(where:)` and `parseFunctionType` are not part of this model. The rewriter receives them as arbitrary total functions. `find(where:)` appears only with name-equality predicates, which is the only way the rewriter uses it.
- Source positions (`syntax.position`, `input.parameterList.position`): SwiftSyntax computes them from the text. The model takes the two positions the rewriter reads as an input (`SourcePositions`). It does not model the positions of the rewritten nodes.
- Trivia is modelled as counts of spaces. Newlines, tabs and comments in trivia are not modelled.
- `Type.description` is an opaque string. Attributes, capture lists, default arguments and types other than a plain identifier are opaque token sequences.
- Serialising the syntax tree back to text is not modelled.
