/// What the grammar of abrvalg/parser.py guarantees about the trees it builds and the
/// inputs it rejects.
module GrammarLemmas {
  import opened Results
  import opened Errors
  import opened Lexer
  import opened Ast
  import opened Grammar

  // ----- scopes -------------------------------------------------------------------------

  /// The nodes an expression parser builds.
  predicate ExpressionNode(n: Node) {
    n.Number? || n.String? || n.Identifier? || n.Array? || n.Dictionary? ||
    n.UnaryOperator? || n.BinaryOperator? || n.Call? || n.SubscriptOperator?
  }

  /// Statement `n`, met with scope stack `sc`, is well scoped: every `return` in it lies
  /// inside a function body, and every `break` and `continue` directly inside a loop body
  /// (a function body between the loop and the statement cuts the loop off).
  predicate Scoped(n: Node, sc: seq<ScopeTag>)
    decreases n
  {
    match n
    case Return(_) => FunctionScope in sc
    case Break => InLoop(sc)
    case Continue => InLoop(sc)
    case Function(_, _, body) => forall i :: 0 <= i < |body| ==> Scoped(body[i], sc + [FunctionScope])
    case WhileLoop(_, body) => forall i :: 0 <= i < |body| ==> Scoped(body[i], sc + [LoopScope])
    case ForLoop(_, _, body) => forall i :: 0 <= i < |body| ==> Scoped(body[i], sc + [LoopScope])
    case Condition(_, ifBody, elifs, elseBody) =>
      && (forall i :: 0 <= i < |ifBody| ==> Scoped(ifBody[i], sc))
      && (forall i, j :: 0 <= i < |elifs| && 0 <= j < |elifs[i].body| ==> Scoped(elifs[i].body[j], sc))
      && (elseBody.ElseBody? ==> forall i :: 0 <= i < |elseBody.body| ==> Scoped(elseBody.body[i], sc))
    case Match(_, patterns, elseBody) =>
      && (forall i, j :: 0 <= i < |patterns| && 0 <= j < |patterns[i].body| ==> Scoped(patterns[i].body[j], sc))
      && (elseBody.ElseBody? ==> forall i :: 0 <= i < |elseBody.body| ==> Scoped(elseBody.body[i], sc))
    case _ => true
  }

  predicate AllScoped(body: seq<Node>, sc: seq<ScopeTag>) {
    forall i :: 0 <= i < |body| ==> Scoped(body[i], sc)
  }

  predicate ElseScoped(elseBody: ElsePart, sc: seq<ScopeTag>) {
    elseBody.ElseBody? ==> AllScoped(elseBody.body, sc)
  }

  /// A parsed program is well scoped with the empty scope stack: no `return`, `break` or
  /// `continue` stands outside the construct it belongs to.
  lemma ProgramScoped(ts: seq<LexToken>)
    ensures ParseProgram(ts, 0).Ok? ==> AllScoped(ParseProgram(ts, 0).value.body, [])
  {
    StatementsRespectScope(ts, 0, [], []);
  }

  /// The converse, statement by statement: `return` is a syntax error at the keyword
  /// exactly when no function scope is on the stack; with one anywhere on the stack its
  /// parse does not depend on the stack, and a bare `return` is `Return(None)`.
  lemma ReturnRule(ts: seq<LexToken>, pos: nat, sc: seq<ScopeTag>, sc': seq<ScopeTag>)
    requires pos < |ts| && ts[pos].kind == RETURN
    ensures FunctionScope !in sc ==>
      Statement(ts, pos, sc) == Err(Syntax(SyntaxError("Return outside of function", ts[pos].line, ts[pos].column)))
    ensures FunctionScope in sc && FunctionScope in sc' ==> Statement(ts, pos, sc) == Statement(ts, pos, sc')
    ensures FunctionScope in sc && pos + 1 < |ts| && ts[pos + 1].kind == NEWLINE ==>
      Statement(ts, pos, sc) == Ok(Parsed(Some(Return(None)), pos + 2))
  {
    if FunctionScope in sc && pos + 1 < |ts| && ts[pos + 1].kind == NEWLINE {
      ExpectCurrent(ts, pos, RETURN);
      NoExpressionAt(ts, pos + 1);
      ExpectCurrent(ts, pos + 1, NEWLINE);
    }
  }

  /// `break` is a syntax error at the keyword exactly when the innermost scope is not a
  /// loop; directly inside a loop, `break NEWLINE` is `Break`.
  lemma BreakRule(ts: seq<LexToken>, pos: nat, sc: seq<ScopeTag>)
    requires pos < |ts| && ts[pos].kind == BREAK
    ensures !InLoop(sc) ==>
      Statement(ts, pos, sc) == Err(Syntax(SyntaxError("Break outside of loop", ts[pos].line, ts[pos].column)))
    ensures InLoop(sc) && pos + 1 < |ts| && ts[pos + 1].kind == NEWLINE ==>
      Statement(ts, pos, sc) == Ok(Parsed(Some(Break), pos + 2))
  {
  }

  /// `continue` follows the same rule as `break`.
  lemma ContinueRule(ts: seq<LexToken>, pos: nat, sc: seq<ScopeTag>)
    requires pos < |ts| && ts[pos].kind == CONTINUE
    ensures !InLoop(sc) ==>
      Statement(ts, pos, sc) == Err(Syntax(SyntaxError("Continue outside of loop", ts[pos].line, ts[pos].column)))
    ensures InLoop(sc) && pos + 1 < |ts| && ts[pos + 1].kind == NEWLINE ==>
      Statement(ts, pos, sc) == Ok(Parsed(Some(Continue), pos + 2))
  {
  }

  lemma {:induction false} StatementsRespectScope(ts: seq<LexToken>, pos: nat, sc: seq<ScopeTag>, stmts: seq<Node>)
    requires pos <= |ts| && AllScoped(stmts, sc)
    ensures Statements(ts, pos, sc, stmts).Ok? ==> AllScoped(Statements(ts, pos, sc, stmts).value.value, sc)
    decreases |ts| - pos, 3
  {
    if pos < |ts| {
      StatementRespectsScope(ts, pos, sc);
      match Statement(ts, pos, sc)
      case Err(_) =>
      case Ok(s) =>
        if s.value.Some? {
          StatementsRespectScope(ts, s.pos, sc, stmts + [s.value.value]);
        }
    }
  }

  lemma {:induction false} StatementRespectsScope(ts: seq<LexToken>, pos: nat, sc: seq<ScopeTag>)
    requires pos < |ts|
    ensures var r := Statement(ts, pos, sc); r.Ok? && r.value.value.Some? ==> Scoped(r.value.value.value, sc)
    decreases |ts| - pos, 2
  {
    var k := ts[pos].kind;
    if k == FUNCTION {
      FunctionRespectsScope(ts, pos, sc);
      assert Statement(ts, pos, sc) == Present(FunctionStatement(ts, pos, sc));
    } else if k == IF {
      ConditionalRespectsScope(ts, pos, sc);
      assert Statement(ts, pos, sc) == Present(ConditionalStatement(ts, pos, sc));
    } else if k == MATCH {
      MatchRespectsScope(ts, pos, sc);
      assert Statement(ts, pos, sc) == Present(MatchStatement(ts, pos, sc));
    } else if k == WHILE {
      WhileRespectsScope(ts, pos, sc);
      assert Statement(ts, pos, sc) == Present(WhileStatement(ts, pos, sc));
    } else if k == FOR {
      ForRespectsScope(ts, pos, sc);
      assert Statement(ts, pos, sc) == Present(ForStatement(ts, pos, sc));
    } else if k == RETURN || k == BREAK || k == CONTINUE {
      JumpRespectsScope(ts, pos, sc);
    } else {
      ExpressionStatementScoped(ts, pos, sc);
      assert Statement(ts, pos, sc) == ExpressionStatement(ts, pos);
    }
  }

  /// A `return`, `break` or `continue` statement is parsed only where its scope allows it.
  lemma JumpRespectsScope(ts: seq<LexToken>, pos: nat, sc: seq<ScopeTag>)
    requires pos < |ts| && (ts[pos].kind == RETURN || ts[pos].kind == BREAK || ts[pos].kind == CONTINUE)
    ensures var r := Statement(ts, pos, sc); r.Ok? && r.value.value.Some? ==> Scoped(r.value.value.value, sc)
  {
    var k := ts[pos].kind;
    if k == RETURN {
      assert Statement(ts, pos, sc) == Present(ReturnStatement(ts, pos, sc));
    } else if k == BREAK {
      assert Statement(ts, pos, sc) == Present(BreakStatement(ts, pos, sc));
    } else {
      assert Statement(ts, pos, sc) == Present(ContinueStatement(ts, pos, sc));
    }
  }

  lemma {:induction false} BlockRespectsScope(ts: seq<LexToken>, pos: nat, sc: seq<ScopeTag>)
    requires pos <= |ts|
    ensures Block(ts, pos, sc).Ok? ==> AllScoped(Block(ts, pos, sc).value.value, sc)
    decreases |ts| - pos, 1
  {
    match Expect(ts, pos, [NEWLINE, INDENT])
    case Err(_) =>
    case Ok(i) => StatementsRespectScope(ts, i.pos, sc, []);
  }

  lemma {:induction false} ColonBlockRespectsScope(ts: seq<LexToken>, pos: nat, sc: seq<ScopeTag>)
    requires pos <= |ts|
    ensures ColonBlock(ts, pos, sc).Ok? ==> AllScoped(ColonBlock(ts, pos, sc).value.value, sc)
    decreases |ts| - pos, 1
  {
    match Expect(ts, pos, [COLON])
    case Err(_) =>
    case Ok(c) => BlockRespectsScope(ts, c.pos, sc);
  }

  lemma {:induction false} FunctionRespectsScope(ts: seq<LexToken>, pos: nat, sc: seq<ScopeTag>)
    requires pos <= |ts|
    ensures FunctionStatement(ts, pos, sc).Ok? ==> Scoped(FunctionStatement(ts, pos, sc).value.value, sc)
    decreases |ts| - pos, 1
  {
    match Expect(ts, pos, [FUNCTION])
    case Err(_) =>
    case Ok(f) =>
      match Expect(ts, f.pos, [NAME])
      case Err(_) =>
      case Ok(n) =>
        match Expect(ts, n.pos, [LPAREN])
        case Err(_) =>
        case Ok(l) => FunctionRestRespectsScope(ts, l.pos, sc, n.value.value.s);
  }

  lemma {:induction false} FunctionRestRespectsScope(ts: seq<LexToken>, pos: nat, sc: seq<ScopeTag>, name: string)
    requires pos <= |ts|
    ensures FunctionRest(ts, pos, sc, name).Ok? ==> Scoped(FunctionRest(ts, pos, sc, name).value.value, sc)
    decreases |ts| - pos, 1
  {
    match Params(ts, pos)
    case Err(_) =>
    case Ok(ps) =>
      match Expect(ts, ps.pos, [RPAREN, COLON])
      case Err(_) =>
      case Ok(c) => BlockRespectsScope(ts, c.pos, sc + [FunctionScope]);
  }

  lemma {:induction false} ConditionalRespectsScope(ts: seq<LexToken>, pos: nat, sc: seq<ScopeTag>)
    requires pos <= |ts|
    ensures ConditionalStatement(ts, pos, sc).Ok? ==> Scoped(ConditionalStatement(ts, pos, sc).value.value, sc)
    decreases |ts| - pos, 1
  {
    match Expect(ts, pos, [IF])
    case Err(_) =>
    case Ok(i) =>
      match Expression(ts, i.pos, 0)
      case Err(_) =>
      case Ok(t) =>
        if t.value.Some? {
          ColonBlockRespectsScope(ts, t.pos, sc);
          match ColonBlock(ts, t.pos, sc)
          case Err(_) =>
          case Ok(b) => ConditionalRestRespectsScope(ts, b.pos, sc, t.value.value, b.value);
        }
  }

  lemma {:induction false} ConditionalRestRespectsScope(ts: seq<LexToken>, pos: nat, sc: seq<ScopeTag>, test: Node, ifBody: seq<Node>)
    requires pos <= |ts| && AllScoped(ifBody, sc)
    ensures ConditionalRest(ts, pos, sc, test, ifBody).Ok? ==> Scoped(ConditionalRest(ts, pos, sc, test, ifBody).value.value, sc)
    decreases |ts| - pos, 2
  {
    ElifsRespectScope(ts, pos, sc, []);
    match Elifs(ts, pos, sc, [])
    case Err(_) =>
    case Ok(el) => ElseRespectsScope(ts, el.pos, sc);
  }

  predicate ElifsScoped(conds: seq<ConditionElif>, sc: seq<ScopeTag>) {
    forall i :: 0 <= i < |conds| ==> AllScoped(conds[i].body, sc)
  }

  lemma {:induction false} ElifsRespectScope(ts: seq<LexToken>, pos: nat, sc: seq<ScopeTag>, conds: seq<ConditionElif>)
    requires pos <= |ts| && ElifsScoped(conds, sc)
    ensures Elifs(ts, pos, sc, conds).Ok? ==> ElifsScoped(Elifs(ts, pos, sc, conds).value.value, sc)
    decreases |ts| - pos, 1
  {
    if pos < |ts| && ts[pos].kind == ELIF {
      ElifRespectsScope(ts, pos, sc);
      match Elif(ts, pos, sc)
      case Err(_) =>
      case Ok(c) => ElifsRespectScope(ts, c.pos, sc, conds + [c.value]);
    }
  }

  lemma {:induction false} ElifRespectsScope(ts: seq<LexToken>, pos: nat, sc: seq<ScopeTag>)
    requires pos <= |ts|
    ensures Elif(ts, pos, sc).Ok? ==> AllScoped(Elif(ts, pos, sc).value.value.body, sc)
    decreases |ts| - pos, 0
  {
    match Expect(ts, pos, [ELIF])
    case Err(_) =>
    case Ok(i) =>
      match Expression(ts, i.pos, 0)
      case Err(_) =>
      case Ok(t) => ColonBlockRespectsScope(ts, t.pos, sc);
  }

  lemma {:induction false} ElseRespectsScope(ts: seq<LexToken>, pos: nat, sc: seq<ScopeTag>)
    requires pos <= |ts|
    ensures ElseBlock(ts, pos, sc).Ok? ==> ElseScoped(ElseBlock(ts, pos, sc).value.value, sc)
    decreases |ts| - pos, 1
  {
    if pos < |ts| && ts[pos].kind == ELSE {
      match Expect(ts, pos, [ELSE, COLON])
      case Err(_) =>
      case Ok(c) => BlockRespectsScope(ts, c.pos, sc);
    }
  }

  lemma {:induction false} MatchRespectsScope(ts: seq<LexToken>, pos: nat, sc: seq<ScopeTag>)
    requires pos <= |ts|
    ensures MatchStatement(ts, pos, sc).Ok? ==> Scoped(MatchStatement(ts, pos, sc).value.value, sc)
    decreases |ts| - pos, 1
  {
    match Expect(ts, pos, [MATCH])
    case Err(_) =>
    case Ok(m) =>
      match Expression(ts, m.pos, 0)
      case Err(_) =>
      case Ok(t) =>
        match Expect(ts, t.pos, [COLON, NEWLINE, INDENT])
        case Err(_) =>
        case Ok(c) => MatchClausesRespectScope(ts, c.pos, sc, t.value);
  }

  lemma {:induction false} MatchClausesRespectScope(ts: seq<LexToken>, pos: nat, sc: seq<ScopeTag>, subject: Option<Node>)
    requires pos <= |ts|
    ensures MatchClauses(ts, pos, sc, subject).Ok? ==> Scoped(MatchClauses(ts, pos, sc, subject).value.value, sc)
    decreases |ts| - pos, 2
  {
    WhensRespectScope(ts, pos, sc, []);
    match Whens(ts, pos, sc, [])
    case Err(_) =>
    case Ok(w) => ElseRespectsScope(ts, w.pos, sc);
  }

  predicate PatternsScoped(pats: seq<MatchPattern>, sc: seq<ScopeTag>) {
    forall i :: 0 <= i < |pats| ==> AllScoped(pats[i].body, sc)
  }

  lemma {:induction false} WhensRespectScope(ts: seq<LexToken>, pos: nat, sc: seq<ScopeTag>, pats: seq<MatchPattern>)
    requires pos <= |ts| && PatternsScoped(pats, sc)
    ensures Whens(ts, pos, sc, pats).Ok? ==> PatternsScoped(Whens(ts, pos, sc, pats).value.value, sc)
    decreases |ts| - pos, 1
  {
    if pos < |ts| && ts[pos].kind == WHEN {
      WhenRespectsScope(ts, pos, sc);
      match When(ts, pos, sc)
      case Err(_) =>
      case Ok(w) => WhensRespectScope(ts, w.pos, sc, pats + [w.value]);
    }
  }

  lemma {:induction false} WhenRespectsScope(ts: seq<LexToken>, pos: nat, sc: seq<ScopeTag>)
    requires pos <= |ts|
    ensures When(ts, pos, sc).Ok? ==> AllScoped(When(ts, pos, sc).value.value.body, sc)
    decreases |ts| - pos, 0
  {
    match Expect(ts, pos, [WHEN])
    case Err(_) =>
    case Ok(w) =>
      match Expression(ts, w.pos, 0)
      case Err(_) =>
      case Ok(p) => ColonBlockRespectsScope(ts, p.pos, sc);
  }

  lemma {:induction false} WhileRespectsScope(ts: seq<LexToken>, pos: nat, sc: seq<ScopeTag>)
    requires pos <= |ts|
    ensures WhileStatement(ts, pos, sc).Ok? ==> Scoped(WhileStatement(ts, pos, sc).value.value, sc)
    decreases |ts| - pos, 1
  {
    match Expect(ts, pos, [WHILE])
    case Err(_) =>
    case Ok(w) =>
      match Expression(ts, w.pos, 0)
      case Err(_) =>
      case Ok(t) => ColonBlockRespectsScope(ts, t.pos, sc + [LoopScope]);
  }

  lemma {:induction false} ForRespectsScope(ts: seq<LexToken>, pos: nat, sc: seq<ScopeTag>)
    requires pos <= |ts|
    ensures ForStatement(ts, pos, sc).Ok? ==> Scoped(ForStatement(ts, pos, sc).value.value, sc)
    decreases |ts| - pos, 1
  {
    match Expect(ts, pos, [FOR])
    case Err(_) =>
    case Ok(f) =>
      match Expect(ts, f.pos, [NAME])
      case Err(_) =>
      case Ok(n) => ForRestRespectsScope(ts, n.pos, sc, n.value.value.s);
  }

  lemma {:induction false} ForRestRespectsScope(ts: seq<LexToken>, pos: nat, sc: seq<ScopeTag>, name: string)
    requires pos <= |ts|
    ensures ForRest(ts, pos, sc, name).Ok? ==> Scoped(ForRest(ts, pos, sc, name).value.value, sc)
    decreases |ts| - pos, 1
  {
    match Expect(ts, pos, [IN])
    case Err(_) =>
    case Ok(i) =>
      match Expression(ts, i.pos, 0)
      case Err(_) =>
      case Ok(x) => ColonBlockRespectsScope(ts, x.pos, sc + [LoopScope]);
  }

  /// An expression statement holds no statement, so it is well scoped anywhere.
  lemma ExpressionStatementScoped(ts: seq<LexToken>, pos: nat, sc: seq<ScopeTag>)
    requires pos <= |ts|
    ensures var r := ExpressionStatement(ts, pos); r.Ok? && r.value.value.Some? ==>
      r.value.value.value.Assignment? || ExpressionNode(r.value.value.value)
    ensures var r := ExpressionStatement(ts, pos); r.Ok? && r.value.value.Some? ==> Scoped(r.value.value.value, sc)
  {
    ExpressionShape(ts, pos, 0);
  }

  // ----- the shape of expressions -------------------------------------------------------

  /// An expression parser builds an expression node.
  lemma {:induction false} ExpressionShape(ts: seq<LexToken>, pos: nat, prec: int)
    requires pos <= |ts| && prec >= 0
    ensures var r := Expression(ts, pos, prec); r.Ok? && r.value.value.Some? ==> ExpressionNode(r.value.value.value)
    decreases |ts| - pos, 3
  {
    if pos < |ts| && HasPrefix(ts[pos].kind) {
      PrefixShape(ts, pos);
      match PrefixExpression(ts, pos)
      case Err(_) =>
      case Ok(p) =>
        if p.value.Some? {
          AbsorbShape(ts, p.pos, prec, p.value.value);
        }
    }
  }

  lemma {:induction false} AbsorbShape(ts: seq<LexToken>, pos: nat, prec: int, left: Node)
    requires pos <= |ts| && prec >= 0 && ExpressionNode(left)
    ensures Absorb(ts, pos, prec, left).Ok? ==> ExpressionNode(Absorb(ts, pos, prec, left).value.value)
    decreases |ts| - pos, 2
  {
    match NextPrecedence(ts, pos)
    case Err(_) =>
    case Ok(np) =>
      if prec < np {
        InfixShape(ts, pos, left);
        match InfixExpression(ts, pos, left)
        case Err(_) =>
        case Ok(p) => AbsorbShape(ts, p.pos, prec, p.value);
      }
  }

  lemma {:induction false} PrefixShape(ts: seq<LexToken>, pos: nat)
    requires pos < |ts| && HasPrefix(ts[pos].kind)
    ensures var r := PrefixExpression(ts, pos); r.Ok? && r.value.value.Some? ==> ExpressionNode(r.value.value.value)
    decreases |ts| - pos, 1
  {
    var k := ts[pos].kind;
    if k == LPAREN {
      match Expect(ts, pos, [LPAREN])
      case Err(_) =>
      case Ok(l) => ExpressionShape(ts, l.pos, 0);
    } else if k == OPERATOR {
      assert UnaryExpression(ts, pos).Ok? ==> UnaryExpression(ts, pos).value.value.UnaryOperator?;
    }
  }

  /// An infix parser builds a binary operator, a call or a subscript.
  lemma InfixShape(ts: seq<LexToken>, pos: nat, left: Node)
    requires pos < |ts| && HasInfix(ts[pos].kind)
    ensures var r := InfixExpression(ts, pos, left);
      r.Ok? ==> r.value.value.BinaryOperator? || r.value.value.Call? || r.value.value.SubscriptOperator?
  {
    var k := ts[pos].kind;
    if k == OPERATOR {
      BinaryShape(ts, pos, left);
    } else if k == LPAREN {
      CallShape(ts, pos, left);
    } else {
      SubscriptShape(ts, pos, left);
    }
  }

  lemma BinaryShape(ts: seq<LexToken>, pos: nat, left: Node)
    requires pos <= |ts|
    ensures BinaryExpression(ts, pos, left).Ok? ==> BinaryExpression(ts, pos, left).value.value.BinaryOperator?
  {
  }

  lemma CallShape(ts: seq<LexToken>, pos: nat, left: Node)
    requires pos <= |ts|
    ensures CallExpression(ts, pos, left).Ok? ==> CallExpression(ts, pos, left).value.value.Call?
  {
  }

  lemma SubscriptShape(ts: seq<LexToken>, pos: nat, left: Node)
    requires pos <= |ts|
    ensures SubscriptExpression(ts, pos, left).Ok? ==> SubscriptExpression(ts, pos, left).value.value.SubscriptOperator?
  {
  }

  // ----- operators, lists and clauses ---------------------------------------------------

  /// Calls and subscripts bind tighter than a unary operator's operand, which binds
  /// tighter than every binary operator; among those, `* / %` bind tightest, then
  /// `+ -`, the orderings, the equalities, `&&`, `||`, and the ranges loosest.
  lemma BindingPowers()
    ensures forall op :: op in Precedences ==> 1 <= Precedences[op] < UnaryPower < CallPower
    ensures Precedences["*"] == Precedences["/"] == Precedences["%"] == 7
    ensures Precedences["+"] == Precedences["-"] == 6
    ensures Precedences["<"] == Precedences["<="] == Precedences[">"] == Precedences[">="] == 5
    ensures Precedences["=="] == Precedences["!="] == 4
    ensures Precedences["&&"] == 3 && Precedences["||"] == 2
    ensures Precedences[".."] == Precedences["..."] == 1
  {
  }

  /// A binary operator's right operand is parsed at the operator's own binding power, so
  /// it stops before any operator that binds no tighter: `a - b - c` groups as
  /// `(a - b) - c`.
  lemma RightOperandStops(ts: seq<LexToken>, pos: nat, left: Node)
    requires pos <= |ts|
    ensures var r := BinaryExpression(ts, pos, left);
      r.Ok? ==>
        && pos < |ts| && ts[pos].kind == OPERATOR && ts[pos].value.s in Precedences
        && r.value.value.BinaryOperator?
        && r.value.value.operator == ts[pos].value.s && r.value.value.left == left
        && StopsAt(ts, r.value.pos, Precedences[ts[pos].value.s])
  {
  }

  /// Expecting the kind the current token has consumes that token.
  lemma ExpectCurrent(ts: seq<LexToken>, pos: nat, k: Kind)
    requires pos < |ts| && ts[pos].kind == k
    ensures Expect(ts, pos, [k]) == Ok(Parsed(ts[pos], pos + 1))
  {
  }

  /// Only `-` and `!` are prefix operators: any other operator in prefix position is a
  /// syntax error at that operator.
  lemma UnsupportedUnary(ts: seq<LexToken>, pos: nat)
    requires pos < |ts| && ts[pos].kind == OPERATOR && ts[pos].value.s != "-" && ts[pos].value.s != "!"
    ensures UnaryExpression(ts, pos)
      == Err(Syntax(SyntaxError("Unary operator " + ts[pos].value.s + " is not supported", ts[pos].line, ts[pos].column)))
  {
    ExpectCurrent(ts, pos, OPERATOR);
  }

  /// A unary operator's operand binds at the unary power, so it absorbs calls and
  /// subscripts but no binary operator: `-a * b` groups as `(-a) * b`.
  lemma UnaryOperandStops(ts: seq<LexToken>, pos: nat)
    requires pos <= |ts|
    ensures var r := UnaryExpression(ts, pos);
      r.Ok? ==>
        && pos < |ts| && (ts[pos].value.s == "-" || ts[pos].value.s == "!")
        && r.value.value.UnaryOperator? && r.value.value.operator == ts[pos].value.s
        && StopsAt(ts, r.value.pos, UnaryPower)
  {
    if pos < |ts| && ts[pos].kind == OPERATOR {
      ExpectCurrent(ts, pos, OPERATOR);
    }
  }

  /// A `match` whose block does not start with `when` is a syntax error at that token.
  lemma MatchNeedsWhen(ts: seq<LexToken>, pos: nat, sc: seq<ScopeTag>, subject: Option<Node>)
    requires pos < |ts| && ts[pos].kind != WHEN
    ensures MatchClauses(ts, pos, sc, subject)
      == Err(Syntax(SyntaxError("One or more `when` pattern excepted", ts[pos].line, ts[pos].column)))
  {
  }

  /// A list of expressions may end with a comma: after it, a token that starts no
  /// expression ends the list.
  lemma ListTrailingComma(ts: seq<LexToken>, pos: nat, items: seq<Node>, x: Node, next: nat)
    requires pos < |ts| && Expression(ts, pos, 0) == Ok(Parsed(Some(x), next))
    requires next + 1 < |ts| && ts[next].kind == COMMA && !HasPrefix(ts[next + 1].kind)
    ensures ListOfExpressions(ts, pos, items) == Ok(Parsed(items + [x], next + 1))
  {
    ListStep(ts, pos, items, x, next);
  }

  /// Dictionary entries may end with a comma too.
  lemma EntriesTrailingComma(ts: seq<LexToken>, pos: nat, entries: seq<Entry>, e: Entry, next: nat)
    requires pos < |ts| && KeyValue(ts, pos) == Ok(Parsed(Some(e), next))
    requires next + 1 < |ts| && ts[next].kind == COMMA && !HasPrefix(ts[next + 1].kind)
    ensures KeyValues(ts, pos, entries) == Ok(Parsed(entries + [e], next + 1))
  {
    KeyValuesStep(ts, pos, entries, e, next);
    EntriesEndAt(ts, next + 1, entries + [e]);
  }

  /// A token that starts no expression starts no expression.
  lemma NoExpressionAt(ts: seq<LexToken>, p: nat)
    requires p < |ts| && !HasPrefix(ts[p].kind)
    ensures Expression(ts, p, 0) == Ok(Parsed(None, p))
  {
  }

  /// Dictionary entries end at a token that starts no expression.
  lemma EntriesEndAt(ts: seq<LexToken>, p: nat, entries: seq<Entry>)
    requires p < |ts| && !HasPrefix(ts[p].kind)
    ensures KeyValues(ts, p, entries) == Ok(Parsed(entries, p))
  {
    NoExpressionAt(ts, p);
    assert KeyValue(ts, p) == Ok(Parsed(None, p));
  }

  /// A parameter list may not end with a comma: after it a name is required.
  lemma ParamsRejectTrailingComma(ts: seq<LexToken>, pos: nat, params: seq<string>)
    requires pos + 2 < |ts| && ts[pos].kind == NAME && ts[pos + 1].kind == COMMA && ts[pos + 2].kind != NAME
    ensures ParamsFrom(ts, pos, params)
      == Err(Syntax(SyntaxError(ExpectedMessage(NAME, ts[pos + 2].kind), ts[pos + 2].line, ts[pos + 2].column)))
  {
    ParamsStep(ts, pos, params, ts[pos]);
  }

  // ----- statements ---------------------------------------------------------------------

  /// Any expression followed by `=` starts an assignment to that expression, whatever its
  /// form; the right-hand side must then end the line.
  lemma AssignmentToAnyExpression(ts: seq<LexToken>, pos: nat, x: Node, k: nat)
    requires pos <= |ts| && Expression(ts, pos, 0) == Ok(Parsed(Some(x), k))
    requires k < |ts| && ts[k].kind == ASSIGN
    ensures ExpressionStatement(ts, pos) == Present(AssignmentStatement(ts, k, x))
    ensures var r := AssignmentStatement(ts, k, x);
      r.Ok? ==> r.value.value.Assignment? && r.value.value.left == x && ts[r.value.pos - 1].kind == NEWLINE
  {
    assert CurrentAt(ts, k) == Ok(ts[k]);
    AssignmentEndsLine(ts, k, x);
  }

  /// An assignment binds the expression before `=` and ends with the line.
  lemma AssignmentEndsLine(ts: seq<LexToken>, k: nat, x: Node)
    requires k <= |ts|
    ensures var r := AssignmentStatement(ts, k, x);
      r.Ok? ==> r.value.value.Assignment? && r.value.value.left == x && ts[r.value.pos - 1].kind == NEWLINE
  {
  }

  /// A number alone on a line, as the lexer gives it.
  predicate NumberLine(ts: seq<LexToken>, v: Numeral) {
    |ts| == 2 && ts[0].kind == NUMBER && ts[0].value == Num(v) && ts[1].kind == NEWLINE
  }

  lemma NumberExpressionAlone(ts: seq<LexToken>, v: Numeral)
    requires NumberLine(ts, v)
    ensures Expression(ts, 0, 0) == Ok(Parsed(Some(Number(v)), 1))
  {
    ExpectCurrent(ts, 0, NUMBER);
    assert PrefixExpression(ts, 0) == Ok(Parsed(Some(Number(v)), 1));
    assert Absorb(ts, 1, 0, Number(v)) == Ok(Parsed(Number(v), 1));
  }

  lemma NumberStatementAlone(ts: seq<LexToken>, v: Numeral)
    requires NumberLine(ts, v)
    ensures Statement(ts, 0, []) == Ok(Parsed(Some(Number(v)), 2))
  {
    NumberExpressionAlone(ts, v);
    ExpectCurrent(ts, 1, NEWLINE);
    assert ExpressionStatement(ts, 0) == Ok(Parsed(Some(Number(v)), 2));
  }

  lemma NumberStatementCollected(ts: seq<LexToken>, v: Numeral)
    requires NumberLine(ts, v)
    ensures Statements(ts, 0, [], []) == Statements(ts, 2, [], [Number(v)])
  {
    NumberStatementAlone(ts, v);
    var none: seq<Node> := [];
    assert none + [Number(v)] == [Number(v)];
    StatementsStep(ts, 0, [], none, Number(v), 2);
  }

  /// At the end of the input the statement loop stops.
  lemma StatementsAtEnd(ts: seq<LexToken>, sc: seq<ScopeTag>, stmts: seq<Node>)
    ensures Statements(ts, |ts|, sc, stmts) == Ok(Parsed(stmts, |ts|))
  {
  }

  /// The program `1` parses to the body `[Number(1)]`: the number, then the end of the
  /// line, then the end of the input.
  lemma SingleNumberProgram(ts: seq<LexToken>, v: Numeral)
    requires NumberLine(ts, v)
    ensures ParseProgram(ts, 0) == Ok(Program([Number(v)]))
  {
    NumberStatementsAlone(ts, v);
    assert EndCheck(ts, 2).None?;
  }

  lemma NumberStatementsAlone(ts: seq<LexToken>, v: Numeral)
    requires NumberLine(ts, v)
    ensures Statements(ts, 0, [], []) == Ok(Parsed([Number(v)], 2))
  {
    NumberStatementCollected(ts, v);
    StatementsAtEnd(ts, [], [Number(v)]);
  }

  /// A statement parsed at `pos` is collected, and the loop goes on after it.
  lemma StatementsStep(ts: seq<LexToken>, pos: nat, sc: seq<ScopeTag>, stmts: seq<Node>, x: Node, next: nat)
    requires pos < |ts| && next <= |ts| && Statement(ts, pos, sc) == Ok(Parsed(Some(x), next))
    ensures Statements(ts, pos, sc, stmts) == Statements(ts, next, sc, stmts + [x])
  {
  }
}
