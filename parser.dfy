/// The recursive-descent parser of abrvalg/parser.py: every sub-parser is a method that
/// advances the shared token cursor, the list parsers are loops, and the parser object
/// keeps the scope stack that function and loop bodies push and pop. Each method is proved
/// to return exactly what the corresponding function of module `Grammar` describes and to
/// leave the cursor where that function says.
module Parser {
  import opened Results
  import opened Errors
  import opened Lexer
  import opened Ast
  import opened Grammar

  /// A sub-parser's result `r`, with the cursor left at `pos`, is the outcome `o`: the same
  /// value and position, or the same exception.
  predicate Agrees<T(==)>(r: Result<T, ParseFailure>, pos: nat, o: Outcome<T>) {
    match o
    case Ok(p) => r == Ok(p.value) && pos == p.pos
    case Err(e) => r == Err(e)
  }

  /// `ParserError(message, token)` at the current token, fetched with `current()` or
  /// `consume()`: past the end of input, fetching it raises first.
  method ErrorAt<T>(tokens: TokenStream, message: string) returns (r: Result<T, ParseFailure>)
    requires tokens.Valid()
    ensures Agrees(r, tokens.pos, Fail(tokens.tokens, tokens.pos, message))
  {
    var token := tokens.Current();
    if token.Err? {
      return Err(token.error);
    }
    return Err(Syntax(SyntaxError(message, token.value.line, token.value.column)));
  }

  /// `tokens.consume_expected(*kinds)`, its result read as the grammar's outcome `Expect`.
  method ExpectTokens(tokens: TokenStream, kinds: seq<Kind>) returns (r: Result<LexToken, ParseFailure>)
    requires tokens.Valid() && |kinds| > 0
    modifies tokens
    ensures tokens.Valid()
    ensures Agrees(r, tokens.pos, Expect(tokens.tokens, old(tokens.pos), kinds))
  {
    r := tokens.ConsumeExpected(kinds);
  }

  /// A node result seen as a result that may hold no node.
  function Lift(r: Result<Node, ParseFailure>): (o: Result<Option<Node>, ParseFailure>)
    ensures r.Ok? <==> o.Ok?
    ensures r.Ok? ==> o.value == Some(r.value)
    ensures r.Err? ==> o.error == r.error
  {
    match r
    case Err(e) => Err(e)
    case Ok(n) => Ok(Some(n))
  }

  class Parser {
    /// The scope stack: which function and loop bodies enclose the current statement.
    var scope: seq<ScopeTag>

    constructor()
      ensures scope == []
    {
      scope := [];
    }

    /// `Parser.parse`: the program from the cursor on, with an empty scope stack.
    method Parse(tokens: TokenStream) returns (r: Result<Program, ParseFailure>)
      requires tokens.Valid()
      modifies this, tokens
      ensures r == ParseProgram(tokens.tokens, old(tokens.pos))
    {
      scope := [];
      var body := Statements(tokens);
      if body.Err? {
        return Err(body.error);
      }
      var end := tokens.ExpectEnd();
      if end.Some? {
        return Err(end.value);
      }
      return Ok(Program(body.value));
    }

    // ----- expressions ------------------------------------------------------------------

    /// `get_next_precedence`.
    method NextPrecedence(tokens: TokenStream) returns (r: Result<int, ParseFailure>)
      requires tokens.Valid()
      ensures r == Grammar.NextPrecedence(tokens.tokens, tokens.pos)
    {
      var atEnd := tokens.IsEnd();
      if !atEnd {
        var cur := tokens.Current();
        var token := cur.value;
        if token.kind == OPERATOR {
          if token.value.s !in Precedences {
            return Err(HostKeyError(token.value.s));
          }
          return Ok(Precedences[token.value.s]);
        } else if token.kind == LPAREN || token.kind == LBRACK {
          return Ok(CallPower);
        }
      }
      return Ok(0);
    }

    /// `Expression().parse(parser, tokens, precedence)`.
    method Expression(tokens: TokenStream, prec: int) returns (r: Result<Option<Node>, ParseFailure>)
      requires tokens.Valid() && prec >= 0
      modifies tokens
      ensures tokens.Valid()
      ensures Agrees(r, tokens.pos, Grammar.Expression(tokens.tokens, old(tokens.pos), prec))
      decreases |tokens.tokens| - tokens.pos, 3
    {
      var cur := tokens.Current();
      if cur.Err? {
        return Err(cur.error);
      }
      if !HasPrefix(cur.value.kind) {
        return Ok(None);
      }
      var prefix := Prefix(tokens, cur.value);
      if prefix.Err? {
        return Err(prefix.error);
      }
      if prefix.value.None? {
        return Ok(None);
      }
      ghost var start := tokens.pos;
      var left := prefix.value.value;
      while true
        invariant tokens.Valid() && start <= tokens.pos
        invariant Absorb(tokens.tokens, tokens.pos, prec, left) == Absorb(tokens.tokens, start, prec, prefix.value.value)
        decreases |tokens.tokens| - tokens.pos
      {
        var next := NextPrecedence(tokens);
        if next.Err? {
          return Err(next.error);
        }
        if prec >= next.value {
          return Ok(Some(left));
        }
        var op := Infix(tokens, left);
        if op.Err? {
          return Err(op.error);
        }
        left := op.value;
      }
    }

    /// The prefix sub-parser for `token`, the current token, and its `parse`.
    method Prefix(tokens: TokenStream, token: LexToken) returns (r: Result<Option<Node>, ParseFailure>)
      requires tokens.Valid() && tokens.pos < |tokens.tokens| && token == tokens.tokens[tokens.pos]
      requires HasPrefix(token.kind)
      modifies tokens
      ensures tokens.Valid()
      ensures Agrees(r, tokens.pos, PrefixExpression(tokens.tokens, old(tokens.pos)))
      decreases |tokens.tokens| - tokens.pos, 2
    {
      var node;
      if token.kind == NUMBER {
        node := NumberExpression(tokens);
      } else if token.kind == STRING {
        node := StringExpression(tokens);
      } else if token.kind == NAME {
        node := NameExpression(tokens);
      } else if token.kind == LPAREN {
        r := GroupExpression(tokens);
        return;
      } else if token.kind == LBRACK {
        node := ArrayExpression(tokens);
      } else if token.kind == LCBRACK {
        node := DictionaryExpression(tokens);
      } else {
        node := UnaryExpression(tokens);
      }
      return Lift(node);
    }

    method NumberExpression(tokens: TokenStream) returns (r: Result<Node, ParseFailure>)
      requires tokens.Valid()
      modifies tokens
      ensures tokens.Valid()
      ensures Agrees(r, tokens.pos, Grammar.NumberExpression(tokens.tokens, old(tokens.pos)))
    {
      var token := ExpectTokens(tokens, [NUMBER]);
      if token.Err? {
        return Err(token.error);
      }
      return Ok(Number(token.value.value.n));
    }

    method StringExpression(tokens: TokenStream) returns (r: Result<Node, ParseFailure>)
      requires tokens.Valid()
      modifies tokens
      ensures tokens.Valid()
      ensures Agrees(r, tokens.pos, Grammar.StringExpression(tokens.tokens, old(tokens.pos)))
    {
      var token := ExpectTokens(tokens, [STRING]);
      if token.Err? {
        return Err(token.error);
      }
      return Ok(String(token.value.value.s));
    }

    method NameExpression(tokens: TokenStream) returns (r: Result<Node, ParseFailure>)
      requires tokens.Valid()
      modifies tokens
      ensures tokens.Valid()
      ensures Agrees(r, tokens.pos, Grammar.NameExpression(tokens.tokens, old(tokens.pos)))
    {
      var token := ExpectTokens(tokens, [NAME]);
      if token.Err? {
        return Err(token.error);
      }
      return Ok(Identifier(token.value.value.s));
    }

    method UnaryExpression(tokens: TokenStream) returns (r: Result<Node, ParseFailure>)
      requires tokens.Valid()
      modifies tokens
      ensures tokens.Valid()
      ensures Agrees(r, tokens.pos, Grammar.UnaryExpression(tokens.tokens, old(tokens.pos)))
      decreases |tokens.tokens| - tokens.pos, 1
    {
      var token := ExpectTokens(tokens, [OPERATOR]);
      if token.Err? {
        return Err(token.error);
      }
      var op := token.value.value.s;
      if op != "-" && op != "!" {
        return Err(Syntax(SyntaxError("Unary operator " + op + " is not supported", token.value.line, token.value.column)));
      }
      var right := Expression(tokens, UnaryPower);
      if right.Err? {
        return Err(right.error);
      }
      if right.value.None? {
        r := ErrorAt(tokens, "Expected expression");
        return;
      }
      return Ok(UnaryOperator(op, right.value.value));
    }

    method GroupExpression(tokens: TokenStream) returns (r: Result<Option<Node>, ParseFailure>)
      requires tokens.Valid()
      modifies tokens
      ensures tokens.Valid()
      ensures Agrees(r, tokens.pos, Grammar.GroupExpression(tokens.tokens, old(tokens.pos)))
      decreases |tokens.tokens| - tokens.pos, 1
    {
      var open := ExpectTokens(tokens, [LPAREN]);
      if open.Err? {
        return Err(open.error);
      }
      var right := Expression(tokens, 0);
      if right.Err? {
        return Err(right.error);
      }
      var close := ExpectTokens(tokens, [RPAREN]);
      if close.Err? {
        return Err(close.error);
      }
      return Ok(right.value);
    }

    method ArrayExpression(tokens: TokenStream) returns (r: Result<Node, ParseFailure>)
      requires tokens.Valid()
      modifies tokens
      ensures tokens.Valid()
      ensures Agrees(r, tokens.pos, Grammar.ArrayExpression(tokens.tokens, old(tokens.pos)))
      decreases |tokens.tokens| - tokens.pos, 1
    {
      var open := ExpectTokens(tokens, [LBRACK]);
      if open.Err? {
        return Err(open.error);
      }
      var items := ListOfExpressions(tokens);
      if items.Err? {
        return Err(items.error);
      }
      var close := ExpectTokens(tokens, [RBRACK]);
      if close.Err? {
        return Err(close.error);
      }
      return Ok(Array(items.value));
    }

    method DictionaryExpression(tokens: TokenStream) returns (r: Result<Node, ParseFailure>)
      requires tokens.Valid()
      modifies tokens
      ensures tokens.Valid()
      ensures Agrees(r, tokens.pos, Grammar.DictionaryExpression(tokens.tokens, old(tokens.pos)))
      decreases |tokens.tokens| - tokens.pos, 1
    {
      var open := ExpectTokens(tokens, [LCBRACK]);
      if open.Err? {
        return Err(open.error);
      }
      var entries := KeyValues(tokens);
      if entries.Err? {
        return Err(entries.error);
      }
      var close := ExpectTokens(tokens, [RCBRACK]);
      if close.Err? {
        return Err(close.error);
      }
      return Ok(Dictionary(entries.value));
    }

    /// `DictionaryExpression._parse_keyvals`.
    method KeyValues(tokens: TokenStream) returns (r: Result<seq<Entry>, ParseFailure>)
      requires tokens.Valid()
      modifies tokens
      ensures tokens.Valid()
      ensures Agrees(r, tokens.pos, Grammar.KeyValues(tokens.tokens, old(tokens.pos), []))
      decreases |tokens.tokens| - tokens.pos, 5
    {
      var entries: seq<Entry> := [];
      while true
        invariant tokens.Valid() && old(tokens.pos) <= tokens.pos
        invariant Grammar.KeyValues(tokens.tokens, tokens.pos, entries) == Grammar.KeyValues(tokens.tokens, old(tokens.pos), [])
        decreases |tokens.tokens| - tokens.pos
      {
        var atEnd := tokens.IsEnd();
        if atEnd {
          return Ok(entries);
        }
        ghost var before := (tokens.pos, entries);
        var entry := KeyValue(tokens);
        if entry.Err? {
          return Err(entry.error);
        }
        if entry.value.None? {
          return Ok(entries);
        }
        entries := entries + [entry.value.value];
        var cur := tokens.Current();
        if cur.Err? {
          return Err(cur.error);
        }
        if cur.value.kind != COMMA {
          return Ok(entries);
        }
        KeyValuesStep(tokens.tokens, before.0, before.1, entry.value.value, tokens.pos);
        var comma := ExpectTokens(tokens, [COMMA]);
      }
    }

    /// One iteration of the `_parse_keyvals` loop: a key, its colon and its value.
    method KeyValue(tokens: TokenStream) returns (r: Result<Option<Entry>, ParseFailure>)
      requires tokens.Valid()
      modifies tokens
      ensures tokens.Valid()
      ensures Agrees(r, tokens.pos, Grammar.KeyValue(tokens.tokens, old(tokens.pos)))
      decreases |tokens.tokens| - tokens.pos, 4
    {
      var key := Expression(tokens, 0);
      if key.Err? {
        return Err(key.error);
      }
      if key.value.None? {
        return Ok(None);
      }
      var colon := ExpectTokens(tokens, [COLON]);
      if colon.Err? {
        return Err(colon.error);
      }
      var value := Expression(tokens, 0);
      if value.Err? {
        return Err(value.error);
      }
      if value.value.None? {
        r := ErrorAt(tokens, "Dictionary value expected");
        return;
      }
      return Ok(Some(Entry(key.value.value, value.value.value)));
    }

    /// The infix sub-parser for the current token, and its `parse`.
    method Infix(tokens: TokenStream, left: Node) returns (r: Result<Node, ParseFailure>)
      requires tokens.Valid() && tokens.pos < |tokens.tokens| && HasInfix(tokens.tokens[tokens.pos].kind)
      modifies tokens
      ensures tokens.Valid()
      ensures Agrees(r, tokens.pos, InfixExpression(tokens.tokens, old(tokens.pos), left))
      decreases |tokens.tokens| - tokens.pos, 1
    {
      var cur := tokens.Current();
      if cur.value.kind == OPERATOR {
        r := BinaryExpression(tokens, left);
      } else if cur.value.kind == LPAREN {
        r := CallExpression(tokens, left);
      } else {
        r := SubscriptExpression(tokens, left);
      }
    }

    method BinaryExpression(tokens: TokenStream, left: Node) returns (r: Result<Node, ParseFailure>)
      requires tokens.Valid()
      modifies tokens
      ensures tokens.Valid()
      ensures Agrees(r, tokens.pos, Grammar.BinaryExpression(tokens.tokens, old(tokens.pos), left))
      decreases |tokens.tokens| - tokens.pos, 0
    {
      var token := ExpectTokens(tokens, [OPERATOR]);
      if token.Err? {
        return Err(token.error);
      }
      var op := token.value.value.s;
      if op !in Precedences {
        return Err(HostKeyError(op));
      }
      var right := Expression(tokens, Precedences[op]);
      if right.Err? {
        return Err(right.error);
      }
      if right.value.None? {
        r := ErrorAt(tokens, "Expected expression");
        return;
      }
      return Ok(BinaryOperator(op, left, right.value.value));
    }

    method CallExpression(tokens: TokenStream, left: Node) returns (r: Result<Node, ParseFailure>)
      requires tokens.Valid()
      modifies tokens
      ensures tokens.Valid()
      ensures Agrees(r, tokens.pos, Grammar.CallExpression(tokens.tokens, old(tokens.pos), left))
      decreases |tokens.tokens| - tokens.pos, 0
    {
      var open := ExpectTokens(tokens, [LPAREN]);
      if open.Err? {
        return Err(open.error);
      }
      var arguments := ListOfExpressions(tokens);
      if arguments.Err? {
        return Err(arguments.error);
      }
      var close := ExpectTokens(tokens, [RPAREN]);
      if close.Err? {
        return Err(close.error);
      }
      return Ok(Call(left, arguments.value));
    }

    method SubscriptExpression(tokens: TokenStream, left: Node) returns (r: Result<Node, ParseFailure>)
      requires tokens.Valid()
      modifies tokens
      ensures tokens.Valid()
      ensures Agrees(r, tokens.pos, Grammar.SubscriptExpression(tokens.tokens, old(tokens.pos), left))
      decreases |tokens.tokens| - tokens.pos, 0
    {
      var open := ExpectTokens(tokens, [LBRACK]);
      if open.Err? {
        return Err(open.error);
      }
      var key := Expression(tokens, 0);
      if key.Err? {
        return Err(key.error);
      }
      if key.value.None? {
        r := ErrorAt(tokens, "Subscript operator key is required");
        return;
      }
      var close := ExpectTokens(tokens, [RBRACK]);
      if close.Err? {
        return Err(close.error);
      }
      return Ok(SubscriptOperator(left, key.value.value));
    }

    /// `ListOfExpressions().parse`.
    method ListOfExpressions(tokens: TokenStream) returns (r: Result<seq<Node>, ParseFailure>)
      requires tokens.Valid()
      modifies tokens
      ensures tokens.Valid()
      ensures Agrees(r, tokens.pos, Grammar.ListOfExpressions(tokens.tokens, old(tokens.pos), []))
      decreases |tokens.tokens| - tokens.pos, 4
    {
      var items: seq<Node> := [];
      while true
        invariant tokens.Valid() && old(tokens.pos) <= tokens.pos
        invariant Grammar.ListOfExpressions(tokens.tokens, tokens.pos, items) == Grammar.ListOfExpressions(tokens.tokens, old(tokens.pos), [])
        decreases |tokens.tokens| - tokens.pos
      {
        var atEnd := tokens.IsEnd();
        if atEnd {
          return Ok(items);
        }
        ghost var before := (tokens.pos, items);
        var exp := Expression(tokens, 0);
        if exp.Err? {
          return Err(exp.error);
        }
        if exp.value.None? {
          return Ok(items);
        }
        items := items + [exp.value.value];
        var cur := tokens.Current();
        if cur.Err? {
          return Err(cur.error);
        }
        if cur.value.kind != COMMA {
          return Ok(items);
        }
        ListStep(tokens.tokens, before.0, before.1, exp.value.value, tokens.pos);
        var comma := ExpectTokens(tokens, [COMMA]);
      }
    }

    // ----- statements -------------------------------------------------------------------

    /// `Statements().parse`.
    method Statements(tokens: TokenStream) returns (r: Result<seq<Node>, ParseFailure>)
      requires tokens.Valid()
      modifies this, tokens
      ensures tokens.Valid() && scope == old(scope)
      ensures Agrees(r, tokens.pos, Grammar.Statements(tokens.tokens, old(tokens.pos), scope, []))
      decreases |tokens.tokens| - tokens.pos, 3
    {
      var stmts: seq<Node> := [];
      while true
        invariant tokens.Valid() && old(tokens.pos) <= tokens.pos && scope == old(scope)
        invariant Grammar.Statements(tokens.tokens, tokens.pos, scope, stmts) == Grammar.Statements(tokens.tokens, old(tokens.pos), scope, [])
        decreases |tokens.tokens| - tokens.pos
      {
        var atEnd := tokens.IsEnd();
        if atEnd {
          return Ok(stmts);
        }
        var stmt := Statement(tokens);
        if stmt.Err? {
          return Err(stmt.error);
        }
        if stmt.value.None? {
          return Ok(stmts);
        }
        stmts := stmts + [stmt.value.value];
      }
    }

    /// The statement sub-parser for the current token, and its `parse`.
    method Statement(tokens: TokenStream) returns (r: Result<Option<Node>, ParseFailure>)
      requires tokens.Valid() && tokens.pos < |tokens.tokens|
      modifies this, tokens
      ensures tokens.Valid() && scope == old(scope)
      ensures Agrees(r, tokens.pos, Grammar.Statement(tokens.tokens, old(tokens.pos), scope))
      decreases |tokens.tokens| - tokens.pos, 2
    {
      var cur := tokens.Current();
      var k := cur.value.kind;
      var node;
      if k == FUNCTION {
        node := FunctionStatement(tokens);
      } else if k == IF {
        node := ConditionalStatement(tokens);
      } else if k == MATCH {
        node := MatchStatement(tokens);
      } else if k == WHILE {
        node := WhileStatement(tokens);
      } else if k == FOR {
        node := ForStatement(tokens);
      } else if k == RETURN {
        node := ReturnStatement(tokens);
      } else if k == BREAK {
        node := BreakStatement(tokens);
      } else if k == CONTINUE {
        node := ContinueStatement(tokens);
      } else {
        r := ExpressionStatement(tokens);
        return;
      }
      return Lift(node);
    }

    /// `Block().parse`.
    method Block(tokens: TokenStream) returns (r: Result<seq<Node>, ParseFailure>)
      requires tokens.Valid()
      modifies this, tokens
      ensures tokens.Valid() && scope == old(scope)
      ensures Agrees(r, tokens.pos, Grammar.Block(tokens.tokens, old(tokens.pos), scope))
      decreases |tokens.tokens| - tokens.pos, 1
    {
      var open := ExpectTokens(tokens, [NEWLINE, INDENT]);
      if open.Err? {
        return Err(open.error);
      }
      var body := Statements(tokens);
      if body.Err? {
        return Err(body.error);
      }
      var close := ExpectTokens(tokens, [DEDENT]);
      if close.Err? {
        return Err(close.error);
      }
      return Ok(body.value);
    }

    /// `Block().parse` inside a new innermost scope `tag`, which is popped afterwards.
    method ScopedBlock(tokens: TokenStream, tag: ScopeTag) returns (r: Result<seq<Node>, ParseFailure>)
      requires tokens.Valid()
      modifies this, tokens
      ensures tokens.Valid() && scope == old(scope)
      ensures Agrees(r, tokens.pos, Grammar.Block(tokens.tokens, old(tokens.pos), scope + [tag]))
      decreases |tokens.tokens| - tokens.pos, 2
    {
      scope := scope + [tag];
      r := Block(tokens);
      scope := scope[..|scope| - 1];
    }

    /// `FunctionStatement._parse_params`.
    method Params(tokens: TokenStream) returns (r: Result<seq<string>, ParseFailure>)
      requires tokens.Valid()
      modifies tokens
      ensures tokens.Valid()
      ensures Agrees(r, tokens.pos, Grammar.Params(tokens.tokens, old(tokens.pos)))
    {
      var params: seq<string> := [];
      var cur := tokens.Current();
      if cur.Err? {
        return Err(cur.error);
      }
      if cur.value.kind != NAME {
        return Ok(params);
      }
      while true
        invariant tokens.Valid() && old(tokens.pos) <= tokens.pos
        invariant ParamsFrom(tokens.tokens, tokens.pos, params) == ParamsFrom(tokens.tokens, old(tokens.pos), [])
        decreases |tokens.tokens| - tokens.pos
      {
        var atEnd := tokens.IsEnd();
        if atEnd {
          return Ok(params);
        }
        ghost var before := (tokens.pos, params);
        var id := ExpectTokens(tokens, [NAME]);
        if id.Err? {
          return Err(id.error);
        }
        params := params + [id.value.value.s];
        var next := tokens.Current();
        if next.Err? {
          return Err(next.error);
        }
        if next.value.kind != COMMA {
          return Ok(params);
        }
        ParamsStep(tokens.tokens, before.0, before.1, id.value);
        var comma := ExpectTokens(tokens, [COMMA]);
      }
    }

    /// `FunctionStatement().parse`.
    method FunctionStatement(tokens: TokenStream) returns (r: Result<Node, ParseFailure>)
      requires tokens.Valid()
      modifies this, tokens
      ensures tokens.Valid() && scope == old(scope)
      ensures Agrees(r, tokens.pos, Grammar.FunctionStatement(tokens.tokens, old(tokens.pos), scope))
      decreases |tokens.tokens| - tokens.pos, 1
    {
      var keyword := ExpectTokens(tokens, [FUNCTION]);
      if keyword.Err? {
        return Err(keyword.error);
      }
      var id := ExpectTokens(tokens, [NAME]);
      if id.Err? {
        return Err(id.error);
      }
      var open := ExpectTokens(tokens, [LPAREN]);
      if open.Err? {
        return Err(open.error);
      }
      r := FunctionRest(tokens, id.value.value.s);
    }

    /// The rest of `FunctionStatement.parse` for the function `name`, after its opening
    /// parenthesis.
    method FunctionRest(tokens: TokenStream, name: string) returns (r: Result<Node, ParseFailure>)
      requires tokens.Valid()
      modifies this, tokens
      ensures tokens.Valid() && scope == old(scope)
      ensures Agrees(r, tokens.pos, Grammar.FunctionRest(tokens.tokens, old(tokens.pos), scope, name))
      decreases |tokens.tokens| - tokens.pos, 1
    {
      var params := Params(tokens);
      if params.Err? {
        return Err(params.error);
      }
      var close := ExpectTokens(tokens, [RPAREN, COLON]);
      if close.Err? {
        return Err(close.error);
      }
      var body := ScopedBlock(tokens, FunctionScope);
      if body.Err? {
        return Err(body.error);
      }
      return Ok(Function(name, params.value, body.value));
    }

    /// `ConditionalStatement().parse`.
    method ConditionalStatement(tokens: TokenStream) returns (r: Result<Node, ParseFailure>)
      requires tokens.Valid()
      modifies this, tokens
      ensures tokens.Valid() && scope == old(scope)
      ensures Agrees(r, tokens.pos, Grammar.ConditionalStatement(tokens.tokens, old(tokens.pos), scope))
      decreases |tokens.tokens| - tokens.pos, 1
    {
      var keyword := ExpectTokens(tokens, [IF]);
      if keyword.Err? {
        return Err(keyword.error);
      }
      var test := Expression(tokens, 0);
      if test.Err? {
        return Err(test.error);
      }
      if test.value.None? {
        r := ErrorAt(tokens, "Expected `if` condition");
        return;
      }
      var colon := ExpectTokens(tokens, [COLON]);
      if colon.Err? {
        return Err(colon.error);
      }
      var ifBody := Block(tokens);
      if ifBody.Err? {
        return Err(ifBody.error);
      }
      var elifs := ElifConditions(tokens);
      if elifs.Err? {
        return Err(elifs.error);
      }
      var elseBody := Else(tokens);
      if elseBody.Err? {
        return Err(elseBody.error);
      }
      return Ok(Condition(test.value.value, ifBody.value, elifs.value, elseBody.value));
    }

    /// `ConditionalStatement._parse_elif_conditions`.
    method ElifConditions(tokens: TokenStream) returns (r: Result<seq<ConditionElif>, ParseFailure>)
      requires tokens.Valid()
      modifies this, tokens
      ensures tokens.Valid() && scope == old(scope)
      ensures Agrees(r, tokens.pos, Elifs(tokens.tokens, old(tokens.pos), scope, []))
      decreases |tokens.tokens| - tokens.pos, 1
    {
      var conds: seq<ConditionElif> := [];
      while true
        invariant tokens.Valid() && old(tokens.pos) <= tokens.pos && scope == old(scope)
        invariant Elifs(tokens.tokens, tokens.pos, scope, conds) == Elifs(tokens.tokens, old(tokens.pos), scope, [])
        decreases |tokens.tokens| - tokens.pos
      {
        var atEnd := tokens.IsEnd();
        if atEnd {
          return Ok(conds);
        }
        var cur := tokens.Current();
        if cur.value.kind != ELIF {
          return Ok(conds);
        }
        var cond := Elif(tokens);
        if cond.Err? {
          return Err(cond.error);
        }
        conds := conds + [cond.value];
      }
    }

    /// One iteration of the `_parse_elif_conditions` loop: `elif expr : block`.
    method Elif(tokens: TokenStream) returns (r: Result<ConditionElif, ParseFailure>)
      requires tokens.Valid()
      modifies this, tokens
      ensures tokens.Valid() && scope == old(scope)
      ensures Agrees(r, tokens.pos, Grammar.Elif(tokens.tokens, old(tokens.pos), scope))
      decreases |tokens.tokens| - tokens.pos, 0
    {
      var keyword := ExpectTokens(tokens, [ELIF]);
      if keyword.Err? {
        return Err(keyword.error);
      }
      var test := Expression(tokens, 0);
      if test.Err? {
        return Err(test.error);
      }
      if test.value.None? {
        r := ErrorAt(tokens, "Expected `elif` condition");
        return;
      }
      var colon := ExpectTokens(tokens, [COLON]);
      if colon.Err? {
        return Err(colon.error);
      }
      var body := Block(tokens);
      if body.Err? {
        return Err(body.error);
      }
      return Ok(ConditionElif(test.value.value, body.value));
    }

    /// `ConditionalStatement._parse_else`, which `MatchStatement.parse` repeats inline.
    method Else(tokens: TokenStream) returns (r: Result<ElsePart, ParseFailure>)
      requires tokens.Valid()
      modifies this, tokens
      ensures tokens.Valid() && scope == old(scope)
      ensures Agrees(r, tokens.pos, ElseBlock(tokens.tokens, old(tokens.pos), scope))
      decreases |tokens.tokens| - tokens.pos, 1
    {
      var atEnd := tokens.IsEnd();
      if atEnd {
        return Ok(NoElse);
      }
      var cur := tokens.Current();
      if cur.value.kind != ELSE {
        return Ok(NoElse);
      }
      var keyword := ExpectTokens(tokens, [ELSE, COLON]);
      if keyword.Err? {
        return Err(keyword.error);
      }
      var body := Block(tokens);
      if body.Err? {
        return Err(body.error);
      }
      return Ok(ElseBody(body.value));
    }

    /// `MatchStatement().parse`.
    method MatchStatement(tokens: TokenStream) returns (r: Result<Node, ParseFailure>)
      requires tokens.Valid()
      modifies this, tokens
      ensures tokens.Valid() && scope == old(scope)
      ensures Agrees(r, tokens.pos, Grammar.MatchStatement(tokens.tokens, old(tokens.pos), scope))
      decreases |tokens.tokens| - tokens.pos, 1
    {
      var keyword := ExpectTokens(tokens, [MATCH]);
      if keyword.Err? {
        return Err(keyword.error);
      }
      var test := Expression(tokens, 0);
      if test.Err? {
        return Err(test.error);
      }
      var open := ExpectTokens(tokens, [COLON, NEWLINE, INDENT]);
      if open.Err? {
        return Err(open.error);
      }
      r := MatchClauses(tokens, test.value);
    }

    /// The rest of `MatchStatement.parse` after the subject: the `when` loop, the check that
    /// it found a clause, the optional `else` and the closing DEDENT.
    method MatchClauses(tokens: TokenStream, subject: Option<Node>) returns (r: Result<Node, ParseFailure>)
      requires tokens.Valid()
      modifies this, tokens
      ensures tokens.Valid() && scope == old(scope)
      ensures Agrees(r, tokens.pos, Grammar.MatchClauses(tokens.tokens, old(tokens.pos), scope, subject))
      decreases |tokens.tokens| - tokens.pos, 2
    {
      var patterns: seq<MatchPattern> := [];
      while true
        invariant tokens.Valid() && old(tokens.pos) <= tokens.pos && scope == old(scope)
        invariant Whens(tokens.tokens, tokens.pos, scope, patterns) == Whens(tokens.tokens, old(tokens.pos), scope, [])
        decreases |tokens.tokens| - tokens.pos
      {
        var atEnd := tokens.IsEnd();
        if atEnd {
          break;
        }
        var cur := tokens.Current();
        if cur.value.kind != WHEN {
          break;
        }
        var pattern := When(tokens);
        if pattern.Err? {
          return Err(pattern.error);
        }
        patterns := patterns + [pattern.value];
      }
      if patterns == [] {
        r := ErrorAt(tokens, "One or more `when` pattern excepted");
        return;
      }
      var elseBody := Else(tokens);
      if elseBody.Err? {
        return Err(elseBody.error);
      }
      var close := ExpectTokens(tokens, [DEDENT]);
      if close.Err? {
        return Err(close.error);
      }
      return Ok(Match(subject, patterns, elseBody.value));
    }

    /// `MatchStatement._parse_when`.
    method When(tokens: TokenStream) returns (r: Result<MatchPattern, ParseFailure>)
      requires tokens.Valid()
      modifies this, tokens
      ensures tokens.Valid() && scope == old(scope)
      ensures Agrees(r, tokens.pos, Grammar.When(tokens.tokens, old(tokens.pos), scope))
      decreases |tokens.tokens| - tokens.pos, 0
    {
      var keyword := ExpectTokens(tokens, [WHEN]);
      if keyword.Err? {
        return Err(keyword.error);
      }
      var pattern := Expression(tokens, 0);
      if pattern.Err? {
        return Err(pattern.error);
      }
      if pattern.value.None? {
        r := ErrorAt(tokens, "Pattern expression expected");
        return;
      }
      var colon := ExpectTokens(tokens, [COLON]);
      if colon.Err? {
        return Err(colon.error);
      }
      var body := Block(tokens);
      if body.Err? {
        return Err(body.error);
      }
      return Ok(MatchPattern(pattern.value.value, body.value));
    }

    /// `WhileLoopStatement().parse`.
    method WhileStatement(tokens: TokenStream) returns (r: Result<Node, ParseFailure>)
      requires tokens.Valid()
      modifies this, tokens
      ensures tokens.Valid() && scope == old(scope)
      ensures Agrees(r, tokens.pos, Grammar.WhileStatement(tokens.tokens, old(tokens.pos), scope))
      decreases |tokens.tokens| - tokens.pos, 1
    {
      var keyword := ExpectTokens(tokens, [WHILE]);
      if keyword.Err? {
        return Err(keyword.error);
      }
      var test := Expression(tokens, 0);
      if test.Err? {
        return Err(test.error);
      }
      if test.value.None? {
        r := ErrorAt(tokens, "While condition expected");
        return;
      }
      var colon := ExpectTokens(tokens, [COLON]);
      if colon.Err? {
        return Err(colon.error);
      }
      var body := ScopedBlock(tokens, LoopScope);
      if body.Err? {
        return Err(body.error);
      }
      return Ok(WhileLoop(test.value.value, body.value));
    }

    /// `ForLoopStatement().parse`.
    method ForStatement(tokens: TokenStream) returns (r: Result<Node, ParseFailure>)
      requires tokens.Valid()
      modifies this, tokens
      ensures tokens.Valid() && scope == old(scope)
      ensures Agrees(r, tokens.pos, Grammar.ForStatement(tokens.tokens, old(tokens.pos), scope))
      decreases |tokens.tokens| - tokens.pos, 1
    {
      var keyword := ExpectTokens(tokens, [FOR]);
      if keyword.Err? {
        return Err(keyword.error);
      }
      var id := ExpectTokens(tokens, [NAME]);
      if id.Err? {
        return Err(id.error);
      }
      r := ForRest(tokens, id.value.value.s);
    }

    /// The rest of `ForLoopStatement.parse` for the loop variable `name`, from `in` on.
    method ForRest(tokens: TokenStream, name: string) returns (r: Result<Node, ParseFailure>)
      requires tokens.Valid()
      modifies this, tokens
      ensures tokens.Valid() && scope == old(scope)
      ensures Agrees(r, tokens.pos, Grammar.ForRest(tokens.tokens, old(tokens.pos), scope, name))
      decreases |tokens.tokens| - tokens.pos, 1
    {
      var inKeyword := ExpectTokens(tokens, [IN]);
      if inKeyword.Err? {
        return Err(inKeyword.error);
      }
      var collection := Expression(tokens, 0);
      if collection.Err? {
        return Err(collection.error);
      }
      var colon := ExpectTokens(tokens, [COLON]);
      if colon.Err? {
        return Err(colon.error);
      }
      var body := ScopedBlock(tokens, LoopScope);
      if body.Err? {
        return Err(body.error);
      }
      return Ok(ForLoop(name, collection.value, body.value));
    }

    /// `ReturnStatement().parse`.
    method ReturnStatement(tokens: TokenStream) returns (r: Result<Node, ParseFailure>)
      requires tokens.Valid()
      modifies tokens
      ensures tokens.Valid()
      ensures Agrees(r, tokens.pos, Grammar.ReturnStatement(tokens.tokens, old(tokens.pos), scope))
    {
      if scope == [] || FunctionScope !in scope {
        r := ErrorAt(tokens, "Return outside of function");
        return;
      }
      var keyword := ExpectTokens(tokens, [RETURN]);
      if keyword.Err? {
        return Err(keyword.error);
      }
      var value := Expression(tokens, 0);
      if value.Err? {
        return Err(value.error);
      }
      var newline := ExpectTokens(tokens, [NEWLINE]);
      if newline.Err? {
        return Err(newline.error);
      }
      return Ok(Return(value.value));
    }

    /// `BreakStatement().parse`.
    method BreakStatement(tokens: TokenStream) returns (r: Result<Node, ParseFailure>)
      requires tokens.Valid()
      modifies tokens
      ensures tokens.Valid()
      ensures Agrees(r, tokens.pos, Grammar.BreakStatement(tokens.tokens, old(tokens.pos), scope))
    {
      if scope == [] || scope[|scope| - 1] != LoopScope {
        r := ErrorAt(tokens, "Break outside of loop");
        return;
      }
      var keyword := ExpectTokens(tokens, [BREAK, NEWLINE]);
      if keyword.Err? {
        return Err(keyword.error);
      }
      return Ok(Break);
    }

    /// `ContinueStatement().parse`.
    method ContinueStatement(tokens: TokenStream) returns (r: Result<Node, ParseFailure>)
      requires tokens.Valid()
      modifies tokens
      ensures tokens.Valid()
      ensures Agrees(r, tokens.pos, Grammar.ContinueStatement(tokens.tokens, old(tokens.pos), scope))
    {
      if scope == [] || scope[|scope| - 1] != LoopScope {
        r := ErrorAt(tokens, "Continue outside of loop");
        return;
      }
      var keyword := ExpectTokens(tokens, [CONTINUE, NEWLINE]);
      if keyword.Err? {
        return Err(keyword.error);
      }
      return Ok(Continue);
    }

    /// `AssignmentStatement().parse`, with the target already parsed.
    method AssignmentStatement(tokens: TokenStream, left: Node) returns (r: Result<Node, ParseFailure>)
      requires tokens.Valid()
      modifies tokens
      ensures tokens.Valid()
      ensures Agrees(r, tokens.pos, Grammar.AssignmentStatement(tokens.tokens, old(tokens.pos), left))
    {
      var assign := ExpectTokens(tokens, [ASSIGN]);
      if assign.Err? {
        return Err(assign.error);
      }
      var right := Expression(tokens, 0);
      if right.Err? {
        return Err(right.error);
      }
      var newline := ExpectTokens(tokens, [NEWLINE]);
      if newline.Err? {
        return Err(newline.error);
      }
      return Ok(Assignment(left, right.value));
    }

    /// `ExpressionStatement().parse`.
    method ExpressionStatement(tokens: TokenStream) returns (r: Result<Option<Node>, ParseFailure>)
      requires tokens.Valid()
      modifies tokens
      ensures tokens.Valid()
      ensures Agrees(r, tokens.pos, Grammar.ExpressionStatement(tokens.tokens, old(tokens.pos)))
    {
      var exp := Expression(tokens, 0);
      if exp.Err? {
        return Err(exp.error);
      }
      if exp.value.None? {
        return Ok(None);
      }
      var cur := tokens.Current();
      if cur.Err? {
        return Err(cur.error);
      }
      if cur.value.kind == ASSIGN {
        var assignment := AssignmentStatement(tokens, exp.value.value);
        return Lift(assignment);
      }
      var newline := ExpectTokens(tokens, [NEWLINE]);
      if newline.Err? {
        return Err(newline.error);
      }
      return Ok(exp.value);
    }
  }
}
