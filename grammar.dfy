/// The grammar that abrvalg/parser.py recognises, written as functions of the token list,
/// the cursor position and (for statements) the scope stack. Each function returns what
/// the corresponding sub-parser returns together with the position it leaves the cursor
/// at, or the exception it raises; the parser class in module `Parser` is proved to
/// compute exactly these.
module Grammar {
  import opened Results
  import opened Errors
  import opened Lexer
  import opened Ast

  /// The entries of the parser's scope stack.
  datatype ScopeTag = FunctionScope | LoopScope

  /// A value a sub-parser produced and the position it left the cursor at.
  datatype Parsed<T> = Parsed(value: T, pos: nat)

  type Outcome<T> = Result<Parsed<T>, ParseFailure>

  // ----- binding powers -----------------------------------------------------------------

  /// The binding powers of the binary operators.
  const Precedences: map<string, int> := map[
    "*" := 7, "/" := 7, "%" := 7,
    "+" := 6, "-" := 6,
    ">" := 5, ">=" := 5, "<" := 5, "<=" := 5,
    "==" := 4, "!=" := 4,
    "&&" := 3,
    "||" := 2,
    ".." := 1, "..." := 1]

  /// The binding power of a call and of a subscript.
  const CallPower := 10
  /// The binding power of a unary operator's operand.
  const UnaryPower := 9

  /// The kinds that start an expression.
  predicate HasPrefix(k: Kind) {
    k in {NUMBER, STRING, NAME, LPAREN, LBRACK, LCBRACK, OPERATOR}
  }

  /// The kinds that continue an expression.
  predicate HasInfix(k: Kind) {
    k in {OPERATOR, LPAREN, LBRACK}
  }

  /// The binding power of the token at `pos` as an infix operator: 0 at the end and for a
  /// token that continues no expression; a binary operator missing from the table is a
  /// failed lookup in the host.
  function NextPrecedence(ts: seq<LexToken>, pos: nat): (r: Result<int, ParseFailure>)
    requires pos <= |ts|
    ensures r.Ok? ==> r.value >= 0
    ensures r.Ok? && r.value > 0 ==> pos < |ts| && HasInfix(ts[pos].kind)
    ensures r.Err? <==> pos < |ts| && ts[pos].kind == OPERATOR && ts[pos].value.s !in Precedences
  {
    if pos == |ts| then Ok(0)
    else
      var t := ts[pos];
      if t.kind == OPERATOR then
        if t.value.s in Precedences then Ok(Precedences[t.value.s]) else Err(HostKeyError(t.value.s))
      else if t.kind == LPAREN || t.kind == LBRACK then Ok(CallPower)
      else Ok(0)
  }

  /// The expression loop stops at `pos` for binding power `prec`: the next token binds no
  /// tighter than `prec`.
  predicate StopsAt(ts: seq<LexToken>, pos: nat, prec: int) {
    pos <= |ts| && NextPrecedence(ts, pos).Ok? && NextPrecedence(ts, pos).value <= prec
  }

  // ----- the cursor operations as outcomes ----------------------------------------------

  /// `consume_expected(kinds)` from `pos`, as an outcome.
  function Expect(ts: seq<LexToken>, pos: nat, kinds: seq<Kind>): (r: Outcome<LexToken>)
    requires |kinds| > 0
    ensures r.Ok? ==>
      && r.value.pos == pos + |kinds| <= |ts|
      && r.value.value == ts[pos + |kinds| - 1]
      && r.value.value.kind == kinds[|kinds| - 1]
  {
    ExpectAllSucceeds(ts, pos, kinds);
    var (res, p) := ExpectAll(ts, pos, kinds);
    match res
    case Err(e) => Err(e)
    case Ok(t) => Ok(Parsed(t, p))
  }

  /// The error a sub-parser raises with `message` at the current token (through
  /// `current()` or `consume()`): past the end, the cursor's own error comes first.
  function Fail<T>(ts: seq<LexToken>, pos: nat, message: string): (r: Outcome<T>)
    ensures r.Err?
    ensures pos < |ts| ==> r.error == Syntax(SyntaxError(message, ts[pos].line, ts[pos].column))
  {
    match CurrentAt(ts, pos)
    case Err(e) => Err(e)
    case Ok(t) => Err(Syntax(SyntaxError(message, t.line, t.column)))
  }

  // ----- expressions --------------------------------------------------------------------

  /// `Expression().parse(parser, tokens, prec)`: nothing when the current token starts no
  /// expression, otherwise the prefix expression, which then absorbs infix operators for
  /// as long as they bind tighter than `prec`.
  function Expression(ts: seq<LexToken>, pos: nat, prec: int): (r: Outcome<Option<Node>>)
    requires pos <= |ts| && prec >= 0
    ensures r.Ok? ==> pos <= r.value.pos <= |ts|
    ensures r.Ok? && r.value.value.Some? ==> pos < r.value.pos && StopsAt(ts, r.value.pos, prec)
    decreases |ts| - pos, 3
  {
    match CurrentAt(ts, pos)
    case Err(e) => Err(e)
    case Ok(t) =>
      if !HasPrefix(t.kind) then Ok(Parsed(None, pos))
      else
        match PrefixExpression(ts, pos)
        case Err(e) => Err(e)
        case Ok(p) =>
          if p.value.None? then Ok(Parsed(None, p.pos))
          else
            match Absorb(ts, p.pos, prec, p.value.value)
            case Err(e) => Err(e)
            case Ok(q) => Ok(Parsed(Some(q.value), q.pos))
  }

  /// The loop of `Expression.parse`: while the next token binds tighter than `prec`, the
  /// infix sub-parser for it extends `left`.
  function Absorb(ts: seq<LexToken>, pos: nat, prec: int, left: Node): (r: Outcome<Node>)
    requires pos <= |ts| && prec >= 0
    ensures r.Ok? ==> pos <= r.value.pos <= |ts| && StopsAt(ts, r.value.pos, prec)
    decreases |ts| - pos, 2
  {
    match NextPrecedence(ts, pos)
    case Err(e) => Err(e)
    case Ok(np) =>
      if prec < np then
        match InfixExpression(ts, pos, left)
        case Err(e) => Err(e)
        case Ok(p) => Absorb(ts, p.pos, prec, p.value)
      else Ok(Parsed(left, pos))
  }

  /// The prefix sub-parser chosen by the current token's kind.
  function PrefixExpression(ts: seq<LexToken>, pos: nat): (r: Outcome<Option<Node>>)
    requires pos < |ts| && HasPrefix(ts[pos].kind)
    ensures r.Ok? ==> pos < r.value.pos <= |ts|
    decreases |ts| - pos, 2
  {
    var k := ts[pos].kind;
    if k == NUMBER then Present(NumberExpression(ts, pos))
    else if k == STRING then Present(StringExpression(ts, pos))
    else if k == NAME then Present(NameExpression(ts, pos))
    else if k == LPAREN then GroupExpression(ts, pos)
    else if k == LBRACK then Present(ArrayExpression(ts, pos))
    else if k == LCBRACK then Present(DictionaryExpression(ts, pos))
    else Present(UnaryExpression(ts, pos))
  }

  /// A node outcome seen as an outcome that may hold no node.
  function Present(r: Outcome<Node>): (o: Outcome<Option<Node>>)
    ensures r.Ok? <==> o.Ok?
    ensures r.Ok? ==> o.value == Parsed(Some(r.value.value), r.value.pos)
    ensures r.Err? ==> o.error == r.error
  {
    match r
    case Err(e) => Err(e)
    case Ok(p) => Ok(Parsed(Some(p.value), p.pos))
  }

  function NumberExpression(ts: seq<LexToken>, pos: nat): (r: Outcome<Node>)
    ensures r.Ok? ==> pos < r.value.pos <= |ts| && ts[pos].kind == NUMBER && r.value.value == Number(ts[pos].value.n)
  {
    match Expect(ts, pos, [NUMBER])
    case Err(e) => Err(e)
    case Ok(p) => Ok(Parsed(Number(p.value.value.n), p.pos))
  }

  function StringExpression(ts: seq<LexToken>, pos: nat): (r: Outcome<Node>)
    ensures r.Ok? ==> pos < r.value.pos <= |ts| && ts[pos].kind == STRING && r.value.value == String(ts[pos].value.s)
  {
    match Expect(ts, pos, [STRING])
    case Err(e) => Err(e)
    case Ok(p) => Ok(Parsed(String(p.value.value.s), p.pos))
  }

  function NameExpression(ts: seq<LexToken>, pos: nat): (r: Outcome<Node>)
    ensures r.Ok? ==> pos < r.value.pos <= |ts| && ts[pos].kind == NAME && r.value.value == Identifier(ts[pos].value.s)
  {
    match Expect(ts, pos, [NAME])
    case Err(e) => Err(e)
    case Ok(p) => Ok(Parsed(Identifier(p.value.value.s), p.pos))
  }

  /// `( expr )`: the inner expression, which may be missing.
  function GroupExpression(ts: seq<LexToken>, pos: nat): (r: Outcome<Option<Node>>)
    requires pos <= |ts|
    ensures r.Ok? ==> pos < r.value.pos <= |ts|
    decreases |ts| - pos, 1
  {
    match Expect(ts, pos, [LPAREN])
    case Err(e) => Err(e)
    case Ok(l) =>
      match Expression(ts, l.pos, 0)
      case Err(e) => Err(e)
      case Ok(x) =>
        match Expect(ts, x.pos, [RPAREN])
        case Err(e) => Err(e)
        case Ok(c) => Ok(Parsed(x.value, c.pos))
  }

  /// `[ list_of_expr ]`.
  function ArrayExpression(ts: seq<LexToken>, pos: nat): (r: Outcome<Node>)
    requires pos <= |ts|
    ensures r.Ok? ==> pos < r.value.pos <= |ts| && r.value.value.Array?
    decreases |ts| - pos, 1
  {
    match Expect(ts, pos, [LBRACK])
    case Err(e) => Err(e)
    case Ok(l) =>
      match ListOfExpressions(ts, l.pos, [])
      case Err(e) => Err(e)
      case Ok(items) =>
        match Expect(ts, items.pos, [RBRACK])
        case Err(e) => Err(e)
        case Ok(c) => Ok(Parsed(Array(items.value), c.pos))
  }

  /// `{ key: value, ... }`.
  function DictionaryExpression(ts: seq<LexToken>, pos: nat): (r: Outcome<Node>)
    requires pos <= |ts|
    ensures r.Ok? ==> pos < r.value.pos <= |ts| && r.value.value.Dictionary?
    decreases |ts| - pos, 1
  {
    match Expect(ts, pos, [LCBRACK])
    case Err(e) => Err(e)
    case Ok(l) =>
      match KeyValues(ts, l.pos, [])
      case Err(e) => Err(e)
      case Ok(entries) =>
        match Expect(ts, entries.pos, [RCBRACK])
        case Err(e) => Err(e)
        case Ok(c) => Ok(Parsed(Dictionary(entries.value), c.pos))
  }

  /// A prefix operator: only `-` and `!` are accepted, and the operand is parsed at the
  /// unary binding power.
  function UnaryExpression(ts: seq<LexToken>, pos: nat): (r: Outcome<Node>)
    requires pos <= |ts|
    ensures r.Ok? ==> pos < r.value.pos <= |ts|
    decreases |ts| - pos, 1
  {
    match Expect(ts, pos, [OPERATOR])
    case Err(e) => Err(e)
    case Ok(o) =>
      var op := o.value.value.s;
      if op != "-" && op != "!" then
        Err(Syntax(SyntaxError("Unary operator " + op + " is not supported", o.value.line, o.value.column)))
      else
        match Expression(ts, o.pos, UnaryPower)
        case Err(e) => Err(e)
        case Ok(x) =>
          if x.value.None? then Fail(ts, x.pos, "Expected expression")
          else Ok(Parsed(UnaryOperator(op, x.value.value), x.pos))
  }

  /// The infix sub-parser chosen by the current token's kind.
  function InfixExpression(ts: seq<LexToken>, pos: nat, left: Node): (r: Outcome<Node>)
    requires pos < |ts| && HasInfix(ts[pos].kind)
    ensures r.Ok? ==> pos < r.value.pos <= |ts|
    decreases |ts| - pos, 1
  {
    var k := ts[pos].kind;
    if k == OPERATOR then BinaryExpression(ts, pos, left)
    else if k == LPAREN then CallExpression(ts, pos, left)
    else SubscriptExpression(ts, pos, left)
  }

  /// A binary operator: the right operand is parsed at the operator's own binding power.
  function BinaryExpression(ts: seq<LexToken>, pos: nat, left: Node): (r: Outcome<Node>)
    requires pos <= |ts|
    ensures r.Ok? ==> pos < r.value.pos <= |ts|
    decreases |ts| - pos, 0
  {
    match Expect(ts, pos, [OPERATOR])
    case Err(e) => Err(e)
    case Ok(o) =>
      var op := o.value.value.s;
      if op !in Precedences then Err(HostKeyError(op))
      else
        match Expression(ts, o.pos, Precedences[op])
        case Err(e) => Err(e)
        case Ok(x) =>
          if x.value.None? then Fail(ts, x.pos, "Expected expression")
          else Ok(Parsed(BinaryOperator(op, left, x.value.value), x.pos))
  }

  /// `left ( list_of_expr )`.
  function CallExpression(ts: seq<LexToken>, pos: nat, left: Node): (r: Outcome<Node>)
    requires pos <= |ts|
    ensures r.Ok? ==> pos < r.value.pos <= |ts|
    decreases |ts| - pos, 0
  {
    match Expect(ts, pos, [LPAREN])
    case Err(e) => Err(e)
    case Ok(l) =>
      match ListOfExpressions(ts, l.pos, [])
      case Err(e) => Err(e)
      case Ok(args) =>
        match Expect(ts, args.pos, [RPAREN])
        case Err(e) => Err(e)
        case Ok(c) => Ok(Parsed(Call(left, args.value), c.pos))
  }

  /// `left [ expr ]`: the key is required.
  function SubscriptExpression(ts: seq<LexToken>, pos: nat, left: Node): (r: Outcome<Node>)
    requires pos <= |ts|
    ensures r.Ok? ==> pos < r.value.pos <= |ts|
    decreases |ts| - pos, 0
  {
    match Expect(ts, pos, [LBRACK])
    case Err(e) => Err(e)
    case Ok(l) =>
      match Expression(ts, l.pos, 0)
      case Err(e) => Err(e)
      case Ok(k) =>
        if k.value.None? then Fail(ts, k.pos, "Subscript operator key is required")
        else
          match Expect(ts, k.pos, [RBRACK])
          case Err(e) => Err(e)
          case Ok(c) => Ok(Parsed(SubscriptOperator(left, k.value.value), c.pos))
  }

  /// The loop of `ListOfExpressions.parse` from `pos`, with `items` collected so far:
  /// expressions separated by commas, ending at the end of input, at a token that starts
  /// no expression, or after an expression not followed by a comma.
  function ListOfExpressions(ts: seq<LexToken>, pos: nat, items: seq<Node>): (r: Outcome<seq<Node>>)
    requires pos <= |ts|
    ensures r.Ok? ==> pos <= r.value.pos <= |ts| && items <= r.value.value
    decreases |ts| - pos, 4
  {
    if pos == |ts| then Ok(Parsed(items, pos))
    else
      match Expression(ts, pos, 0)
      case Err(e) => Err(e)
      case Ok(x) =>
        if x.value.None? then Ok(Parsed(items, x.pos))
        else
          match CurrentAt(ts, x.pos)
          case Err(e) => Err(e)
          case Ok(t) =>
            // the comma is the current token, so consuming it cannot fail
            if t.kind == COMMA then ListOfExpressions(ts, x.pos + 1, items + [x.value.value])
            else Ok(Parsed(items + [x.value.value], x.pos))
  }

  /// An item followed by a comma continues the loop of `ListOfExpressions` after the comma.
  lemma ListStep(ts: seq<LexToken>, pos: nat, items: seq<Node>, x: Node, next: nat)
    requires pos < |ts| && Expression(ts, pos, 0) == Ok(Parsed(Some(x), next))
    requires next < |ts| && ts[next].kind == COMMA
    ensures ListOfExpressions(ts, pos, items) == ListOfExpressions(ts, next + 1, items + [x])
  {
    assert CurrentAt(ts, next) == Ok(ts[next]);
  }

  /// The loop of `DictionaryExpression._parse_keyvals` from `pos`, with `entries` collected
  /// so far: `key : value` pairs separated by commas, ending at the end of input, where no
  /// key starts, or after a pair not followed by a comma.
  function KeyValues(ts: seq<LexToken>, pos: nat, entries: seq<Entry>): (r: Outcome<seq<Entry>>)
    requires pos <= |ts|
    ensures r.Ok? ==> pos <= r.value.pos <= |ts| && entries <= r.value.value
    decreases |ts| - pos, 5
  {
    if pos == |ts| then Ok(Parsed(entries, pos))
    else
      match KeyValue(ts, pos)
      case Err(e) => Err(e)
      case Ok(kv) =>
        if kv.value.None? then Ok(Parsed(entries, kv.pos))
        else
          match CurrentAt(ts, kv.pos)
          case Err(e) => Err(e)
          case Ok(t) =>
            if t.kind == COMMA then KeyValues(ts, kv.pos + 1, entries + [kv.value.value])
            else Ok(Parsed(entries + [kv.value.value], kv.pos))
  }

  /// A pair followed by a comma continues the loop of `KeyValues` after the comma.
  lemma KeyValuesStep(ts: seq<LexToken>, pos: nat, entries: seq<Entry>, e: Entry, next: nat)
    requires pos < |ts| && KeyValue(ts, pos) == Ok(Parsed(Some(e), next))
    requires next < |ts| && ts[next].kind == COMMA
    ensures KeyValues(ts, pos, entries) == KeyValues(ts, next + 1, entries + [e])
  {
    assert CurrentAt(ts, next) == Ok(ts[next]);
  }

  /// One pair of a dictionary literal: nothing when no key starts here; a key must be
  /// followed by a colon and a value.
  function KeyValue(ts: seq<LexToken>, pos: nat): (r: Outcome<Option<Entry>>)
    requires pos <= |ts|
    ensures r.Ok? ==> pos <= r.value.pos <= |ts|
    ensures r.Ok? && r.value.value.Some? ==> pos < r.value.pos
    decreases |ts| - pos, 4
  {
    match Expression(ts, pos, 0)
    case Err(e) => Err(e)
    case Ok(k) =>
      if k.value.None? then Ok(Parsed(None, k.pos))
      else
        match Expect(ts, k.pos, [COLON])
        case Err(e) => Err(e)
        case Ok(c) =>
          match Expression(ts, c.pos, 0)
          case Err(e) => Err(e)
          case Ok(v) =>
            if v.value.None? then Fail(ts, v.pos, "Dictionary value expected")
            else Ok(Parsed(Some(Entry(k.value.value, v.value.value)), v.pos))
  }

  // ----- statements ---------------------------------------------------------------------

  /// The loop of `Statements.parse` from `pos`, with `stmts` collected so far: statements
  /// until the end of input or until a statement parser yields nothing.
  function Statements(ts: seq<LexToken>, pos: nat, sc: seq<ScopeTag>, stmts: seq<Node>): (r: Outcome<seq<Node>>)
    requires pos <= |ts|
    ensures r.Ok? ==> pos <= r.value.pos <= |ts| && stmts <= r.value.value
    decreases |ts| - pos, 3
  {
    if pos == |ts| then Ok(Parsed(stmts, pos))
    else
      match Statement(ts, pos, sc)
      case Err(e) => Err(e)
      case Ok(s) =>
        if s.value.None? then Ok(Parsed(stmts, s.pos))
        else Statements(ts, s.pos, sc, stmts + [s.value.value])
  }

  /// The statement parser chosen by the current token's kind; an expression statement
  /// for every kind that starts no other statement.
  function Statement(ts: seq<LexToken>, pos: nat, sc: seq<ScopeTag>): (r: Outcome<Option<Node>>)
    requires pos < |ts|
    ensures r.Ok? ==> pos <= r.value.pos <= |ts|
    ensures r.Ok? && r.value.value.Some? ==> pos < r.value.pos
    decreases |ts| - pos, 2
  {
    var k := ts[pos].kind;
    if k == FUNCTION then Present(FunctionStatement(ts, pos, sc))
    else if k == IF then Present(ConditionalStatement(ts, pos, sc))
    else if k == MATCH then Present(MatchStatement(ts, pos, sc))
    else if k == WHILE then Present(WhileStatement(ts, pos, sc))
    else if k == FOR then Present(ForStatement(ts, pos, sc))
    else if k == RETURN then Present(ReturnStatement(ts, pos, sc))
    else if k == BREAK then Present(BreakStatement(ts, pos, sc))
    else if k == CONTINUE then Present(ContinueStatement(ts, pos, sc))
    else ExpressionStatement(ts, pos)
  }

  /// `NEWLINE INDENT statements DEDENT`.
  function Block(ts: seq<LexToken>, pos: nat, sc: seq<ScopeTag>): (r: Outcome<seq<Node>>)
    requires pos <= |ts|
    ensures r.Ok? ==> pos < r.value.pos <= |ts|
    decreases |ts| - pos, 1
  {
    match Expect(ts, pos, [NEWLINE, INDENT])
    case Err(e) => Err(e)
    case Ok(i) =>
      match Statements(ts, i.pos, sc, [])
      case Err(e) => Err(e)
      case Ok(body) =>
        match Expect(ts, body.pos, [DEDENT])
        case Err(e) => Err(e)
        case Ok(d) => Ok(Parsed(body.value, d.pos))
  }

  /// `: block`, the colon and the block that end a compound statement's header.
  function ColonBlock(ts: seq<LexToken>, pos: nat, sc: seq<ScopeTag>): (r: Outcome<seq<Node>>)
    requires pos <= |ts|
    ensures r.Ok? ==> pos < r.value.pos <= |ts|
    decreases |ts| - pos, 1
  {
    match Expect(ts, pos, [COLON])
    case Err(e) => Err(e)
    case Ok(c) => Block(ts, c.pos, sc)
  }

  /// The parameter names of a declaration: none unless the current token is a NAME, then
  /// names separated by commas (a comma must be followed by a name).
  function Params(ts: seq<LexToken>, pos: nat): (r: Outcome<seq<string>>)
    requires pos <= |ts|
    ensures r.Ok? ==> pos <= r.value.pos <= |ts|
  {
    match CurrentAt(ts, pos)
    case Err(e) => Err(e)
    case Ok(t) => if t.kind == NAME then ParamsFrom(ts, pos, []) else Ok(Parsed([], pos))
  }

  /// The loop of `_parse_params` from `pos`, with `params` collected so far.
  function ParamsFrom(ts: seq<LexToken>, pos: nat, params: seq<string>): (r: Outcome<seq<string>>)
    requires pos <= |ts|
    ensures r.Ok? ==> pos <= r.value.pos <= |ts| && params <= r.value.value
    decreases |ts| - pos
  {
    if pos == |ts| then Ok(Parsed(params, pos))
    else
      match Expect(ts, pos, [NAME])
      case Err(e) => Err(e)
      case Ok(n) =>
        var more := params + [n.value.value.s];
        match CurrentAt(ts, n.pos)
        case Err(e) => Err(e)
        case Ok(t) =>
          if t.kind == COMMA then ParamsFrom(ts, n.pos + 1, more)
          else Ok(Parsed(more, n.pos))
  }

  /// A name followed by a comma continues the loop of `ParamsFrom` after the comma.
  lemma ParamsStep(ts: seq<LexToken>, pos: nat, params: seq<string>, name: LexToken)
    requires pos + 1 < |ts| && ts[pos] == name && name.kind == NAME && ts[pos + 1].kind == COMMA
    ensures ParamsFrom(ts, pos, params) == ParamsFrom(ts, pos + 2, params + [name.value.s])
  {
    assert CurrentAt(ts, pos + 1) == Ok(ts[pos + 1]);
  }

  /// `func NAME ( params ) : block`, the body parsed inside a function scope.
  function FunctionStatement(ts: seq<LexToken>, pos: nat, sc: seq<ScopeTag>): (r: Outcome<Node>)
    requires pos <= |ts|
    ensures r.Ok? ==> pos < r.value.pos <= |ts|
    decreases |ts| - pos, 1
  {
    match Expect(ts, pos, [FUNCTION])
    case Err(e) => Err(e)
    case Ok(f) =>
      match Expect(ts, f.pos, [NAME])
      case Err(e) => Err(e)
      case Ok(n) =>
        match Expect(ts, n.pos, [LPAREN])
        case Err(e) => Err(e)
        case Ok(l) => FunctionRest(ts, l.pos, sc, n.value.value.s)
  }

  /// The rest of a declaration of `name`, after its opening parenthesis.
  function FunctionRest(ts: seq<LexToken>, pos: nat, sc: seq<ScopeTag>, name: string): (r: Outcome<Node>)
    requires pos <= |ts|
    ensures r.Ok? ==> pos < r.value.pos <= |ts|
    decreases |ts| - pos, 1
  {
    match Params(ts, pos)
    case Err(e) => Err(e)
    case Ok(ps) =>
      match Expect(ts, ps.pos, [RPAREN, COLON])
      case Err(e) => Err(e)
      case Ok(c) =>
        match Block(ts, c.pos, sc + [FunctionScope])
        case Err(e) => Err(e)
        case Ok(b) => Ok(Parsed(Function(name, ps.value, b.value), b.pos))
  }

  /// `if expr : block (elif expr : block)* (else : block)?`; nothing is pushed on the
  /// scope stack.
  function ConditionalStatement(ts: seq<LexToken>, pos: nat, sc: seq<ScopeTag>): (r: Outcome<Node>)
    requires pos <= |ts|
    ensures r.Ok? ==> pos < r.value.pos <= |ts|
    decreases |ts| - pos, 1
  {
    match Expect(ts, pos, [IF])
    case Err(e) => Err(e)
    case Ok(i) =>
      match Expression(ts, i.pos, 0)
      case Err(e) => Err(e)
      case Ok(t) =>
        if t.value.None? then Fail(ts, t.pos, "Expected `if` condition")
        else
          match ColonBlock(ts, t.pos, sc)
          case Err(e) => Err(e)
          case Ok(b) => ConditionalRest(ts, b.pos, sc, t.value.value, b.value)
  }

  /// The `elif` and `else` branches that follow the `if` branch of a conditional.
  function ConditionalRest(ts: seq<LexToken>, pos: nat, sc: seq<ScopeTag>, test: Node, ifBody: seq<Node>)
    : (r: Outcome<Node>)
    requires pos <= |ts|
    ensures r.Ok? ==> pos <= r.value.pos <= |ts|
    decreases |ts| - pos, 2
  {
    match Elifs(ts, pos, sc, [])
    case Err(e) => Err(e)
    case Ok(el) =>
      match ElseBlock(ts, el.pos, sc)
      case Err(e) => Err(e)
      case Ok(eb) => Ok(Parsed(Condition(test, ifBody, el.value, eb.value), eb.pos))
  }

  /// The loop of `_parse_elif_conditions` from `pos`, with `conds` collected so far.
  function Elifs(ts: seq<LexToken>, pos: nat, sc: seq<ScopeTag>, conds: seq<ConditionElif>)
    : (r: Outcome<seq<ConditionElif>>)
    requires pos <= |ts|
    ensures r.Ok? ==> pos <= r.value.pos <= |ts| && conds <= r.value.value
    decreases |ts| - pos, 1
  {
    if pos == |ts| || ts[pos].kind != ELIF then Ok(Parsed(conds, pos))
    else
      match Elif(ts, pos, sc)
      case Err(e) => Err(e)
      case Ok(c) => Elifs(ts, c.pos, sc, conds + [c.value])
  }

  /// `elif expr : block`.
  function Elif(ts: seq<LexToken>, pos: nat, sc: seq<ScopeTag>): (r: Outcome<ConditionElif>)
    requires pos <= |ts|
    ensures r.Ok? ==> pos < r.value.pos <= |ts|
    decreases |ts| - pos, 0
  {
    match Expect(ts, pos, [ELIF])
    case Err(e) => Err(e)
    case Ok(i) =>
      match Expression(ts, i.pos, 0)
      case Err(e) => Err(e)
      case Ok(t) =>
        if t.value.None? then Fail(ts, t.pos, "Expected `elif` condition")
        else
          match ColonBlock(ts, t.pos, sc)
          case Err(e) => Err(e)
          case Ok(b) => Ok(Parsed(ConditionElif(t.value.value, b.value), b.pos))
  }

  /// An optional `else : block`.
  function ElseBlock(ts: seq<LexToken>, pos: nat, sc: seq<ScopeTag>): (r: Outcome<ElsePart>)
    requires pos <= |ts|
    ensures r.Ok? ==> pos <= r.value.pos <= |ts|
    decreases |ts| - pos, 1
  {
    if pos == |ts| || ts[pos].kind != ELSE then Ok(Parsed(NoElse, pos))
    else
      match Expect(ts, pos, [ELSE, COLON])
      case Err(e) => Err(e)
      case Ok(c) =>
        match Block(ts, c.pos, sc)
        case Err(e) => Err(e)
        case Ok(b) => Ok(Parsed(ElseBody(b.value), b.pos))
  }

  /// `match expr : NEWLINE INDENT when+ (else : block)? DEDENT`; the subject may be
  /// missing.
  function MatchStatement(ts: seq<LexToken>, pos: nat, sc: seq<ScopeTag>): (r: Outcome<Node>)
    requires pos <= |ts|
    ensures r.Ok? ==> pos < r.value.pos <= |ts|
    decreases |ts| - pos, 1
  {
    match Expect(ts, pos, [MATCH])
    case Err(e) => Err(e)
    case Ok(m) =>
      match Expression(ts, m.pos, 0)
      case Err(e) => Err(e)
      case Ok(t) =>
        match Expect(ts, t.pos, [COLON, NEWLINE, INDENT])
        case Err(e) => Err(e)
        case Ok(c) => MatchClauses(ts, c.pos, sc, t.value)
  }

  /// The clauses of a `match` on `subject`: at least one `when` clause is required.
  function MatchClauses(ts: seq<LexToken>, pos: nat, sc: seq<ScopeTag>, subject: Option<Node>): (r: Outcome<Node>)
    requires pos <= |ts|
    ensures r.Ok? ==> pos < r.value.pos <= |ts| && r.value.value.Match? && |r.value.value.patterns| > 0
    decreases |ts| - pos, 2
  {
    match Whens(ts, pos, sc, [])
    case Err(e) => Err(e)
    case Ok(w) =>
      if w.value == [] then Fail(ts, w.pos, "One or more `when` pattern excepted")
      else
        match ElseBlock(ts, w.pos, sc)
        case Err(e) => Err(e)
        case Ok(eb) =>
          match Expect(ts, eb.pos, [DEDENT])
          case Err(e) => Err(e)
          case Ok(d) => Ok(Parsed(Match(subject, w.value, eb.value), d.pos))
  }

  /// The `when` loop of `MatchStatement.parse` from `pos`, with `pats` collected so far.
  function Whens(ts: seq<LexToken>, pos: nat, sc: seq<ScopeTag>, pats: seq<MatchPattern>)
    : (r: Outcome<seq<MatchPattern>>)
    requires pos <= |ts|
    ensures r.Ok? ==> pos <= r.value.pos <= |ts| && pats <= r.value.value
    decreases |ts| - pos, 1
  {
    if pos == |ts| || ts[pos].kind != WHEN then Ok(Parsed(pats, pos))
    else
      match When(ts, pos, sc)
      case Err(e) => Err(e)
      case Ok(w) => Whens(ts, w.pos, sc, pats + [w.value])
  }

  /// `when expr : block`.
  function When(ts: seq<LexToken>, pos: nat, sc: seq<ScopeTag>): (r: Outcome<MatchPattern>)
    requires pos <= |ts|
    ensures r.Ok? ==> pos < r.value.pos <= |ts|
    decreases |ts| - pos, 0
  {
    match Expect(ts, pos, [WHEN])
    case Err(e) => Err(e)
    case Ok(w) =>
      match Expression(ts, w.pos, 0)
      case Err(e) => Err(e)
      case Ok(p) =>
        if p.value.None? then Fail(ts, p.pos, "Pattern expression expected")
        else
          match ColonBlock(ts, p.pos, sc)
          case Err(e) => Err(e)
          case Ok(b) => Ok(Parsed(MatchPattern(p.value.value, b.value), b.pos))
  }

  /// `while expr : block`, the body parsed inside a loop scope.
  function WhileStatement(ts: seq<LexToken>, pos: nat, sc: seq<ScopeTag>): (r: Outcome<Node>)
    requires pos <= |ts|
    ensures r.Ok? ==> pos < r.value.pos <= |ts|
    decreases |ts| - pos, 1
  {
    match Expect(ts, pos, [WHILE])
    case Err(e) => Err(e)
    case Ok(w) =>
      match Expression(ts, w.pos, 0)
      case Err(e) => Err(e)
      case Ok(t) =>
        if t.value.None? then Fail(ts, t.pos, "While condition expected")
        else
          match ColonBlock(ts, t.pos, sc + [LoopScope])
          case Err(e) => Err(e)
          case Ok(b) => Ok(Parsed(WhileLoop(t.value.value, b.value), b.pos))
  }

  /// `for NAME in expr : block`, the body parsed inside a loop scope; the collection may be
  /// missing.
  function ForStatement(ts: seq<LexToken>, pos: nat, sc: seq<ScopeTag>): (r: Outcome<Node>)
    requires pos <= |ts|
    ensures r.Ok? ==> pos < r.value.pos <= |ts|
    decreases |ts| - pos, 1
  {
    match Expect(ts, pos, [FOR])
    case Err(e) => Err(e)
    case Ok(f) =>
      match Expect(ts, f.pos, [NAME])
      case Err(e) => Err(e)
      case Ok(n) => ForRest(ts, n.pos, sc, n.value.value.s)
  }

  /// The rest of a `for` loop over the variable `name`, from `in` on.
  function ForRest(ts: seq<LexToken>, pos: nat, sc: seq<ScopeTag>, name: string): (r: Outcome<Node>)
    requires pos <= |ts|
    ensures r.Ok? ==> pos < r.value.pos <= |ts|
    decreases |ts| - pos, 1
  {
    match Expect(ts, pos, [IN])
    case Err(e) => Err(e)
    case Ok(i) =>
      match Expression(ts, i.pos, 0)
      case Err(e) => Err(e)
      case Ok(x) =>
        match ColonBlock(ts, x.pos, sc + [LoopScope])
        case Err(e) => Err(e)
        case Ok(b) => Ok(Parsed(ForLoop(name, x.value, b.value), b.pos))
  }

  /// `return expr?`, accepted only when a function scope is anywhere on the stack.
  function ReturnStatement(ts: seq<LexToken>, pos: nat, sc: seq<ScopeTag>): (r: Outcome<Node>)
    requires pos <= |ts|
    ensures r.Ok? ==> pos < r.value.pos <= |ts|
  {
    if FunctionScope !in sc then Fail(ts, pos, "Return outside of function")
    else
      match Expect(ts, pos, [RETURN])
      case Err(e) => Err(e)
      case Ok(k) =>
        match Expression(ts, k.pos, 0)
        case Err(e) => Err(e)
        case Ok(x) =>
          match Expect(ts, x.pos, [NEWLINE])
          case Err(e) => Err(e)
          case Ok(n) => Ok(Parsed(Return(x.value), n.pos))
  }

  /// Whether the innermost scope is a loop.
  predicate InLoop(sc: seq<ScopeTag>) {
    sc != [] && sc[|sc| - 1] == LoopScope
  }

  /// `break`, accepted only directly inside a loop.
  function BreakStatement(ts: seq<LexToken>, pos: nat, sc: seq<ScopeTag>): (r: Outcome<Node>)
    ensures r.Ok? ==> pos < r.value.pos <= |ts|
  {
    if !InLoop(sc) then Fail(ts, pos, "Break outside of loop")
    else
      match Expect(ts, pos, [BREAK, NEWLINE])
      case Err(e) => Err(e)
      case Ok(n) => Ok(Parsed(Break, n.pos))
  }

  /// `continue`, accepted only directly inside a loop.
  function ContinueStatement(ts: seq<LexToken>, pos: nat, sc: seq<ScopeTag>): (r: Outcome<Node>)
    ensures r.Ok? ==> pos < r.value.pos <= |ts|
  {
    if !InLoop(sc) then Fail(ts, pos, "Continue outside of loop")
    else
      match Expect(ts, pos, [CONTINUE, NEWLINE])
      case Err(e) => Err(e)
      case Ok(n) => Ok(Parsed(Continue, n.pos))
  }

  /// `expr = expr? NEWLINE`, with `left` already parsed.
  function AssignmentStatement(ts: seq<LexToken>, pos: nat, left: Node): (r: Outcome<Node>)
    requires pos <= |ts|
    ensures r.Ok? ==> pos < r.value.pos <= |ts|
  {
    match Expect(ts, pos, [ASSIGN])
    case Err(e) => Err(e)
    case Ok(a) =>
      match Expression(ts, a.pos, 0)
      case Err(e) => Err(e)
      case Ok(x) =>
        match Expect(ts, x.pos, [NEWLINE])
        case Err(e) => Err(e)
        case Ok(n) => Ok(Parsed(Assignment(left, x.value), n.pos))
  }

  /// An expression followed by an assignment or by the end of the line; nothing when no
  /// expression starts here.
  function ExpressionStatement(ts: seq<LexToken>, pos: nat): (r: Outcome<Option<Node>>)
    requires pos <= |ts|
    ensures r.Ok? ==> pos <= r.value.pos <= |ts|
    ensures r.Ok? && r.value.value.Some? ==> pos < r.value.pos
  {
    match Expression(ts, pos, 0)
    case Err(e) => Err(e)
    case Ok(x) =>
      if x.value.None? then Ok(Parsed(None, x.pos))
      else
        match CurrentAt(ts, x.pos)
        case Err(e) => Err(e)
        case Ok(t) =>
          if t.kind == ASSIGN then Present(AssignmentStatement(ts, x.pos, x.value.value))
          else
            match Expect(ts, x.pos, [NEWLINE])
            case Err(e) => Err(e)
            case Ok(n) => Ok(Parsed(x.value, n.pos))
  }

  /// `Parser().parse(tokens)` from `pos`: the statements with an empty scope stack, after
  /// which every token must have been consumed.
  function ParseProgram(ts: seq<LexToken>, pos: nat): (r: Result<Program, ParseFailure>)
    requires pos <= |ts|
  {
    match Statements(ts, pos, [], [])
    case Err(e) => Err(e)
    case Ok(s) =>
      match EndCheck(ts, s.pos)
      case Some(e) => Err(e)
      case None => Ok(Program(s.value))
  }
}
