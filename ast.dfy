/// The abstract syntax tree of abrvalg/ast.py: one constructor per node shape, with the
/// fields in the order the source declares them. A field the parser may leave empty is an
/// `Option` (the source stores `None` there).
module Ast {
  import opened Results
  import opened Lexer

  datatype Node =
    | Number(numeral: Numeral)
    | String(text: string)
    | Identifier(name: string)
      /// `left` is any expression (an identifier, a subscript, ...); the assigned expression
      /// `rhs` is missing when nothing after `=` starts an expression.
    | Assignment(left: Node, rhs: Option<Node>)
    | BinaryOperator(operator: string, left: Node, right: Node)
    | UnaryOperator(operator: string, right: Node)
    | Call(left: Node, arguments: seq<Node>)
      /// A function declaration; the same node is the function value at run time.
    | Function(name: string, params: seq<string>, body: seq<Node>)
    | Condition(test: Node, ifBody: seq<Node>, elifs: seq<ConditionElif>, elseBody: ElsePart)
      /// The `subject` is missing when nothing after `match` starts an expression.
    | Match(subject: Option<Node>, patterns: seq<MatchPattern>, elseBody: ElsePart)
    | WhileLoop(test: Node, body: seq<Node>)
      /// `collection` is missing when nothing after `in` starts an expression.
    | ForLoop(varName: string, collection: Option<Node>, body: seq<Node>)
    | Break
    | Continue
      /// `value` is missing for a bare `return`.
    | Return(value: Option<Node>)
    | Array(items: seq<Node>)
    | Dictionary(entries: seq<Entry>)
    | SubscriptOperator(left: Node, key: Node)

  /// The `else` branch of a conditional or a `match`, which the source stores as `None`
  /// when it is absent.
  datatype ElsePart = NoElse | ElseBody(body: seq<Node>)

  /// An `elif` branch.
  datatype ConditionElif = ConditionElif(test: Node, body: seq<Node>)

  /// A `when` branch of a `match`.
  datatype MatchPattern = MatchPattern(pattern: Node, body: seq<Node>)

  /// A key-value pair of a dictionary literal.
  datatype Entry = Entry(key: Node, value: Node)

  datatype Program = Program(body: seq<Node>)
}
