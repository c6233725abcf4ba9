/// `evaluate_env` and `evaluate` of abrvalg/interpreter.py: the source is lexed, the
/// tokens are parsed, and the program's statements run in the given environment. A
/// syntax error from the lexer or the parser is reported (with the source lines the
/// lexer recorded) and the environment is left as it was.
module Pipeline {
  import opened Results
  import opened Errors
  import opened Lexer
  import opened Ast
  import Grammar
  import Parser
  import LexerLemmas
  import opened Values
  import opened Evaluator
  import opened Interpreter

  /// How `evaluate_env` ends: a syntax error was reported (it then returns `None`), a
  /// host exception escaped from the token stream, the parser or the report, or the
  /// program ran and ended with a signal.
  datatype Evaluation =
    | Reported(report: Report)
    | Crashed(failure: ParseFailure)
    | Finished(sig: Signal<Value>)

  /// `report_syntax_error(lexer, e)`: the report, or the host's IndexError when the
  /// error's line does not index into the recorded lines.
  function Reporting(sourceLines: seq<string>, e: SyntaxError): (r: Evaluation)
    ensures r.Reported? <==> 1 - |sourceLines| <= e.line <= |sourceLines|
    ensures r.Reported? ==> r.report.header == Header(e)
    ensures r.Crashed? ==> r.failure == HostIndexError
  {
    if 1 - |sourceLines| <= e.line <= |sourceLines| then Reported(ReportSyntaxError(sourceLines, e))
    else Crashed(HostIndexError)
  }

  /// What `evaluate_env(s, env)` ends with, and the state it leaves the environment in,
  /// when the environment starts in state `st`.
  function EvaluateEnvSpec(s: string, fuel: nat, st: State): (r: (Evaluation, State))
    requires Wf(st)
    ensures Follows(st, r.1)
    ensures !r.0.Finished? ==> r.1 == st
  {
    var lexed := TokenizeSource(s);
    match lexed.result
    case Err(e) => (Reporting(lexed.recorded, e), st)
    case Ok(tokens) =>
      match Grammar.ParseProgram(tokens, 0)
      case Err(Syntax(e)) => (Reporting(lexed.recorded, e), st)
      case Err(f) => (Crashed(f), st)
      case Ok(program) =>
        var o := ExecBody(fuel, st, program.body, 0, NoneV);
        (Finished(o.sig), o.st)
  }

  /// `evaluate_env(s, env)`.
  method EvaluateEnv(s: string, env: Environment, fuel: nat) returns (r: Evaluation)
    requires env.Valid()
    modifies env
    ensures env.Valid()
    ensures (r, env.Snapshot()) == EvaluateEnvSpec(s, fuel, old(env.Snapshot()))
  {
    var lexer := new Lexer();
    var tokens := lexer.Tokenize(s);
    assert lexer.sourceLines == TokenizeSource(s).recorded;
    if tokens.Err? {
      return Reporting(lexer.sourceLines, tokens.error);
    }
    var stream := new TokenStream(tokens.value);
    var parser := new Parser.Parser();
    var program := parser.Parse(stream);
    assert program == Grammar.ParseProgram(tokens.value, 0);
    if program.Err? {
      if program.error.Syntax? {
        return Reporting(lexer.sourceLines, program.error.error);
      }
      return Crashed(program.error);
    }
    var sig := env.ExecStatements(fuel, program.value.body);
    return Finished(sig);
  }

  /// `evaluate(s)`: `evaluate_env` in a fresh global environment.
  method Evaluate(s: string, fuel: nat) returns (r: Evaluation)
    ensures r == EvaluateEnvSpec(s, fuel, State([GlobalFrame()], [])).0
  {
    var env := new Environment.Global();
    r := EvaluateEnv(s, env, fuel);
  }

  /// A source the lexer rejects is reported at the last line it recorded, with the caret
  /// under the character no rule matches, and the environment is untouched.
  lemma LexErrorReported(s: string, fuel: nat, st: State)
    requires Wf(st) && TokenizeSource(s).result.Err?
    ensures var (r, st') := EvaluateEnvSpec(s, fuel, st);
      var e := TokenizeSource(s).result.error;
      && st' == st
      && r.Reported?
      && 1 <= e.column <= |r.report.sourceLine|
      && r.report.sourceLine == TokenizeSource(s).recorded[|TokenizeSource(s).recorded| - 1]
      && e.message == UnexpectedCharacter(r.report.sourceLine[e.column - 1])
      && |r.report.caret| == e.column
  {
    LexerLemmas.TokenizeSourceShape(s);
  }
}
