/// The syntax-error record shared by the lexer, the token stream and the parser, and the
/// two-part report printed for it (abrvalg/errors.py).
module Errors {
  import opened Text

  /// A lexical or grammatical error: its message and the 1-based line and column it
  /// points at (column 0 for a synthesised INDENT or DEDENT token).
  datatype SyntaxError = SyntaxError(message: string, line: int, column: int)

  /// An exception that escapes the token stream or the parser: the language's own
  /// syntax error, or a host exception the code does not catch (an index into an empty
  /// token list, a missing key in the precedence table).
  datatype ParseFailure =
    | Syntax(error: SyntaxError)
    | HostIndexError
    | HostKeyError(key: string)

  /// What `report_syntax_error` prints, as values: a header line, then the recorded
  /// source line and a caret line beneath it.
  datatype Report = Report(header: string, sourceLine: string, caret: string)
  {
    /// The text written to the output by the two print calls.
    function Printed(): string {
      header + "\n" + sourceLine + "\n" + caret + "\n"
    }
  }

  const HeaderPrefix: string := "Syntax error: "

  /// The header line names the message, the line and the column.
  function Header(e: SyntaxError): string {
    HeaderPrefix + e.message + " at line " + ShowInt(e.line) + ", column " + ShowInt(e.column)
  }

  /// The position `source_lines[line - 1]` reads, with the host's indexing: a line of 0
  /// or less counts back from the end of the list.
  function LineIndex(line: int, n: nat): int {
    if line >= 1 then line - 1 else line - 1 + n
  }

  /// The report for `e`, given the source lines the lexer recorded. The line number
  /// must index into them (the host raises an IndexError otherwise).
  function ReportSyntaxError(sourceLines: seq<string>, e: SyntaxError): (r: Report)
    requires 1 - |sourceLines| <= e.line <= |sourceLines|
    ensures 0 <= LineIndex(e.line, |sourceLines|) < |sourceLines|
    ensures e.line >= 1 ==> r.sourceLine == sourceLines[e.line - 1]
    ensures e.line < 1 ==> r.sourceLine == sourceLines[|sourceLines| + e.line - 1]
    ensures r.header == Header(e)
    // the caret sits under character `column` of the source line: column - 1 spaces
    // (none when the column is 0 or less), then `^`
    ensures |r.caret| == (if e.column > 1 then e.column else 1)
    ensures r.caret[|r.caret| - 1] == '^'
    ensures forall i :: 0 <= i < |r.caret| - 1 ==> r.caret[i] == ' '
  {
    Report(Header(e), sourceLines[LineIndex(e.line, |sourceLines|)], Repeat(' ', e.column - 1) + "^")
  }

  /// The header can be taken apart again: after the fixed prefix comes the message,
  /// then the line and column numbers in decimal.
  lemma HeaderNumbers(e: SyntaxError)
    requires e.line >= 0 && e.column >= 0
    ensures Header(e) == HeaderPrefix + e.message + " at line " + ShowNat(e.line) + ", column " + ShowNat(e.column)
    ensures DigitsValue(ShowNat(e.line)) == e.line && DigitsValue(ShowNat(e.column)) == e.column
  {
    DigitsValueOfShowNat(e.line);
    DigitsValueOfShowNat(e.column);
  }
}
