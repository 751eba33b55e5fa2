/** The code analysis tool: Python code goes to an AST-based analyser, any
    other language to line and keyword counting. */
module CodeAnalysis {
  import opened Text

  const FunctionKeywords: seq<string> := ["function", "def", "func", "method", "procedure"]
  const ClassKeywords: seq<string> := ["class", "interface", "struct"]
  const ControlFlowKeywords: seq<string> := ["if", "else", "while", "for", "switch", "case"]

  /** `line.strip()` is truthy. */
  predicate IsNonEmptyLine(line: string) {
    Strip(line) != ""
  }

  /** A line counts as non-empty exactly when it holds a character that is not
      white space. */
  lemma NonEmptyIffNotBlank(line: string)
    ensures IsNonEmptyLine(line) <==> !AllSpace(line)
  {
    StripEmpty(line);
  }

  /** The stripped line starts with one of the four comment markers: two
      slashes, a hash, slash-star or a star. */
  predicate IsCommentLine(line: string) {
    var t := Strip(line);
    StartsWith(t, "//") || StartsWith(t, "#") || StartsWith(t, "/*") || StartsWith(t, "*")
  }

  function CountNonEmpty(lines: seq<string>): nat
    decreases |lines|
  {
    if lines == [] then 0 else (if IsNonEmptyLine(lines[0]) then 1 else 0) + CountNonEmpty(lines[1..])
  }

  function CountComments(lines: seq<string>): nat
    decreases |lines|
  {
    if lines == [] then 0 else (if IsCommentLine(lines[0]) then 1 else 0) + CountComments(lines[1..])
  }

  /** A comment line is never blank, so there are no more comment lines than
      non-empty ones, and no more non-empty lines than lines. */
  lemma {:induction false} CommentsWithinNonEmpty(lines: seq<string>)
    ensures CountComments(lines) <= CountNonEmpty(lines) <= |lines|
    decreases |lines|
  {
    if lines != [] {
      CommentsWithinNonEmpty(lines[1..]);
    }
  }

  /** How many of `keywords` occur in the lower-cased line. */
  function KeywordsIn(line: string, keywords: seq<string>): (n: nat)
    ensures n <= |keywords|
    decreases |keywords|
  {
    if keywords == [] then 0
    else (if Contains(Lower(line), keywords[0]) then 1 else 0) + KeywordsIn(line, keywords[1..])
  }

  /** `sum(1 for line in lines for keyword in keywords if keyword in line.lower())` */
  function KeywordHits(lines: seq<string>, keywords: seq<string>): nat
    decreases |lines|
  {
    if lines == [] then 0 else KeywordsIn(lines[0], keywords) + KeywordHits(lines[1..], keywords)
  }

  /** Each line contributes at most one hit per keyword, so the count never
      exceeds lines times keywords. */
  lemma {:induction false} KeywordHitsBound(lines: seq<string>, keywords: seq<string>)
    ensures KeywordHits(lines, keywords) <= |lines| * |keywords|
    decreases |lines|
  {
    if lines != [] {
      KeywordHitsBound(lines[1..], keywords);
      assert |lines| * |keywords| == (|lines| - 1) * |keywords| + |keywords|;
    }
  }

  /** Counting is additive over the lines: the hits of a whole text are the
      hits of its first part plus those of the rest. */
  lemma {:induction false} KeywordHitsAppend(a: seq<string>, b: seq<string>, keywords: seq<string>)
    ensures KeywordHits(a + b, keywords) == KeywordHits(a, keywords) + KeywordHits(b, keywords)
    decreases |a|
  {
    if a == [] {
      assert a + b == b;
    } else {
      assert (a + b)[1..] == a[1..] + b;
      KeywordHitsAppend(a[1..], b, keywords);
    }
  }

  /** Keywords are counted as substrings: a line holding "function" also holds
      "func", so it counts at least twice as a function keyword. */
  lemma FunctionCountsTwice(line: string)
    requires Contains(Lower(line), "function")
    ensures KeywordsIn(line, FunctionKeywords) >= 2
  {
    ContainsPrefixOfPattern(Lower(line), "function", "func");
    var ks := FunctionKeywords;
    assert ks[1..][1..][1..] == ["method", "procedure"];
    assert KeywordsIn(line, ks) >= 1 + KeywordsIn(line, ks[1..][1..]);
    assert KeywordsIn(line, ks[1..][1..]) >= 1;
  }

  /** The figures `_analyze_generic_code` reports. */
  datatype CodeStats = CodeStats(
    totalLines: nat,
    nonEmptyLines: nat,
    commentLines: nat,
    functionKeywords: nat,
    classKeywords: nat,
    controlFlow: nat)

  /** The counts over `code.split('\n')`: one line more than there are line
      feeds, comment lines among the non-empty ones, each keyword group at most
      its size per line. */
  function GenericStats(code: string): (s: CodeStats)
    ensures s.totalLines == CountChar(code, '\n') + 1
    ensures s.nonEmptyLines == CountNonEmpty(SplitLines(code))
    ensures s.commentLines == CountComments(SplitLines(code))
    ensures s.functionKeywords == KeywordHits(SplitLines(code), FunctionKeywords)
    ensures s.classKeywords == KeywordHits(SplitLines(code), ClassKeywords)
    ensures s.controlFlow == KeywordHits(SplitLines(code), ControlFlowKeywords)
    ensures s.commentLines <= s.nonEmptyLines <= s.totalLines
    ensures s.functionKeywords <= s.totalLines * |FunctionKeywords|
    ensures s.classKeywords <= s.totalLines * |ClassKeywords|
    ensures s.controlFlow <= s.totalLines * |ControlFlowKeywords|
  {
    var lines := SplitLines(code);
    CommentsWithinNonEmpty(lines);
    KeywordHitsBound(lines, FunctionKeywords);
    KeywordHitsBound(lines, ClassKeywords);
    KeywordHitsBound(lines, ControlFlowKeywords);
    CodeStats(
      |lines|,
      CountNonEmpty(lines),
      CountComments(lines),
      KeywordHits(lines, FunctionKeywords),
      KeywordHits(lines, ClassKeywords),
      KeywordHits(lines, ControlFlowKeywords))
  }

  /** The report lines, before they are joined with line feeds. */
  function GenericReportLines(code: string, language: string): seq<string> {
    var s := GenericStats(code);
    [ "📊 General Code Analysis (" + language + "):",
      "   • Total lines: " + IntToString(s.totalLines),
      "   • Non-empty lines: " + IntToString(s.nonEmptyLines),
      "   • Comment lines: " + IntToString(s.commentLines),
      "\n🔍 Pattern Detection:",
      "   • Function Keywords: " + IntToString(s.functionKeywords),
      "   • Class Keywords: " + IntToString(s.classKeywords),
      "   • Control Flow: " + IntToString(s.controlFlow) ]
  }

  /** `_analyze_generic_code` */
  function GenericReport(code: string, language: string): (r: string)
    ensures StartsWith(r, "📊 General Code Analysis (" + language + "):")
  {
    JoinStartsWith(GenericReportLines(code, language), "\n");
    Join(GenericReportLines(code, language), "\n")
  }

  /** `CodeAnalysisTool._run`; `analysePython` stands for the AST-based analyser. */
  function AnalyzeCode(analysePython: string -> string, code: string, language: string := "python"): (r: string)
    ensures Lower(language) == "python" ==> r == analysePython(code)
    ensures Lower(language) != "python" ==> r == GenericReport(code, language)
  {
    if Lower(language) == "python" then analysePython(code) else GenericReport(code, language)
  }

  /** The default language and every capitalisation of "python" select the
      Python analyser; any other language gets the generic report. */
  lemma PythonInAnyCase(analysePython: string -> string, code: string, language: string)
    ensures AnalyzeCode(analysePython, code) == analysePython(code)
    ensures IsCasingOf(language, "python") ==> AnalyzeCode(analysePython, code, language) == analysePython(code)
    ensures !IsCasingOf(language, "python") ==> AnalyzeCode(analysePython, code, language) == GenericReport(code, language)
  {
    assert Lower("python") == "python";
    assert IsLowerWord("python");
    LowerIsCasing(language, "python");
  }
}
