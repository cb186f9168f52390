/** The offline explanation of the code explainer: when no language model
    is configured, a fixed message is chosen by testing the submitted code
    for a few keywords, in priority order. */
module MockExplain {
  import opened Strings

  /** Which fixed message is chosen, with the number it embeds. */
  datatype Explanation =
    | ClassWork(lines: nat)
    | FunctionWork(lines: nat)
    | SnippetWork(lines: nat)
    | ReturnLine(line: int)
    | ConditionalLine(line: int)
    | LoopLine(line: int)
    | AssignmentLine(line: int)
    | OperationLine(line: int)
    | Concepts

  predicate IsWork(e: Explanation)
  {
    e.ClassWork? || e.FunctionWork? || e.SnippetWork?
  }

  predicate IsLine(e: Explanation)
  {
    e.ReturnLine? || e.ConditionalLine? || e.LoopLine? || e.AssignmentLine? || e.OperationLine?
  }

  /** `text?.includes(sub)`: false when the text is absent. */
  predicate Includes(text: Option<string>, sub: string)
  {
    text.Some? && Contains(text.value, sub)
  }

  /** `sourceCode?.split('\n').length || 0`: the number of newline-separated
      segments, and 0 when there is no source. */
  function LineCount(sourceCode: Option<string>): (n: nat)
    ensures sourceCode.None? ==> n == 0
    ensures sourceCode.Some? ==> n == Count(sourceCode.value, '\n') + 1
  {
    match sourceCode
    case None => 0
    case Some(s) =>
      SplitCount(s, '\n');
      |Split(s, '\n')|
  }

  /** The keyword tests of `generateMockExplanation`, in the order the source
      applies them. A line number of 0 is falsy and counts as missing. */
  function Classify(kind: string, lineNumber: Option<int>, lineContent: Option<string>,
                    sourceCode: Option<string>): (e: Explanation)
    ensures IsWork(e) <==> kind == "work"
    ensures IsLine(e) <==> kind != "work" && kind == "line" && lineNumber.Some? && lineNumber.value != 0
    ensures IsWork(e) ==> e.lines == LineCount(sourceCode)
    ensures IsLine(e) ==> e.line == lineNumber.value
  {
    if kind == "work" then
      var n := LineCount(sourceCode);
      var hasFunction := Includes(sourceCode, "function") || Includes(sourceCode, "def ");
      var hasClass := Includes(sourceCode, "class ");
      if hasClass then ClassWork(n)
      else if hasFunction then FunctionWork(n)
      else SnippetWork(n)
    else if kind == "line" && lineNumber.Some? && lineNumber.value != 0 then
      var k := lineNumber.value;
      if Includes(lineContent, "return") then ReturnLine(k)
      else if Includes(lineContent, "if ") || Includes(lineContent, "else") then ConditionalLine(k)
      else if Includes(lineContent, "for ") || Includes(lineContent, "while ") then LoopLine(k)
      else if Includes(lineContent, "=") && !Includes(lineContent, "==") then AssignmentLine(k)
      else OperationLine(k)
    else Concepts
  }

  // ---------------------------------------------------------------------
  // The message texts.

  const ClassText := "defines a class structure"
    + " that encapsulates data and behavior."
    + " It demonstrates object-oriented programming principles"
    + " with methods and properties working together."
  const FunctionText := "implements a function"
    + " that processes input and produces output."
    + " It demonstrates procedural programming concepts"
    + " with structured logic flow."
  const SnippetText := "snippet performs specific"
    + " computational tasks."
    + " It showcases programming fundamentals"
    + " including variable manipulation and control structures."
  const ReturnText := "returns a value"
    + " from the current function,"
    + " passing the result back to the caller for further processing."
  const ConditionalText := "contains conditional logic"
    + " that controls program flow"
    + " based on specific criteria or boolean conditions."
  const LoopText := "initiates a loop structure"
    + " that repeats execution of code blocks"
    + " until certain conditions are met."
  const AssignmentText := "assigns a value"
    + " to a variable, storing data"
    + " for later use in the program execution."
  const OperationText := "executes a specific operation"
    + " that contributes to the overall functionality"
    + " of the code structure."
  const ConceptsText := "This code demonstrates"
    + " programming concepts and computational logic."

  /** `This ${lineCount}-line code ...` */
  function WorkMessage(lines: nat, text: string): string
  {
    "This " + NatToString(lines) + "-line code " + text
  }

  /** `Line ${lineNumber} ...` */
  function LineMessage(line: int, text: string): string
  {
    "Line " + IntToString(line) + " " + text
  }

  function WorkText(e: Explanation): string
    requires IsWork(e)
  {
    match e
    case ClassWork(_) => ClassText
    case FunctionWork(_) => FunctionText
    case SnippetWork(_) => SnippetText
  }

  function LineText(e: Explanation): string
    requires IsLine(e)
  {
    match e
    case ReturnLine(_) => ReturnText
    case ConditionalLine(_) => ConditionalText
    case LoopLine(_) => LoopText
    case AssignmentLine(_) => AssignmentText
    case OperationLine(_) => OperationText
  }

  lemma WorkMessageStart(lines: nat, text: string)
    ensures StartsWith(WorkMessage(lines, text), "This " + NatToString(lines) + "-line code ")
  {
    StartsWithAppend("This " + NatToString(lines) + "-line code ", text, "This " + NatToString(lines) + "-line code ");
  }

  lemma LineMessageStart(line: int, text: string)
    ensures StartsWith(LineMessage(line, text), "Line " + IntToString(line) + " ")
  {
    StartsWithAppend("Line " + IntToString(line) + " ", text, "Line " + IntToString(line) + " ");
  }

  /** The text of the chosen message: a work message opens with the line
      count, a line message with the line number. */
  function Message(e: Explanation): (m: string)
    ensures IsWork(e) ==> StartsWith(m, "This " + NatToString(e.lines) + "-line code ")
    ensures IsLine(e) ==> StartsWith(m, "Line " + IntToString(e.line) + " ")
    ensures !IsWork(e) && !IsLine(e) ==> m == ConceptsText
  {
    if IsWork(e) then
      WorkMessageStart(e.lines, WorkText(e));
      WorkMessage(e.lines, WorkText(e))
    else if IsLine(e) then
      LineMessageStart(e.line, LineText(e));
      LineMessage(e.line, LineText(e))
    else ConceptsText
  }

  /** `generateMockExplanation`: total, and never empty. */
  function MockExplanation(kind: string, lineNumber: Option<int>, lineContent: Option<string>,
                           sourceCode: Option<string>): (r: string)
    ensures |r| > 0
  {
    Message(Classify(kind, lineNumber, lineContent, sourceCode))
  }

  // ---------------------------------------------------------------------
  // Reading a message back: different choices give different messages.

  /** Length of the run of decimal digits that begins the text. */
  function DigitRun(s: string): (n: nat)
    ensures n <= |s|
  {
    if |s| == 0 || !IsDigit(s[0]) then 0 else 1 + DigitRun(s[1..])
  }

  lemma {:induction false} DigitRunOf(d: string, r: string)
    requires forall i :: 0 <= i < |d| ==> IsDigit(d[i])
    requires |r| > 0 && !IsDigit(r[0])
    ensures DigitRun(d + r) == |d|
  {
    if |d| > 0 {
      assert (d + r)[1..] == d[1..] + r;
      DigitRunOf(d[1..], r);
    }
  }

  /** A run of digits followed by a non-digit is determined by the text. */
  lemma DigitsPrefixUnique(d1: string, r1: string, d2: string, r2: string)
    requires forall i :: 0 <= i < |d1| ==> IsDigit(d1[i])
    requires forall i :: 0 <= i < |d2| ==> IsDigit(d2[i])
    requires |r1| > 0 && !IsDigit(r1[0]) && |r2| > 0 && !IsDigit(r2[0])
    requires d1 + r1 == d2 + r2
    ensures d1 == d2 && r1 == r2
  {
    var s := d1 + r1;
    DigitRunOf(d1, r1);
    DigitRunOf(d2, r2);
    assert d1 == s[..|d1|] && d2 == s[..|d2|];
    assert r1 == s[|d1|..] && r2 == s[|d2|..];
  }

  lemma WorkMessageInjective(n1: nat, t1: string, n2: nat, t2: string)
    requires WorkMessage(n1, t1) == WorkMessage(n2, t2)
    ensures n1 == n2 && t1 == t2
  {
    var d1, d2 := NatToString(n1), NatToString(n2);
    ConcatAssoc("This " + d1, "-line code ", t1);
    ConcatAssoc("This ", d1, "-line code " + t1);
    ConcatAssoc("This " + d2, "-line code ", t2);
    ConcatAssoc("This ", d2, "-line code " + t2);
    var s := WorkMessage(n1, t1);
    assert d1 + ("-line code " + t1) == s[5..] == d2 + ("-line code " + t2);
    DigitsPrefixUnique(d1, "-line code " + t1, d2, "-line code " + t2);
    NatToStringInjective(n1, n2);
    assert t1 == ("-line code " + t1)[11..];
    assert t2 == ("-line code " + t2)[11..];
  }

  /** The same for a rendered integer, whose sign is its first character. */
  lemma IntPrefixUnique(k1: int, r1: string, k2: int, r2: string)
    requires |r1| > 0 && r1[0] == ' ' && |r2| > 0 && r2[0] == ' '
    requires IntToString(k1) + r1 == IntToString(k2) + r2
    ensures k1 == k2 && r1 == r2
  {
    var i1, i2 := IntToString(k1), IntToString(k2);
    assert i1[0] == (i1 + r1)[0] == i2[0];
    if k1 < 0 {
      var d1, d2 := NatToString(-k1), NatToString(-k2);
      ConcatAssoc("-", d1, r1);
      ConcatAssoc("-", d2, r2);
      assert d1 + r1 == (i1 + r1)[1..];
      assert d2 + r2 == (i2 + r2)[1..];
      DigitsPrefixUnique(d1, r1, d2, r2);
      NatToStringInjective(-k1, -k2);
    } else {
      DigitsPrefixUnique(i1, r1, i2, r2);
      NatToStringInjective(k1, k2);
    }
  }

  lemma LineMessageInjective(k1: int, t1: string, k2: int, t2: string)
    requires LineMessage(k1, t1) == LineMessage(k2, t2)
    ensures k1 == k2 && t1 == t2
  {
    var i1, i2 := IntToString(k1), IntToString(k2);
    ConcatAssoc("Line " + i1, " ", t1);
    ConcatAssoc("Line ", i1, " " + t1);
    ConcatAssoc("Line " + i2, " ", t2);
    ConcatAssoc("Line ", i2, " " + t2);
    var s := LineMessage(k1, t1);
    assert i1 + (" " + t1) == s[5..] == i2 + (" " + t2);
    IntPrefixUnique(k1, " " + t1, k2, " " + t2);
    assert t1 == (" " + t1)[1..] && t2 == (" " + t2)[1..];
  }

  /** The texts of the work messages, and of the line messages, differ in
      their first letter. */
  lemma TextInitials(e: Explanation)
    ensures IsWork(e) ==> WorkText(e)[0] == (if e.ClassWork? then 'd' else if e.FunctionWork? then 'i' else 's')
    ensures IsLine(e) ==>
      LineText(e)[0] == (if e.ReturnLine? then 'r' else if e.ConditionalLine? then 'c'
                         else if e.LoopLine? then 'i' else if e.AssignmentLine? then 'a' else 'e')
  {
  }

  /** Different choices give different messages, so each property of the
      choice below is a property of the message text. */
  lemma MessageInjective(e1: Explanation, e2: Explanation)
    requires Message(e1) == Message(e2)
    ensures e1 == e2
  {
    TextInitials(e1);
    TextInitials(e2);
    if IsWork(e1) && IsWork(e2) {
      WorkMessageInjective(e1.lines, WorkText(e1), e2.lines, WorkText(e2));
    } else if IsLine(e1) && IsLine(e2) {
      LineMessageInjective(e1.line, LineText(e1), e2.line, LineText(e2));
    } else {
      FirstCharacters(e1);
      FirstCharacters(e2);
    }
  }

  /** Work messages begin `This ` and a digit, line messages begin `Line`,
      and the fixed sentence begins `This c`. */
  lemma FirstCharacters(e: Explanation)
    ensures |Message(e)| > 5
    ensures IsWork(e) ==> Message(e)[0] == 'T' && IsDigit(Message(e)[5])
    ensures IsLine(e) ==> Message(e)[0] == 'L'
    ensures e.Concepts? ==> Message(e)[0] == 'T' && Message(e)[5] == 'c'
  {
    var m := Message(e);
    if IsWork(e) {
      var p := "This " + NatToString(e.lines) + "-line code ";
      assert m[0] == p[0] && m[5] == p[5] == NatToString(e.lines)[0];
    } else if IsLine(e) {
      var p := "Line " + IntToString(e.line) + " ";
      assert m[0] == p[0];
    }
  }

  // ---------------------------------------------------------------------
  // Properties of the offline explanation.

  /** A work explanation names the class message when the source mentions
      `class `, whatever else it mentions; the function message when it
      mentions `function` or `def ` but not `class `; the snippet message
      otherwise. Each embeds the source's line count. */
  lemma WorkPriority(lineNumber: Option<int>, lineContent: Option<string>, sourceCode: Option<string>)
    ensures var r := MockExplanation("work", lineNumber, lineContent, sourceCode);
      var n := LineCount(sourceCode);
      && StartsWith(r, "This " + NatToString(n) + "-line code ")
      && (Includes(sourceCode, "class ") ==> r == WorkMessage(n, ClassText))
      && (!Includes(sourceCode, "class ") && (Includes(sourceCode, "function") || Includes(sourceCode, "def "))
          ==> r == WorkMessage(n, FunctionText))
      && (!Includes(sourceCode, "class ") && !Includes(sourceCode, "function") && !Includes(sourceCode, "def ")
          ==> r == WorkMessage(n, SnippetText))
  {
    var e := Classify("work", lineNumber, lineContent, sourceCode);
    assert IsWork(e) && e.lines == LineCount(sourceCode);
    WorkMessageStart(e.lines, WorkText(e));
  }

  /** A line explanation with a non-zero line number begins
      `Line <number> `. */
  lemma LineEmbedsNumber(lineNumber: int, lineContent: Option<string>, sourceCode: Option<string>)
    requires lineNumber != 0
    ensures StartsWith(MockExplanation("line", Some(lineNumber), lineContent, sourceCode),
                       "Line " + IntToString(lineNumber) + " ")
  {
    var e := Classify("line", Some(lineNumber), lineContent, sourceCode);
    assert IsLine(e) && e.line == lineNumber;
    LineMessageStart(lineNumber, LineText(e));
  }

  /** A line explanation with a non-zero line number tests for `return`,
      then `if `/`else`, then `for `/`while `, then an `=` that is not part
      of `==`. */
  lemma LinePriority(lineNumber: int, lineContent: Option<string>, sourceCode: Option<string>)
    requires lineNumber != 0
    ensures var r := MockExplanation("line", Some(lineNumber), lineContent, sourceCode);
      var k := lineNumber;
      var ret := Includes(lineContent, "return");
      var cond := Includes(lineContent, "if ") || Includes(lineContent, "else");
      var loop := Includes(lineContent, "for ") || Includes(lineContent, "while ");
      var assign := Includes(lineContent, "=") && !Includes(lineContent, "==");
      && (ret ==> r == LineMessage(k, ReturnText))
      && (!ret && cond ==> r == LineMessage(k, ConditionalText))
      && (!ret && !cond && loop ==> r == LineMessage(k, LoopText))
      && (!ret && !cond && !loop && assign ==> r == LineMessage(k, AssignmentText))
      && (!ret && !cond && !loop && !assign ==> r == LineMessage(k, OperationText))
  {
  }

  /** A line holding `==` is never explained as an assignment, whatever
      line number is given. */
  lemma NoAssignmentForEquality(kind: string, lineNumber: Option<int>, lineContent: Option<string>,
                                sourceCode: Option<string>, k: int)
    requires Includes(lineContent, "==")
    ensures MockExplanation(kind, lineNumber, lineContent, sourceCode) != LineMessage(k, AssignmentText)
  {
    var e := Classify(kind, lineNumber, lineContent, sourceCode);
    if Message(e) == Message(AssignmentLine(k)) {
      MessageInjective(e, AssignmentLine(k));
    }
  }

  /** The generic sentence is given exactly when the request is neither a
      work request nor a line request with a non-zero line number. */
  lemma GenericFallback(kind: string, lineNumber: Option<int>, lineContent: Option<string>,
                        sourceCode: Option<string>)
    ensures MockExplanation(kind, lineNumber, lineContent, sourceCode) == ConceptsText
        <==> kind != "work" && !(kind == "line" && lineNumber.Some? && lineNumber.value != 0)
  {
    var e := Classify(kind, lineNumber, lineContent, sourceCode);
    if Message(e) == Message(Concepts) {
      MessageInjective(e, Concepts);
    }
  }
}
