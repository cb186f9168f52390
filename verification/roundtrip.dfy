/** What the decoder reads back out of a document the encoder wrote. The
    title and author come back as written (escaped, or the defaults), the
    language comes back unless it is empty, and the source text comes back
    without its blank lines: blank lines are written as empty self-closing
    elements, which the line pattern does not match. */
module RoundTrip {
  import opened Strings
  import opened Escaping
  import opened Scanner
  import opened Template
  import opened CodeTei
  import opened TemplateAvoidance

  /** The lines that survive a round trip: the non-blank ones, in order. */
  function NonBlank(lines: seq<string>): (kept: seq<string>)
    ensures |kept| <= |lines|
    ensures forall k :: 0 <= k < |kept| ==> !IsBlank(kept[k])
  {
    if |lines| == 0 then []
    else (if IsBlank(lines[0]) then [] else [lines[0]]) + NonBlank(lines[1..])
  }

  lemma {:induction false} NonBlankIdentity(lines: seq<string>)
    requires forall k :: 0 <= k < |lines| ==> !IsBlank(lines[k])
    ensures NonBlank(lines) == lines
  {
    if |lines| > 0 {
      NonBlankIdentity(lines[1..]);
      assert lines == [lines[0]] + lines[1..];
    }
  }

  /** The filter line by line: a single line is kept exactly when it is
      not blank, and the filter of two runs of lines is the filter of the
      first followed by the filter of the second. */
  lemma {:induction false} NonBlankAppend(a: seq<string>, b: seq<string>)
    ensures |a| == 1 ==> NonBlank(a) == if IsBlank(a[0]) then [] else a
    ensures NonBlank(a + b) == NonBlank(a) + NonBlank(b)
    decreases |a|
  {
    if |a| == 0 {
      assert a + b == b;
    } else {
      var head := if IsBlank(a[0]) then [] else [a[0]];
      var ab := a + b;
      assert ab[0] == a[0] && ab[1..] == a[1..] + b;
      NonBlankAppend(a[1..], b);
      calc {
        NonBlank(ab);
        head + NonBlank(a[1..] + b);
        head + (NonBlank(a[1..]) + NonBlank(b));
        (head + NonBlank(a[1..])) + NonBlank(b);
      }
      if |a| == 1 {
        assert a[1..] == [] && a == [a[0]];
        assert head + NonBlank(a[1..]) == head + [] == head;
      }
    }
  }

  /** A line survives exactly when it is one of the lines and not blank. */
  lemma {:induction false} NonBlankMembers(lines: seq<string>)
    ensures forall l :: l in NonBlank(lines) <==> l in lines && !IsBlank(l)
    decreases |lines|
  {
    if |lines| > 0 {
      NonBlankMembers(lines[1..]);
      assert lines == [lines[0]] + lines[1..];
    }
  }

  // ---------------------------------------------------------------------
  // The line elements under the line and content patterns.

  /** What follows a line element: its first `<` does not begin a closing
      `</code:line>`, so an empty self-closing element cannot match. */
  predicate NoLineCloseNext(rest: string)
  {
    var k := RunLen(rest, '<');
    k < |rest| && !StartsWith(rest[k..], "</code:line>")
  }

  lemma NoLineCloseNextFrom(w: string, t: string, rest: string)
    requires StartsWith(rest, w + t)
    requires '<' !in w && |t| > 0 && t[0] == '<' && !Compatible(t, "</code:line>")
    ensures NoLineCloseNext(rest)
  {
    var more := rest[|w + t|..];
    assert rest == w + (t + more);
    RunLenAppend(w, t + more, '<');
    assert rest[|w|..] == t + more;
    NotStartsWith(t, more, "</code:line>");
  }

  lemma ContentFound(text: string)
    requires '<' !in text
    ensures Find(ContentPattern, ">" + text + "</code:line>") == Some(text)
  {
    MatchAtShape(ContentPattern, "", text, "</code:line>");
    assert ">" + "" + "" + text + "</code:line>" == ">" + text + "</code:line>";
  }

  /** The content pattern finds the escaped text of a non-blank element. */
  lemma ContentOfElement(attrs: string, text: string)
    requires '>' !in attrs && '<' !in text
    ensures Find(ContentPattern, LineOpen + attrs + ">" + text + "</code:line>") == Some(text)
  {
    var tag := LineOpen + attrs;
    AvoidsByKey(tag, ">", 0, '>', "");
    var rest := ">" + text + "</code:line>";
    SkipAvoided(ContentPattern, tag, rest);
    ContentFound(text);
    ConcatAssoc(tag, ">" + text, "</code:line>");
    ConcatAssoc(tag, ">", text);
  }

  lemma LineTextsCons(m: string, ms: seq<string>)
    ensures LineTexts([m] + ms) == [LineText(m)] + LineTexts(ms)
  {
    assert ([m] + ms)[1..] == ms;
  }

  /** The leading indentation of a line element holds no match. */
  lemma SkipIndent(n: nat, tail: string, rest: string)
    ensures FindAll(LinePattern, "        " + LineOpen + LineAttributes(n) + tail + rest)
         == FindAll(LinePattern, LineOpen + LineAttributes(n) + tail + rest)
  {
    var indent, open, attrs := "        ", LineOpen, LineAttributes(n);
    ConcatAssoc(indent, open, attrs);
    ConcatAssoc(indent, open + attrs, tail);
    ConcatAssoc(indent, open + attrs + tail, rest);
    AvoidsByKey(indent, LineOpen, 0, '<', "");
    SkipAvoided(LinePattern, indent, open + attrs + tail + rest);
  }

  /** A blank line's empty element is passed over. */
  lemma BlankElementScan(n: nat, rest: string)
    requires NoLineCloseNext(rest)
    ensures FindAll(LinePattern, LineOpen + LineAttributes(n) + "/>" + rest) == FindAll(LinePattern, rest)
  {
    BlankElementMiss(n, rest);
    BlankElementAvoids(n);
    SkipMiss(LinePattern, LineOpen + LineAttributes(n) + "/>", rest);
  }

  lemma BlankElementMiss(n: nat, rest: string)
    requires NoLineCloseNext(rest)
    ensures MatchAt(LinePattern, LineOpen + LineAttributes(n) + "/>" + rest).None?
  {
    var open, attrs := LineOpen, LineAttributes(n);
    MissHere(LinePattern, attrs + "/", rest);
    assert "/" + ">" == "/>";
    ConcatAssoc(open, attrs, "/");
    ConcatAssoc(open + attrs, "/", ">");
  }

  lemma BlankElementAvoids(n: nat)
    ensures Avoids((LineOpen + LineAttributes(n) + "/>")[1..], LineOpen)
  {
    var attrs := LineAttributes(n);
    var t := "code:line" + attrs + "/>";
    assert LineOpen == ['<'] + "code:line";
    ConcatAssoc(['<'], "code:line", attrs);
    ConcatAssoc(['<'], "code:line" + attrs, "/>");
    assert (['<'] + t)[1..] == t;
    AvoidsByKey(t, LineOpen, 0, '<', "");
  }

  /** A non-blank line's element is matched whole, and its content decodes
      to the line. */
  lemma FilledElementScan(n: nat, line: string, rest: string)
    ensures var m := LineOpen + LineAttributes(n) + (">" + EscapeXml(line) + "</code:line>");
      && FindAll(LinePattern, m + rest) == [m] + FindAll(LinePattern, rest)
      && LineText(m) == line
  {
    var open, attrs, text := LineOpen, LineAttributes(n), EscapeXml(line);
    EscapeXmlIsMarkupFree(line);
    UnescapeEscape(line);
    MatchHere(LinePattern, attrs, text, rest);
    ConcatAssoc(open + attrs, ">" + text, "</code:line>");
    ConcatAssoc(open + attrs, ">", text);
    ContentOfElement(attrs, text);
  }

  /** One line element: a non-blank line is found and decodes to itself, a
      blank one is passed over. */
  lemma ElementScan(n: nat, line: string, rest: string)
    requires NoLineCloseNext(rest)
    ensures LineTexts(FindAll(LinePattern, LineElement(n, line) + rest))
         == (if IsBlank(line) then [] else [line]) + LineTexts(FindAll(LinePattern, rest))
  {
    var tail := if IsBlank(line) then "/>" else ">" + EscapeXml(line) + "</code:line>";
    assert LineElement(n, line) == "        " + LineOpen + LineAttributes(n) + tail;
    SkipIndent(n, tail, rest);
    if IsBlank(line) {
      BlankElementScan(n, rest);
    } else {
      FilledElementScan(n, line, rest);
      LineTextsCons(LineOpen + LineAttributes(n) + tail, FindAll(LinePattern, rest));
    }
  }

  lemma LineElementsCons(lines: seq<string>, n: nat)
    requires |lines| >= 1
    ensures LineElements(lines, n) == [LineElement(n, lines[0])] + LineElements(lines[1..], n + 1)
  {
  }

  /** After the last element, the closing text matches nothing more. */
  lemma BodyCloseScan()
    ensures NoLineCloseNext(BodyClose())
    ensures FindAll(LinePattern, BodyClose()) == []
  {
    var w, t, more := "\n      ", "</code:block>\n", BodyEnd() + StandOff() + "</TEI>";
    assert !Compatible(t, "</code:line>") by {
      assert t[7] != "</code:line>"[7];
    }
    ConcatAssoc(t, BodyEnd(), StandOff());
    ConcatAssoc(t, BodyEnd() + StandOff(), "</TEI>");
    assert BlockEnd() == t + more;
    ConcatAssoc(w, t, more);
    StartsWithAppend(w + t, more, w + t);
    NoLineCloseNextFrom(w, t, BodyClose());
    BodyCloseAvoidsLine();
    NoMatchIn(LinePattern, BodyClose());
  }

  /** A line element begins with its indentation and the opening literal. */
  lemma ElementStart(n: nat, line: string)
    ensures StartsWith(LineElement(n, line), "        " + LineOpen)
  {
    var tail := if IsBlank(line) then "/>" else ">" + EscapeXml(line) + "</code:line>";
    var head := "        " + LineOpen;
    assert StartsWith(head, head);
    StartsWithAppend(head, LineAttributes(n), head);
    StartsWithAppend(head + LineAttributes(n), tail, head);
  }

  /** An element followed by a newline and the next element: the element is
      scanned and the scan goes on after the newline. */
  lemma ElementThenNext(n: nat, line: string, y: string)
    requires StartsWith(y, "        " + LineOpen)
    ensures LineTexts(FindAll(LinePattern, LineElement(n, line) + ("\n" + y)))
         == (if IsBlank(line) then [] else [line]) + LineTexts(FindAll(LinePattern, y))
  {
    NextElementNoClose(y);
    ElementScan(n, line, "\n" + y);
    SkipNewline(y);
  }

  lemma NextElementNoClose(y: string)
    requires StartsWith(y, "        " + LineOpen)
    ensures NoLineCloseNext("\n" + y)
  {
    var w := "\n" + "        ";
    StartsWithBoth("\n", y, "        " + LineOpen);
    ConcatAssoc("\n", "        ", LineOpen);
    assert !Compatible(LineOpen, "</code:line>") by {
      assert LineOpen[1] != "</code:line>"[1];
    }
    NoLineCloseNextFrom(w, LineOpen, "\n" + y);
  }

  lemma SkipNewline(y: string)
    ensures FindAll(LinePattern, "\n" + y) == FindAll(LinePattern, y)
  {
    AvoidsByKey("\n", LineOpen, 0, '<', "");
    SkipAvoided(LinePattern, "\n", y);
  }

  /** The joined elements of several lines: the first element, a newline,
      then the joined elements of the rest, which begin with an element. */
  lemma JoinedElements(lines: seq<string>, n: nat, tailText: string)
    requires |lines| >= 2
    ensures var j := Join(LineElements(lines[1..], n + 1), "\n");
      && Join(LineElements(lines, n), "\n") + tailText == LineElement(n, lines[0]) + ("\n" + (j + tailText))
      && StartsWith(j + tailText, "        " + LineOpen)
  {
    var e := LineElement(n, lines[0]);
    var tailElements := LineElements(lines[1..], n + 1);
    var j := Join(tailElements, "\n");
    LineElementsCons(lines, n);
    JoinCons(e, tailElements, "\n");
    ConcatAssoc(e + "\n", j, tailText);
    ConcatAssoc(e, "\n", j + tailText);
    JoinFirst(tailElements, "\n");
    ElementStart(n + 1, lines[1]);
    StartsWithTrans(j, tailElements[0], "        " + LineOpen);
    StartsWithAppend(j, tailText, "        " + LineOpen);
  }

  /** All the line elements followed by the closing text decode to the
      non-blank lines. */
  lemma {:induction false} ScanLines(lines: seq<string>, n: nat)
    requires |lines| >= 1
    ensures LineTexts(FindAll(LinePattern, Join(LineElements(lines, n), "\n") + BodyClose())) == NonBlank(lines)
    decreases |lines|
  {
    if |lines| == 1 {
      LineElementsCons(lines, n);
      BodyCloseScan();
      ElementScan(n, lines[0], BodyClose());
      assert lines[1..] == [];
    } else {
      JoinedElements(lines, n, BodyClose());
      ElementThenNext(n, lines[0], Join(LineElements(lines[1..], n + 1), "\n") + BodyClose());
      ScanLines(lines[1..], n + 1);
    }
  }

  // ---------------------------------------------------------------------
  // The document as a whole.

  /** The pieces of a generated document, in order, and the prefixes each
      field's search needs. */
  lemma Layout(p: string, ho: string, i: string, te: string, ni: string, ae: string, hc: string,
               bs: string, lo: string, l: string, q: string, cl: string, bc: string)
    ensures var x := p + ho + i + te + ni + ae + hc + bs + lo + l + q + cl + bc;
      && StartsWith(x, p + ho + i + te)
      && StartsWith(x, p + ho + i + te + ni + ae)
      && StartsWith(x, p + ho + i + te + ni + ae + hc + bs + lo + l + q)
      && x == (p + ho + i + te + ni + ae + hc + bs + lo + l + q) + (cl + bc)
      && x == (p + ho + i + te + ni + ae + hc + bs) + (lo + l + q + cl + bc)
  {
    var a := p + ho + i + te;
    var b := a + ni + ae;
    var c := b + hc + bs + lo + l + q;
    assert StartsWith(a, a) && StartsWith(b, b) && StartsWith(c, c);
    StartsWithAppend(a, ni, a);
    StartsWithAppend(a + ni, ae, a);
    StartsWithAppend(b, hc, a);
    StartsWithAppend(b, hc, b);
    StartsWithAppend(b + hc, bs, a);
    StartsWithAppend(b + hc, bs, b);
    StartsWithAppend(b + hc + bs, lo, a);
    StartsWithAppend(b + hc + bs, lo, b);
    StartsWithAppend(b + hc + bs + lo, l, a);
    StartsWithAppend(b + hc + bs + lo, l, b);
    StartsWithAppend(b + hc + bs + lo + l, q, a);
    StartsWithAppend(b + hc + bs + lo + l, q, b);
    StartsWithAppend(c, cl, a);
    StartsWithAppend(c, cl, b);
    StartsWithAppend(c, cl, c);
    StartsWithAppend(c + cl, bc, a);
    StartsWithAppend(c + cl, bc, b);
    StartsWithAppend(c + cl, bc, c);
    ConcatAssoc(c, cl, bc);
    var d := b + hc + bs;
    ConcatAssoc(d, lo + l + q + cl, bc);
    ConcatAssoc(d, lo + l + q, cl);
    ConcatAssoc(d, lo + l, q);
    ConcatAssoc(d, lo, l);
  }

  /** A character missing from a text is missing from its prefixes. */
  lemma PrefixLacks(s: string, pre: string, c: char)
    requires StartsWith(s, pre) && c !in s
    ensures c !in pre
  {
  }

  // The title and author elements, for any text free of markup.

  lemma TitleAvoidsAuthor(t: string)
    requires '<' !in t
    ensures Avoids("<title>" + t + "</title>", AuthorOpen)
  {
    AvoidsByKey("<title>", AuthorOpen, 1, 'a', "<");
    AvoidsByKey(t, AuthorOpen, 0, '<', "");
    AvoidsByKey("</title>", AuthorOpen, 1, 'a', "<");
    AvoidsConcat3("<title>", t, "</title>", AuthorOpen);
  }

  /** An element around text without `<`, whose start and end tags hold no
      `c` and do not end in `<`, cannot begin a line element. */
  lemma FieldAvoidsLine(start: string, t: string, end: string)
    requires |start| > 0 && 'c' !in start && start[|start| - 1] != '<'
    requires |end| > 0 && 'c' !in end && end[|end| - 1] != '<'
    requires '<' !in t
    ensures Avoids(start + t + end, LineOpen)
  {
    AvoidsByKey(start, LineOpen, 1, 'c', "<");
    AvoidsByKey(t, LineOpen, 0, '<', "");
    AvoidsByKey(end, LineOpen, 1, 'c', "<");
    AvoidsConcat3(start, t, end, LineOpen);
  }

  lemma TitleAndAuthorAvoidLine(t: string, a: string)
    requires '<' !in t && '<' !in a
    ensures Avoids("<title>" + t + "</title>", LineOpen)
    ensures Avoids("<author xml:id=\"auth0\">" + a + "</author>", LineOpen)
  {
    FieldAvoidsLine("<title>", t, "</title>");
    FieldAvoidsLine("<author xml:id=\"auth0\">", a, "</author>");
  }

  lemma TitleAvoidsLang(t: string)
    requires '"' !in t
    ensures Avoids("<title>" + t + "</title>", LangOpen)
  {
    AvoidsByKey("<title>", LangOpen, 5, '"', "lang=");
    AvoidsByKey(t + "</title>", LangOpen, 5, '"', "lang=");
    ConcatAssoc("<title>", t, "</title>");
    AvoidsAppend("<title>", t + "</title>", LangOpen);
  }

  lemma AuthorAvoidsLang(t: string)
    requires '"' !in t
    ensures Avoids("<author xml:id=\"auth0\">" + t + "</author>", LangOpen)
  {
    AvoidsByKey("<author xml:id=\"auth0\">", LangOpen, 2, 'n', "la");
    AvoidsByKey(t + "</author>", LangOpen, 5, '"', "lang=");
    ConcatAssoc("<author xml:id=\"auth0\">", t, "</author>");
    AvoidsAppend("<author xml:id=\"auth0\">", t + "</author>", LangOpen);
  }

  lemma LineTagAvoidsLang(n: nat)
    ensures Avoids("        " + "<code:line" + LineAttributes(n), LangOpen)
  {
    AvoidsByKey("        ", LangOpen, 0, 'l', "");
    AvoidsByKey("<code:line", LangOpen, 1, 'a', "l");
    AvoidsByKey(LineAttributes(n), LangOpen, 1, 'a', "l");
    AvoidsConcat3("        ", "<code:line", LineAttributes(n), LangOpen);
  }

  lemma FilledTailAvoidsLang(text: string)
    requires '"' !in text
    ensures Avoids(">" + text + "</code:line>", LangOpen)
  {
    AvoidsByKey(">" + text + "</code:line>", LangOpen, 5, '"', "lang=");
  }

  /** No line element, whatever its line holds, contains the language
      attribute's opening. */
  lemma LineElementAvoidsLang(n: nat, line: string)
    ensures Avoids(LineElement(n, line), LangOpen)
  {
    LineTagAvoidsLang(n);
    if IsBlank(line) {
      AvoidsByKey("/>", LangOpen, 0, 'l', "");
      AvoidsAppend("        " + "<code:line" + LineAttributes(n), "/>", LangOpen);
    } else {
      EscapeXmlIsMarkupFree(line);
      FilledTailAvoidsLang(EscapeXml(line));
      AvoidsAppend("        " + "<code:line" + LineAttributes(n), ">" + EscapeXml(line) + "</code:line>", LangOpen);
    }
  }

  lemma CodeLinesAvoidsLang(sourceCode: string)
    ensures Avoids(CodeLines(sourceCode), LangOpen)
  {
    var lines := Split(sourceCode, '\n');
    var elements := LineElements(lines, 1);
    forall k | 0 <= k < |elements| ensures Avoids(elements[k], LangOpen) {
      LineElementAvoidsLang(1 + k, lines[k]);
    }
    AvoidsByKey("\n", LangOpen, 0, 'l', "");
    AvoidsJoin(elements, "\n", LangOpen);
  }

  // ---------------------------------------------------------------------
  // Each field found after text that cannot begin it.

  lemma TitleFoundAfter(pre: string, t: string, x: string)
    requires Avoids(pre, TitleOpen) && '<' !in t && |t| > 0
    requires StartsWith(x, pre + ("<title>" + t + "</title>"))
    ensures Find(TitlePattern, x) == Some(t)
  {
    assert TitleOpen + "" + "" + t + "</title>" == "<title>" + t + "</title>";
    FindPastPrefix(TitlePattern, pre, "", t, x);
  }

  lemma AuthorFoundAfter(pre: string, a: string, x: string)
    requires Avoids(pre, AuthorOpen) && '<' !in a && |a| > 0
    requires StartsWith(x, pre + ("<author xml:id=\"auth0\">" + a + "</author>"))
    ensures Find(AuthorPattern, x) == Some(a)
  {
    var attrs := " xml:id=\"auth0\"";
    assert AuthorOpen + attrs + ">" == "<author xml:id=\"auth0\">";
    FindPastPrefix(AuthorPattern, pre, attrs, a, x);
  }

  lemma LangFoundAfter(pre: string, l: string, rest: string, x: string)
    requires Avoids(pre, LangOpen) && '"' !in l && |l| > 0
    requires x == pre + "lang=\"" + l + ("\">\n" + rest)
    ensures Find(LangPattern, x) == Some(l)
  {
    var m := "lang=\"" + l + "\"";
    assert LangOpen + "" + "" + l + "\"" == m;
    var q := "\">\n" + rest;
    assert StartsWith(q, "\"");
    StartsWithBoth(pre + "lang=\"" + l, q, "\"");
    ConcatAssoc(pre, "lang=\"" + l, "\"");
    ConcatAssoc(pre, "lang=\"", l);
    FindPastPrefix(LangPattern, pre, "", l, x);
  }

  lemma LangMissingAfter(pre: string, rest: string, x: string)
    requires Avoids(pre, LangOpen) && Avoids(rest, LangOpen)
    requires x == pre + "lang=\"" + "" + ("\">\n" + rest)
    ensures Find(LangPattern, x) == None
  {
    var q := "\">\n" + rest;
    assert pre + "lang=\"" + "" == pre + LangOpen;
    ConcatAssoc(pre, LangOpen, q);
    AvoidsByKey("ang=\"", LangOpen, 0, 'l', "");
    AvoidsByKey("\">\n", LangOpen, 0, 'l', "");
    AvoidsAppend("\">\n", rest, LangOpen);
    FindMissEmpty(LangPattern, pre, q);
  }

  lemma LinesFoundAfter(pre: string, elements: string, x: string)
    requires Avoids(pre, LineOpen)
    requires x == pre + elements + BodyClose()
    ensures FindAll(LinePattern, x) == FindAll(LinePattern, elements + BodyClose())
  {
    ConcatAssoc(pre, elements, BodyClose());
    SkipAvoided(LinePattern, pre, elements + BodyClose());
  }

  // ---------------------------------------------------------------------
  // A generated document with its sections and interpolated values as
  // parameters, and each field read back out of it.

  /** The document `GenerateXml` writes, laid out from its prolog, header
      sections, title text, author text, language, code lines and closing
      text. */
  function Assembled(p: string, ho: string, t: string, a: string, hc: string, bs: string,
                     l: string, cl: string, bc: string): string
  {
    p + ho + "        " + ("<title>" + t + "</title>") + "\n        " + ("<author xml:id=\"auth0\">" + a + "</author>")
    + hc + bs + "lang=\"" + l + "\">\n" + cl + bc
  }

  lemma TitleInDocument(p: string, ho: string, t: string, a: string, hc: string, bs: string,
                        l: string, cl: string, bc: string)
    requires Avoids(p, TitleOpen) && Avoids(ho, TitleOpen)
    requires '<' !in t && |t| > 0
    ensures Find(TitlePattern, Assembled(p, ho, t, a, hc, bs, l, cl, bc)) == Some(t)
  {
    Layout(p, ho, "        ", "<title>" + t + "</title>", "\n        ", "<author xml:id=\"auth0\">" + a + "</author>", hc, bs, "lang=\"", l, "\">\n", cl, bc);
    AvoidsByKey("        ", TitleOpen, 0, '<', "");
    AvoidsConcat3(p, ho, "        ", TitleOpen);
    TitleFoundAfter(p + ho + "        ", t, Assembled(p, ho, t, a, hc, bs, l, cl, bc));
  }

  lemma AuthorInDocument(p: string, ho: string, t: string, a: string, hc: string, bs: string,
                         l: string, cl: string, bc: string)
    requires Avoids(p, AuthorOpen) && Avoids(ho, AuthorOpen)
    requires '<' !in t && '<' !in a && |a| > 0
    ensures Find(AuthorPattern, Assembled(p, ho, t, a, hc, bs, l, cl, bc)) == Some(a)
  {
    Layout(p, ho, "        ", "<title>" + t + "</title>", "\n        ", "<author xml:id=\"auth0\">" + a + "</author>", hc, bs, "lang=\"", l, "\">\n", cl, bc);
    AvoidsByKey("        ", AuthorOpen, 0, '<', "");
    TitleAvoidsAuthor(t);
    AvoidsByKey("\n        ", AuthorOpen, 0, '<', "");
    AvoidsConcat5(p, ho, "        ", "<title>" + t + "</title>", "\n        ", AuthorOpen);
    AuthorFoundAfter(p + ho + "        " + ("<title>" + t + "</title>") + "\n        ", a, Assembled(p, ho, t, a, hc, bs, l, cl, bc));
  }

  lemma LinesInDocument(p: string, ho: string, t: string, a: string, hc: string, bs: string,
                        l: string, cl: string)
    requires Avoids(p, LineOpen) && Avoids(ho, LineOpen) && Avoids(hc, LineOpen) && Avoids(bs, LineOpen)
    requires '<' !in t && '<' !in a && '<' !in l
    ensures FindAll(LinePattern, Assembled(p, ho, t, a, hc, bs, l, cl, BodyClose()))
         == FindAll(LinePattern, cl + BodyClose())
  {
    var bc := BodyClose();
    Layout(p, ho, "        ", "<title>" + t + "</title>", "\n        ", "<author xml:id=\"auth0\">" + a + "</author>", hc, bs, "lang=\"", l, "\">\n", cl, bc);
    var pre := p + ho + "        " + ("<title>" + t + "</title>") + "\n        ";
    AvoidsByKey("        ", LineOpen, 0, '<', "");
    TitleAndAuthorAvoidLine(t, a);
    AvoidsByKey("\n        ", LineOpen, 0, '<', "");
    AvoidsConcat5(p, ho, "        ", "<title>" + t + "</title>", "\n        ", LineOpen);
    AvoidsByKey("lang=\"", LineOpen, 0, '<', "");
    AvoidsConcat5(pre, "<author xml:id=\"auth0\">" + a + "</author>", hc, bs, "lang=\"", LineOpen);
    AvoidsByKey(l, LineOpen, 0, '<', "");
    AvoidsByKey("\">\n", LineOpen, 0, '<', "");
    AvoidsConcat3(pre + ("<author xml:id=\"auth0\">" + a + "</author>") + hc + bs + "lang=\"", l, "\">\n", LineOpen);
    LinesFoundAfter(pre + ("<author xml:id=\"auth0\">" + a + "</author>") + hc + bs + "lang=\"" + l + "\">\n", cl, Assembled(p, ho, t, a, hc, bs, l, cl, bc));
  }

  lemma LangInDocument(p: string, ho: string, t: string, a: string, hc: string, bs: string,
                       l: string, cl: string, bc: string)
    requires Avoids(p, LangOpen) && Avoids(ho, LangOpen) && Avoids(hc, LangOpen) && Avoids(bs, LangOpen)
    requires Avoids(cl, LangOpen) && Avoids(bc, LangOpen)
    requires '"' !in t && '"' !in a && '"' !in l
    ensures Find(LangPattern, Assembled(p, ho, t, a, hc, bs, l, cl, bc)) == if l == "" then None else Some(l)
  {
    Layout(p, ho, "        ", "<title>" + t + "</title>", "\n        ", "<author xml:id=\"auth0\">" + a + "</author>", hc, bs, "lang=\"", l, "\">\n", cl, bc);
    var pre := p + ho + "        " + ("<title>" + t + "</title>") + "\n        ";
    AvoidsByKey("        ", LangOpen, 0, 'l', "");
    TitleAvoidsLang(t);
    AvoidsByKey("\n        ", LangOpen, 0, 'l', "");
    AvoidsConcat5(p, ho, "        ", "<title>" + t + "</title>", "\n        ", LangOpen);
    AuthorAvoidsLang(a);
    AvoidsConcat4(pre, "<author xml:id=\"auth0\">" + a + "</author>", hc, bs, LangOpen);
    SkipAvoided(LangPattern, pre + ("<author xml:id=\"auth0\">" + a + "</author>") + hc + bs, "lang=\"" + l + "\">\n" + cl + bc);
    LangAtBlock(l, cl, bc);
  }

  /** The language attribute, followed by the code lines and closing text:
      the language is found unless it is empty. */
  lemma LangAtBlock(l: string, cl: string, bc: string)
    requires Avoids(cl, LangOpen) && Avoids(bc, LangOpen) && '"' !in l
    ensures Find(LangPattern, "lang=\"" + l + "\">\n" + cl + bc) == if l == "" then None else Some(l)
  {
    var x := "lang=\"" + l + "\">\n" + cl + bc;
    AvoidsAppend(cl, bc, LangOpen);
    ConcatAssoc("lang=\"" + l + "\">\n", cl, bc);
    ConcatAssoc("lang=\"" + l, "\">\n", cl + bc);
    assert "" + "lang=\"" == "lang=\"";
    AvoidsByKey("", LangOpen, 0, 'l', "");
    if l == "" {
      LangMissingAfter("", cl + bc, x);
    } else {
      LangFoundAfter("", l, cl + bc, x);
    }
  }

  lemma HeaderCloseOfAvoidsLine(author: string, timestamp: string)
    requires '<' !in timestamp
    ensures Avoids(HeaderClose(ShortDate(timestamp), ChangeWho(author), timestamp), LineOpen)
  {
    PrefixLacks(timestamp, ShortDate(timestamp), '<');
    ChangeWhoConstant(author);
    HeaderCloseAvoidsLine(ShortDate(timestamp), ChangeWho(author), timestamp);
  }

  lemma HeaderCloseOfAvoidsLang(author: string, timestamp: string)
    requires 'l' !in timestamp
    ensures Avoids(HeaderClose(ShortDate(timestamp), ChangeWho(author), timestamp), LangOpen)
  {
    PrefixLacks(timestamp, ShortDate(timestamp), 'l');
    ChangeWhoConstant(author);
    HeaderCloseAvoidsLang(ShortDate(timestamp), ChangeWho(author), timestamp);
  }

  /** No section of a document but the language attribute itself can begin
      the language search's opening literal. */
  lemma SectionsAvoidLang(input: CodeWorkInput, digest: string, timestamp: string)
    requires 'l' !in HashPrefix(digest) && 'l' !in timestamp
    ensures Avoids(Prolog(HashPrefix(digest)), LangOpen) && Avoids(HeaderOpen(), LangOpen)
    ensures Avoids(HeaderClose(ShortDate(timestamp), ChangeWho(input.author), timestamp), LangOpen)
    ensures Avoids(BlockStart(), LangOpen)
    ensures Avoids(CodeLines(input.sourceCode), LangOpen) && Avoids(BodyClose(), LangOpen)
  {
    PrologAvoidsLang(HashPrefix(digest));
    HeaderOpenAvoidsLang();
    HeaderCloseOfAvoidsLang(input.author, timestamp);
    BlockStartAvoidsLang();
    CodeLinesAvoidsLang(input.sourceCode);
    BodyCloseAvoidsLang();
  }

  /** No section before the code lines can begin the line search's opening
      literal. */
  lemma SectionsAvoidLine(input: CodeWorkInput, digest: string, timestamp: string)
    requires '<' !in HashPrefix(digest) && '<' !in timestamp
    ensures Avoids(Prolog(HashPrefix(digest)), LineOpen) && Avoids(HeaderOpen(), LineOpen)
    ensures Avoids(HeaderClose(ShortDate(timestamp), ChangeWho(input.author), timestamp), LineOpen)
    ensures Avoids(BlockStart(), LineOpen)
  {
    PrologAvoidsLine(HashPrefix(digest));
    HeaderOpenAvoidsLine();
    HeaderCloseOfAvoidsLine(input.author, timestamp);
    BlockStartAvoidsLine();
  }

  /** The title search finds the title as written. */
  lemma DecodeTitle(input: CodeWorkInput, digest: string, timestamp: string)
    requires '<' !in HashPrefix(digest)
    ensures Find(TitlePattern, GenerateXml(input, digest, timestamp)) == Some(TitleText(input.title))
  {
    PrologAvoidsTitle(HashPrefix(digest));
    HeaderOpenAvoidsTitle();
    TitleInDocument(Prolog(HashPrefix(digest)), HeaderOpen(), TitleText(input.title), AuthorText(input.author),
      HeaderClose(ShortDate(timestamp), ChangeWho(input.author), timestamp), BlockStart(),
      Language(input), CodeLines(input.sourceCode), BodyClose());
  }

  /** The author search finds the author as written. */
  lemma DecodeAuthor(input: CodeWorkInput, digest: string, timestamp: string)
    requires '<' !in HashPrefix(digest)
    ensures Find(AuthorPattern, GenerateXml(input, digest, timestamp)) == Some(AuthorText(input.author))
  {
    PrologAvoidsAuthor(HashPrefix(digest));
    HeaderOpenAvoidsAuthor();
    AuthorInDocument(Prolog(HashPrefix(digest)), HeaderOpen(), TitleText(input.title), AuthorText(input.author),
      HeaderClose(ShortDate(timestamp), ChangeWho(input.author), timestamp), BlockStart(),
      Language(input), CodeLines(input.sourceCode), BodyClose());
  }

  /** The line search over a document is the line search over its code
      lines and closing text. */
  lemma LinesOfDocument(input: CodeWorkInput, digest: string, timestamp: string)
    requires '<' !in HashPrefix(digest) && '<' !in timestamp && '<' !in Language(input)
    ensures FindAll(LinePattern, GenerateXml(input, digest, timestamp))
         == FindAll(LinePattern, CodeLines(input.sourceCode) + BodyClose())
  {
    SectionsAvoidLine(input, digest, timestamp);
    LinesInDocument(Prolog(HashPrefix(digest)), HeaderOpen(), TitleText(input.title), AuthorText(input.author),
      HeaderClose(ShortDate(timestamp), ChangeWho(input.author), timestamp), BlockStart(),
      Language(input), CodeLines(input.sourceCode));
  }

  lemma ScanCode(sourceCode: string)
    ensures LineTexts(FindAll(LinePattern, CodeLines(sourceCode) + BodyClose())) == NonBlank(Split(sourceCode, '\n'))
  {
    ScanLines(Split(sourceCode, '\n'), 1);
  }

  /** The line search finds one element per non-blank line, and their
      contents decode to those lines. */
  lemma DecodeLines(input: CodeWorkInput, digest: string, timestamp: string)
    requires '<' !in HashPrefix(digest) && '<' !in timestamp && '<' !in Language(input)
    ensures LineTexts(FindAll(LinePattern, GenerateXml(input, digest, timestamp)))
         == NonBlank(Split(input.sourceCode, '\n'))
  {
    LinesOfDocument(input, digest, timestamp);
    ScanCode(input.sourceCode);
  }

  lemma LangOfSections(input: CodeWorkInput, digest: string, timestamp: string)
    requires '"' !in Language(input)
    requires Avoids(Prolog(HashPrefix(digest)), LangOpen) && Avoids(HeaderOpen(), LangOpen)
    requires Avoids(HeaderClose(ShortDate(timestamp), ChangeWho(input.author), timestamp), LangOpen)
    requires Avoids(BlockStart(), LangOpen)
    requires Avoids(CodeLines(input.sourceCode), LangOpen) && Avoids(BodyClose(), LangOpen)
    ensures Find(LangPattern, GenerateXml(input, digest, timestamp))
         == if Language(input) == "" then None else Some(Language(input))
  {
    LangInDocument(Prolog(HashPrefix(digest)), HeaderOpen(), TitleText(input.title), AuthorText(input.author),
      HeaderClose(ShortDate(timestamp), ChangeWho(input.author), timestamp), BlockStart(),
      Language(input), CodeLines(input.sourceCode), BodyClose());
  }

  /** The language search finds the language as written, and nothing when
      it was written empty. */
  lemma DecodeLanguage(input: CodeWorkInput, digest: string, timestamp: string)
    requires 'l' !in HashPrefix(digest) && 'l' !in timestamp && '"' !in Language(input)
    ensures Find(LangPattern, GenerateXml(input, digest, timestamp))
         == if Language(input) == "" then None else Some(Language(input))
  {
    SectionsAvoidLang(input, digest, timestamp);
    LangOfSections(input, digest, timestamp);
  }

  // ---------------------------------------------------------------------
  // The round trip.

  /** A SHA3 digest as the encoder receives it: lower-case hexadecimal. */
  predicate IsHexDigest(digest: string)
  {
    forall i :: 0 <= i < |digest| ==> IsDigit(digest[i]) || 'a' <= digest[i] <= 'f'
  }

  /** An ISO 8601 time stamp as `toISOString` writes it. */
  predicate IsIsoTimestamp(timestamp: string)
  {
    forall i :: 0 <= i < |timestamp| ==>
      var c := timestamp[i];
      IsDigit(c) || c == '-' || c == ':' || c == '.' || c == 'T' || c == 'Z'
  }

  /** The work the decoder builds from what its searches find in a
      generated document. */
  lemma ParseFromSearches(xml: string, input: CodeWorkInput)
    requires Find(TitlePattern, xml) == Some(TitleText(input.title))
    requires Find(AuthorPattern, xml) == Some(AuthorText(input.author))
    requires LineTexts(FindAll(LinePattern, xml)) == NonBlank(Split(input.sourceCode, '\n'))
    requires Find(LangPattern, xml) == if Language(input) == "" then None else Some(Language(input))
    ensures ParseXml(xml)
         == Some(CodeWorkInput(TitleText(input.title), AuthorText(input.author),
                               Join(NonBlank(Split(input.sourceCode, '\n')), "\n"),
                               Some(if Language(input) == "" then "text" else Language(input))))
  {
  }

  /** The round trip, for a digest and time stamp in which neither `<`
      nor `l` occurs. */
  lemma ParseGeneratedPlain(input: CodeWorkInput, digest: string, timestamp: string)
    requires '<' !in HashPrefix(digest) && 'l' !in HashPrefix(digest)
    requires '<' !in timestamp && 'l' !in timestamp
    requires '"' !in Language(input) && '<' !in Language(input)
    ensures ParseXml(GenerateXml(input, digest, timestamp))
         == Some(CodeWorkInput(TitleText(input.title), AuthorText(input.author),
                               Join(NonBlank(Split(input.sourceCode, '\n')), "\n"),
                               Some(if Language(input) == "" then "text" else Language(input))))
  {
    DecodeTitle(input, digest, timestamp);
    DecodeAuthor(input, digest, timestamp);
    DecodeLines(input, digest, timestamp);
    DecodeLanguage(input, digest, timestamp);
    ParseFromSearches(GenerateXml(input, digest, timestamp), input);
  }

  /** Neither `<` nor `l` occurs in a hexadecimal digest's first eight
      characters or in an ISO time stamp. */
  lemma DigestAndTimestampPlain(digest: string, timestamp: string)
    requires IsHexDigest(digest) && IsIsoTimestamp(timestamp)
    ensures '<' !in HashPrefix(digest) && 'l' !in HashPrefix(digest)
    ensures '<' !in timestamp && 'l' !in timestamp
  {
    PrefixLacks(digest, HashPrefix(digest), '<');
    PrefixLacks(digest, HashPrefix(digest), 'l');
  }

  /** Decoding a generated document gives back the title and author as
      written (escaped, or the defaults), the source text without its blank
      lines, and the language, with "text" in place of an empty one. The
      language must not hold `"` or `<`, which it is written with
      unescaped. */
  lemma ParseGenerated(input: CodeWorkInput, digest: string, timestamp: string)
    requires IsHexDigest(digest) && IsIsoTimestamp(timestamp)
    requires '"' !in Language(input) && '<' !in Language(input)
    ensures ParseXml(GenerateXml(input, digest, timestamp))
         == Some(CodeWorkInput(TitleText(input.title), AuthorText(input.author),
                               Join(NonBlank(Split(input.sourceCode, '\n')), "\n"),
                               Some(if Language(input) == "" then "text" else Language(input))))
  {
    DigestAndTimestampPlain(digest, timestamp);
    ParseGeneratedPlain(input, digest, timestamp);
  }
}
