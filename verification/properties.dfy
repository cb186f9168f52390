/** Consequences of the round trip, and facts about the written document:
    its identifier, its line elements, and the documents the decoder
    rejects. */
module Properties {
  import opened Strings
  import opened Escaping
  import opened Scanner
  import opened Template
  import opened CodeTei
  import opened RoundTrip

  // ---------------------------------------------------------------------
  // When the round trip is exact.

  /** Text in which no character needs escaping. */
  predicate MarkupFree(s: string)
  {
    forall i :: 0 <= i < |s| ==> !IsMarkupChar(s[i])
  }

  /** A non-empty title or author comes back unchanged exactly when it
      holds no character that escaping rewrites. */
  lemma WrittenAsGiven(s: string)
    requires s != ""
    ensures TitleText(s) == s <==> MarkupFree(s)
    ensures AuthorText(s) == s <==> MarkupFree(s)
  {
    EscapeXmlIsEntities(s);
    EntitiesIdentity(s);
  }

  /** The source lines of a text, as the encoder splits them. */
  predicate NoBlankLines(sourceCode: string)
  {
    forall k :: 0 <= k < |Split(sourceCode, '\n')| ==> !IsBlank(Split(sourceCode, '\n')[k])
  }

  lemma DecodedIsInput(input: CodeWorkInput)
    requires input.title != "" && MarkupFree(input.title)
    requires input.author != "" && MarkupFree(input.author)
    requires input.language.Some? && input.language.value != ""
    requires NoBlankLines(input.sourceCode)
    ensures CodeWorkInput(TitleText(input.title), AuthorText(input.author),
                          Join(NonBlank(Split(input.sourceCode, '\n')), "\n"),
                          Some(if Language(input) == "" then "text" else Language(input)))
         == input
  {
    WrittenAsGiven(input.title);
    WrittenAsGiven(input.author);
    NonBlankIdentity(Split(input.sourceCode, '\n'));
    JoinSplit(input.sourceCode, '\n');
  }

  /** A work whose title and author need no escaping, whose language is
      given, and whose source has no blank line comes back exactly. */
  lemma ExactRoundTrip(input: CodeWorkInput, digest: string, timestamp: string)
    requires IsHexDigest(digest) && IsIsoTimestamp(timestamp)
    requires input.title != "" && MarkupFree(input.title)
    requires input.author != "" && MarkupFree(input.author)
    requires input.language.Some? && input.language.value != ""
    requires '"' !in input.language.value && '<' !in input.language.value
    requires NoBlankLines(input.sourceCode)
    ensures ParseXml(GenerateXml(input, digest, timestamp)) == Some(input)
  {
    ParseGenerated(input, digest, timestamp);
    DecodedIsInput(input);
  }

  /** A blank line between two lines is lost, and an empty line and a line
      of spaces are lost alike: `a`, blank, `b` comes back as `a` then `b`. */
  lemma BlankLineDropped()
    ensures Join(NonBlank(Split("a\n\nb", '\n')), "\n") == "a\nb"
    ensures Join(NonBlank(Split("a\n   \nb", '\n')), "\n") == "a\nb"
  {
    BlankExample("");
    assert "a\n" + "" + "\nb" == "a\n\nb";
    BlankExample("   ");
    assert "a\n" + "   " + "\nb" == "a\n   \nb";
  }

  lemma BlankExample(middle: string)
    requires '\n' !in middle && IsBlank(middle)
    ensures Join(NonBlank(Split("a\n" + middle + "\nb", '\n')), "\n") == "a\nb"
  {
    SplitExample(middle);
    var parts := ["a", middle, "b"];
    assert "a"[0] == 'a' && "b"[0] == 'b';
    assert !IsBlank("a") && !IsBlank("b");
    assert ["b"][1..] == [];
    assert NonBlank(["b"]) == ["b"];
    assert [middle, "b"][1..] == ["b"];
    assert NonBlank([middle, "b"]) == ["b"];
    assert parts[1..] == [middle, "b"];
    assert NonBlank(parts) == ["a", "b"];
  }

  lemma SplitExample(middle: string)
    requires '\n' !in middle
    ensures Split("a\n" + middle + "\nb", '\n') == ["a", middle, "b"]
  {
    SplitNoSep("b", '\n');
    SplitAfterFreePrefix(middle, "b", '\n');
    SplitAfterFreePrefix("a", middle + "\nb", '\n');
    assert "a" + "\n" + (middle + "\nb") == "a\n" + middle + "\nb";
    assert middle + "\n" + "b" == middle + "\nb";
  }

  /** The decoder does not unescape the title or author: in the work it
      returns for a generated document, a non-empty title or author is the
      one given exactly when it holds no markup character. */
  lemma EscapedFields(r: Option<CodeWorkInput>, input: CodeWorkInput)
    requires input.title != "" && input.author != ""
    requires r == Some(CodeWorkInput(TitleText(input.title), AuthorText(input.author),
                                     Join(NonBlank(Split(input.sourceCode, '\n')), "\n"),
                                     Some(if Language(input) == "" then "text" else Language(input))))
    ensures r.Some?
    ensures r.value.title == input.title <==> MarkupFree(input.title)
    ensures r.value.author == input.author <==> MarkupFree(input.author)
  {
    WrittenAsGiven(input.title);
    WrittenAsGiven(input.author);
  }

  /** The decoder does not unescape: a generated document with a non-empty
      title and author decodes to their escaped forms. By `WrittenAsGiven`
      and `EscapeGrows`, each comes back unchanged exactly when it holds no
      markup character, and longer otherwise. */
  lemma DecodedFieldsEscaped(input: CodeWorkInput, digest: string, timestamp: string)
    requires IsHexDigest(digest) && IsIsoTimestamp(timestamp)
    requires '"' !in Language(input) && '<' !in Language(input)
    requires input.title != "" && input.author != ""
    ensures ParseXml(GenerateXml(input, digest, timestamp))
         == Some(CodeWorkInput(EscapeXml(input.title), EscapeXml(input.author),
                               Join(NonBlank(Split(input.sourceCode, '\n')), "\n"),
                               Some(if Language(input) == "" then "text" else Language(input))))
  {
    ParseGenerated(input, digest, timestamp);
  }

  /** Escaping lengthens every text that holds a markup character, so the
      escaped text differs from it. */
  lemma EscapeGrows(s: string)
    ensures !MarkupFree(s) ==> |EscapeXml(s)| > |s|
  {
    EscapeXmlIsEntities(s);
    EntitiesGrow(s);
  }

  lemma {:induction false} EntitiesGrow(s: string)
    ensures MarkupFree(s) || |Entities(s)| > |s|
    decreases |s|
  {
    if |s| > 0 {
      EntitiesGrow(s[1..]);
      EntitiesLength(s[1..]);
      if !IsMarkupChar(s[0]) && MarkupFree(s[1..]) {
        assert MarkupFree(s) by {
          forall i | 0 < i < |s| ensures !IsMarkupChar(s[i]) {
            assert s[i] == s[1..][i - 1];
          }
        }
      }
    }
  }

  // ---------------------------------------------------------------------
  // The document identifier.

  lemma AssembledStart(p: string, ho: string, t: string, a: string, hc: string, bs: string,
                       l: string, cl: string, bc: string)
    ensures StartsWith(Assembled(p, ho, t, a, hc, bs, l, cl, bc), p)
  {
    var te := "<title>" + t + "</title>";
    Layout(p, ho, "        ", te, "\n        ", "<author xml:id=\"auth0\">" + a + "</author>", hc, bs, "lang=\"", l, "\">\n", cl, bc);
    assert StartsWith(p, p);
    StartsWithAppend(p, ho, p);
    StartsWithAppend(p + ho, "        ", p);
    StartsWithAppend(p + ho + "        ", te, p);
    StartsWithTrans(Assembled(p, ho, t, a, hc, bs, l, cl, bc), p + ho + "        " + te, p);
  }

  /** The prolog opens the `TEI` element with the identifier `work-`
      followed by the start of the digest. */
  lemma PrologStart(id8: string)
    ensures StartsWith(Prolog(id8), XmlDeclaration() + "<TEI xml:id=\"work-" + id8 + "\"")
  {
    var x := XmlDeclaration() + "<TEI xml:id=\"work-" + id8 + "\"";
    ConcatAssoc(XmlDeclaration() + "<TEI xml:id=\"work-" + id8, "\"", "\n");
    ConcatAssoc(XmlDeclaration() + "<TEI xml:id=\"work-", id8, "\"\n");
    ConcatAssoc(XmlDeclaration(), "<TEI xml:id=\"work-", id8 + "\"\n");
    assert XmlDeclaration() + TeiStart(id8) == x + "\n";
    assert StartsWith(x, x);
    StartsWithAppend(x, "\n", x);
    StartsWithAppend(x + "\n", TeiNamespace() + CodeNamespace() + MetaNamespace(), x);
    ConcatAssoc(XmlDeclaration() + TeiStart(id8) + TeiNamespace(), CodeNamespace(), MetaNamespace());
    ConcatAssoc(XmlDeclaration() + TeiStart(id8), TeiNamespace(), CodeNamespace() + MetaNamespace());
  }

  /** The document's identifier is `work-` followed by the first eight
      characters of the digest (all of a shorter one). */
  lemma DocumentIdentifier(input: CodeWorkInput, digest: string, timestamp: string)
    ensures StartsWith(GenerateXml(input, digest, timestamp),
                       XmlDeclaration() + "<TEI xml:id=\"work-" + HashPrefix(digest) + "\"")
  {
    var p := Prolog(HashPrefix(digest));
    AssembledStart(p, HeaderOpen(), TitleText(input.title), AuthorText(input.author),
      HeaderClose(ShortDate(timestamp), ChangeWho(input.author), timestamp), BlockStart(),
      Language(input), CodeLines(input.sourceCode), BodyClose());
    PrologStart(HashPrefix(digest));
    StartsWithTrans(GenerateXml(input, digest, timestamp), p,
                    XmlDeclaration() + "<TEI xml:id=\"work-" + HashPrefix(digest) + "\"");
  }

  // ---------------------------------------------------------------------
  // The line elements.

  /** One line element per `\n`-separated segment of the source. */
  lemma LineElementCount(sourceCode: string)
    ensures |LineElements(Split(sourceCode, '\n'), 1)| == Count(sourceCode, '\n') + 1
  {
    SplitCount(sourceCode, '\n');
  }

  /** Line identifiers are distinct. */
  lemma LineIdInjective(m: nat, n: nat)
    requires LineId(m) == LineId(n)
    ensures m == n
  {
    assert NatToString(m) == LineId(m)[1..];
    NatToStringInjective(m, n);
  }

  /** The start tag of line `n` up to its end: identifier `l<n>`, number `n`. */
  lemma LineStartTag(n: nat)
    ensures "        " + "<code:line" + LineAttributes(n)
         == "        <code:line xml:id=\"l" + NatToString(n) + "\" n=\"" + NatToString(n) + "\""
  {
    var d := NatToString(n);
    assert "        " + "<code:line" == "        <code:line";
    assert "        <code:line" + " xml:id=\"" == "        <code:line xml:id=\"";
    assert "        <code:line xml:id=\"" + "l" == "        <code:line xml:id=\"l";
    ConcatAssoc("        <code:line", " xml:id=\"", LineId(n));
    ConcatAssoc("        <code:line xml:id=\"", "l", d);
    ConcatAssoc("        <code:line", " xml:id=\"" + LineId(n), "\" n=\"");
    ConcatAssoc("        <code:line", " xml:id=\"" + LineId(n) + "\" n=\"", d);
    ConcatAssoc("        <code:line", " xml:id=\"" + LineId(n) + "\" n=\"" + d, "\"");
  }

  lemma SecondLast(head: string, tail: string)
    requires |tail| >= 2
    ensures (head + tail)[|head + tail| - 2] == tail[|tail| - 2]
  {
  }

  /** Each element carries the identifier `l<n>` and the number `n`, and is
      self-closing (its last two characters are `/>`) exactly when its line
      is blank. */
  lemma LineElementShape(n: nat, line: string)
    ensures StartsWith(LineElement(n, line),
                       "        <code:line xml:id=\"l" + NatToString(n) + "\" n=\"" + NatToString(n) + "\"")
    ensures var e := LineElement(n, line);
      |e| >= 2 && (e[|e| - 2] == '/' <==> IsBlank(line))
  {
    var head := "        " + "<code:line" + LineAttributes(n);
    var tail := if IsBlank(line) then "/>" else ">" + EscapeXml(line) + "</code:line>";
    LineStartTag(n);
    assert StartsWith(head, head);
    StartsWithAppend(head, tail, head);
    if !IsBlank(line) {
      var x := ">" + EscapeXml(line);
      assert (x + "</code:line>")[|x| + 10] == 'e';
    }
    SecondLast(head, tail);
  }

  // ---------------------------------------------------------------------
  // Documents the decoder rejects.

  /** A document in which no `<title>` can begin is rejected. */
  lemma RejectsWithoutTitle(xml: string)
    requires Avoids(xml, TitleOpen)
    ensures ParseXml(xml) == None
  {
    NoMatchIn(TitlePattern, xml);
  }

  /** A document in which no `<author` can begin is rejected. */
  lemma RejectsWithoutAuthor(xml: string)
    requires Avoids(xml, AuthorOpen)
    ensures ParseXml(xml) == None
  {
    NoMatchIn(AuthorPattern, xml);
  }
}
