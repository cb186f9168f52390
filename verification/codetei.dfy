/** The CodeTEI codec: the persistent identifier of a work, the TEI document
    that registers it, and the decoder that reads a work back out of such a
    document. The digest of the source text and the current time are
    parameters: the encoder is a pure function of them. */
module CodeTei {
  import opened Strings
  import opened Escaping
  import opened Scanner
  import opened Template

  /** A work as submitted for registration; the language may be absent. */
  datatype CodeWorkInput = CodeWorkInput(title: string, author: string, sourceCode: string, language: Option<string>)

  // ---------------------------------------------------------------------
  // Identifier

  const UriPrefix := "codetei://sha3-256-"

  /** `generateCodeTEIURI`: the scheme and algorithm tag, then the digest. */
  function GenerateUri(hash: string): (uri: string)
    ensures StartsWith(uri, UriPrefix) && uri[|UriPrefix|..] == hash
  {
    UriPrefix + hash
  }

  /** Different digests give different identifiers. */
  lemma GenerateUriInjective(h1: string, h2: string)
    requires GenerateUri(h1) == GenerateUri(h2)
    ensures h1 == h2
  {
    assert h1 == GenerateUri(h1)[|UriPrefix|..];
  }

  // ---------------------------------------------------------------------
  // Encoder

  /** `hash.substring(0, 8)`: the first eight characters, or all of a shorter
      digest. */
  function HashPrefix(hash: string): (id8: string)
    ensures |id8| == if |hash| < 8 then |hash| else 8
    ensures StartsWith(hash, id8)
  {
    if |hash| < 8 then hash else hash[..8]
  }

  /** `currentDate.split('T')[0]`: the date part of an ISO time stamp. */
  function ShortDate(timestamp: string): (date: string)
    ensures StartsWith(timestamp, date)
    ensures 'T' !in date
    ensures |date| < |timestamp| ==> timestamp[|date|] == 'T'
  {
    SplitFirst(timestamp, 'T');
    Split(timestamp, 'T')[0]
  }

  /** The `who` of the registration change: both branches of the source's
      conditional name the same author reference. */
  function ChangeWho(author: string): string
  {
    if author != "" then "#auth0" else "#auth0"
  }

  lemma ChangeWhoConstant(author: string)
    ensures ChangeWho(author) == "#auth0"
  {
  }

  const DefaultTitle := "Untitled Code Work"
  const DefaultAuthor := "Unknown"

  /** The title as written: escaped, or the default for an empty title. */
  function TitleText(title: string): (t: string)
    ensures |t| > 0
    ensures '<' !in t && '>' !in t && '"' !in t
    ensures title == "" ==> t == DefaultTitle
    ensures title != "" ==> UnescapeXml(t) == title
  {
    if title != "" then
      EscapeXmlNonEmpty(title);
      EscapeXmlIsMarkupFree(title);
      UnescapeEscape(title);
      EscapeXml(title)
    else DefaultTitle
  }

  /** The author as written: escaped, or the default for an empty author. */
  function AuthorText(author: string): (t: string)
    ensures |t| > 0
    ensures '<' !in t && '>' !in t && '"' !in t
    ensures author == "" ==> t == DefaultAuthor
    ensures author != "" ==> UnescapeXml(t) == author
  {
    if author != "" then
      EscapeXmlNonEmpty(author);
      EscapeXmlIsMarkupFree(author);
      UnescapeEscape(author);
      EscapeXml(author)
    else DefaultAuthor
  }

  function TitleElement(title: string): string
  {
    "<title>" + TitleText(title) + "</title>"
  }

  function AuthorElement(author: string): string
  {
    "<author xml:id=\"auth0\">" + AuthorText(author) + "</author>"
  }

  /** The destructuring default `language = 'text'`: it applies only when
      the language is absent, not when it is empty. */
  function Language(input: CodeWorkInput): (lang: string)
    ensures input.language.None? ==> lang == "text"
    ensures input.language.Some? ==> lang == input.language.value
  {
    match input.language
    case None => "text"
    case Some(l) => l
  }

  function LineId(number: nat): string
  {
    "l" + NatToString(number)
  }

  /** The attributes of a line element: its identifier and its number. */
  function LineAttributes(number: nat): (attrs: string)
    ensures '>' !in attrs && '<' !in attrs && 'a' !in attrs
    ensures |attrs| > 0 && attrs[|attrs| - 1] == '"'
  {
    " xml:id=\"" + LineId(number) + "\" n=\"" + NatToString(number) + "\""
  }

  /** One `code:line` element: empty and self-closing for a blank line,
      otherwise holding the escaped line. */
  function LineElement(number: nat, line: string): string
  {
    "        " + "<code:line" + LineAttributes(number)
    + (if IsBlank(line) then "/>" else ">" + EscapeXml(line) + "</code:line>")
  }

  /** `lines.map((line, index) => ...)`, numbering from `first`. */
  function LineElements(lines: seq<string>, first: nat): (elements: seq<string>)
    ensures |elements| == |lines|
    ensures forall i :: 0 <= i < |lines| ==> elements[i] == LineElement(first + i, lines[i])
  {
    seq(|lines|, i requires 0 <= i < |lines| => LineElement(first + i, lines[i]))
  }

  /** The line elements of the source text, one per `\n`-separated line,
      numbered from 1 and joined by newlines. */
  function CodeLines(sourceCode: string): string
  {
    Join(LineElements(Split(sourceCode, '\n'), 1), "\n")
  }

  /** `generateCodeTEIXML`, given the digest of the source text and the
      current time as an ISO string. */
  function GenerateXml(input: CodeWorkInput, digest: string, timestamp: string): string
  {
    Prolog(HashPrefix(digest))
    + HeaderOpen()
    + "        " + TitleElement(input.title)
    + "\n        " + AuthorElement(input.author)
    + HeaderClose(ShortDate(timestamp), ChangeWho(input.author), timestamp)
    + BlockStart() + "lang=\"" + Language(input) + "\">\n"
    + CodeLines(input.sourceCode)
    + BodyClose()
  }

  // ---------------------------------------------------------------------
  // Decoder: the regular expressions of `parseCodeTEIXML` as patterns.

  const TitleOpen := "<title>"
  const AuthorOpen := "<author"
  const LineOpen := "<code:line"
  const LangOpen := "lang=\""

  /** `/<title>([^<]+)<\/title>/` */
  const TitlePattern := Pattern(TitleOpen, false, '<', 1, "</title>")
  /** `/<author[^>]*>([^<]+)<\/author>/` */
  const AuthorPattern := Pattern(AuthorOpen, true, '<', 1, "</author>")
  /** `/<code:line[^>]*>([^<]*)<\/code:line>/g` */
  const LinePattern := Pattern(LineOpen, true, '<', 0, "</code:line>")
  /** `/>([^<]*)</`, applied to each line element found */
  const ContentPattern := Pattern(">", false, '<', 0, "<")
  /** `/lang="([^"]+)"/` */
  const LangPattern := Pattern(LangOpen, false, '"', 1, "\"")

  /** The text of one matched line element, unescaped; empty when the
      content pattern finds nothing. */
  function LineText(element: string): string
  {
    match Find(ContentPattern, element)
    case None => ""
    case Some(content) => UnescapeXml(content)
  }

  /** `lineMatches.map(...)` */
  function LineTexts(elements: seq<string>): (texts: seq<string>)
    ensures |texts| == |elements|
    ensures forall k :: 0 <= k < |elements| ==> texts[k] == LineText(elements[k])
  {
    if |elements| == 0 then [] else [LineText(elements[0])] + LineTexts(elements[1..])
  }

  /** `parseCodeTEIXML`: title and author are required; the source text is
      the line contents joined by newlines; the language falls back to
      "text". */
  function ParseXml(xml: string): (r: Option<CodeWorkInput>)
    ensures r.None? <==> Find(TitlePattern, xml).None? || Find(AuthorPattern, xml).None?
    ensures r.Some? ==> r.value.title == Find(TitlePattern, xml).value
    ensures r.Some? ==> r.value.author == Find(AuthorPattern, xml).value
    ensures r.Some? ==> |r.value.title| > 0 && '<' !in r.value.title
    ensures r.Some? ==> |r.value.author| > 0 && '<' !in r.value.author
    ensures r.Some? ==> r.value.language.Some? && |r.value.language.value| > 0
    ensures r.Some? ==>
      r.value.language == Some(if Find(LangPattern, xml).Some? then Find(LangPattern, xml).value else "text")
    ensures r.Some? ==> r.value.sourceCode == Join(LineTexts(FindAll(LinePattern, xml)), "\n")
  {
    var title := Find(TitlePattern, xml);
    var author := Find(AuthorPattern, xml);
    var lines := LineTexts(FindAll(LinePattern, xml));
    var lang := Find(LangPattern, xml);
    if title.None? || author.None? then None
    else
      var language := if lang.Some? && lang.value != "" then lang.value else "text";
      Some(CodeWorkInput(title.value, author.value, Join(lines, "\n"), Some(language)))
  }
}
