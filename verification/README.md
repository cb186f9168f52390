# CodeTEI codec and offline explainer, modelled in Dafny

CodeTEI registers a piece of source code as a TEI XML document. It has a
persistent identifier `codetei://sha3-256-<digest>`. The document holds a
header with the title and author, then one `code:line` element per line of
source, and a block language attribute. A regular-expression decoder reads
a work back out of such a document. The demo application also has an
offline "explain this code" fallback. It picks a fixed message by looking
for a few keywords, in priority order.

This project models both parts as pure Dafny functions and proves their
properties:

- `strings.dfy` (`Strings`) holds JavaScript's `split`, `join`, `includes`,
  global literal `replace`, number rendering and `trim() === ''`.
- `escaping.dfy` (`Escaping`) holds the five-step escape chain and the
  five-step unescape chain. It also has a character-by-character reference
  definition of escaping, `Entities`.
- `scanner.dfy` (`Scanner`) holds first-match search (`String.match`) and
  global search (`String.match` with `/g`). They work for the one regular
  expression shape the decoder uses.
- `template.dfy` (`Template`) holds the fixed text of the document
  template, section by section.
- `template_avoidance.dfy` (`TemplateAvoidance`) proves which template
  sections cannot start a match. No section before the title can start a
  title or author match. No section at all can start a line or language
  match.
- `codetei.dfy` (`CodeTei`) holds the identifier, the encoder
  `GenerateXml` and the decoder `ParseXml`.
- `roundtrip.dfy` (`RoundTrip`) proves what `ParseXml` reads back from
  `GenerateXml`. The main theorem is `ParseGenerated`.
- `properties.dfy` (`Properties`) holds consequences of the round trip
  and facts about the written document.
- `explain.dfy` (`MockExplain`) holds the offline explanation.

The SHA3 digest of the source and the current time are parameters of the
encoder (`digest`, `timestamp`). The encoder is a pure function of its
input and those two values.

Blank lines: an empty line and a line of spaces are both written as
self-closing `code:line` elements. The line search needs a closing tag, so
it never matches such an element, and the line is lost. Both `"a\n\nb"`
and `"a\n   \nb"` decode to `"a\nb"` (`Properties.BlankLineDropped`,
`RoundTrip.ParseGenerated`).

## Model

| member | source | states |
|---|---|---|
| CodeTei.GenerateUri | demo/src/lib/codetei.ts:14-16 | the identifier is the fixed `codetei://sha3-256-` prefix followed by exactly the digest |
| CodeTei.GenerateUriInjective | demo/src/lib/codetei.ts:14-16 | different digests give different identifiers |
| CodeTei.HashPrefix | demo/src/lib/codetei.ts:52 | `substring(0, 8)` is a prefix of the digest, with length min(8, length of digest) |
| CodeTei.ShortDate | demo/src/lib/codetei.ts:24 | the short date is the part of the time stamp before its first `T`: a prefix without `T`, followed by `T` when shorter |
| CodeTei.ChangeWhoConstant | demo/src/lib/codetei.ts:49 | both branches of the change attribution give `#auth0` |
| CodeTei.TitleText | demo/src/lib/codetei.ts:47 | the written title is non-empty and has no `<`, `>` or `"`; it is `Untitled Code Work` for an empty title; otherwise unescaping it gives the title back |
| CodeTei.AuthorText | demo/src/lib/codetei.ts:48 | the same for the author, with default `Unknown` |
| CodeTei.Language | demo/src/lib/codetei.ts:19 | the default `text` applies only when the language is absent; a given language, even an empty one, is used as is |
| CodeTei.LineAttributes | demo/src/lib/codetei.ts:29 | the id and number attributes of a line contain no `<`, `>` or `a` and end with a quote |
| CodeTei.LineElements | demo/src/lib/codetei.ts:27-44 | one element per line, the i-th being line i numbered from the first number |
| CodeTei.LineTexts | demo/src/lib/codetei.ts:112-122 | one decoded text per matched element, the k-th being the unescaped content of the k-th element |
| CodeTei.ParseXml | demo/src/lib/codetei.ts:104-138 | the result is null exactly when the title or the author search fails; otherwise title and author are the captures (non-empty, no `<`), the source text is the decoded line texts joined by newlines, and the language is the language capture, or `text` when there is none |
| CodeTei.GenerateXml | demo/src/lib/codetei.ts:18-93 | no contract of its own; its output is pinned down by `Properties.DocumentIdentifier`, `Properties.LineElementCount`, `RoundTrip.ParseGenerated` and `Properties.DecodedFieldsEscaped` |
| CodeTei.LineElement | demo/src/lib/codetei.ts:39-43 | no contract of its own; pinned down by `Properties.LineElementShape` (start tag, and self-closing exactly for a blank line) and `RoundTrip.ScanLines` |
| CodeTei.CodeLines | demo/src/lib/codetei.ts:27-44 | no contract of its own; pinned down by `CodeTei.LineElements`, `Properties.LineElementCount` and `RoundTrip.ScanLines` |
| CodeTei.LineText | demo/src/lib/codetei.ts:113-121 | no contract of its own; `RoundTrip.ContentOfElement` shows the content search finds the escaped text of a written element, and `Escaping.UnescapeEscape` that unescaping it gives the line back |
| Escaping.EscapeXml | demo/src/lib/codetei.ts:95-102 | no contract of its own; pinned down by `Escaping.EscapeXmlIsEntities`, `Escaping.EscapeXmlIsMarkupFree`, `Escaping.UnescapeEscape` and `Properties.EscapeGrows` (the same chain escapes lines at lines 31-36) |
| Escaping.UnescapeXml | demo/src/lib/codetei.ts:116-121 | no contract of its own; pinned down by `Escaping.UnescapeEscape`: it inverts escaping |
| Strings.Split | demo/src/lib/codetei.ts:21 | `split('\n')` gives at least one part |
| Strings.SplitCount | demo/src/lib/codetei.ts:21 | there is one part more than there are newlines |
| Strings.JoinSplit | demo/src/lib/codetei.ts:131 | joining the parts with the separator gives the original text back |
| Strings.SplitJoin | demo/src/lib/codetei.ts:131 | splitting a join of separator-free parts gives the parts back |
| Strings.NatToString | demo/src/lib/codetei.ts:28-29 | a rendered number is non-empty and all digits |
| Strings.NatToStringValue | demo/src/lib/codetei.ts:28-29 | reading a rendered number back gives the number |
| Strings.NatToStringInjective | demo/src/lib/codetei.ts:28-29 | different numbers render differently |
| Strings.IntToString | demo/src/app/api/ai/explain/route.ts:112 | a rendered integer is non-empty and starts with `-` exactly when it is negative; the rest is all digits, and reading it back gives the absolute value |
| Strings.ReplaceAll | demo/src/lib/codetei.ts:97-101 | no contract of its own; `Strings.ReplaceAllSkips` and `Strings.ReplaceAllHit` give its two steps: text without the pattern passes through, and an occurrence is replaced before the search resumes after it |
| Strings.Contains | demo/src/app/api/ai/explain/route.ts:100-117 | no contract of its own (`includes`: some position starts the substring); its use is pinned down by `MockExplain.WorkPriority`, `MockExplain.LinePriority` and `MockExplain.NoAssignmentForEquality` |
| Strings.IsBlank | demo/src/lib/codetei.ts:39 | no contract of its own (`trim() === ''`: every character is JavaScript white space); pinned down by `Properties.LineElementShape` and `RoundTrip.NonBlankMembers` |
| Escaping.EscapeXmlIsEntities | demo/src/lib/codetei.ts:95-102 | the replace chain equals replacing each character by its entity on its own, so `&` is not escaped twice |
| Escaping.UnescapeEscape | demo/src/lib/codetei.ts:116-121 | unescaping escaped text gives the text back |
| Escaping.EscapeXmlIsMarkupFree | demo/src/lib/codetei.ts:95-102 | escaped text has no `<`, `>`, `"` or `'`, and each `&` in it starts one of the five entities |
| Escaping.EntitiesIdentity | demo/src/lib/codetei.ts:95-102 | escaping leaves a text unchanged exactly when it has no markup character |
| Scanner.MatchAt | demo/src/lib/codetei.ts:107-108 | a match at a position starts with the opening literal, ends with the closing literal, and its capture has no stop character and at least the minimum length |
| Scanner.Find | demo/src/lib/codetei.ts:107 | a found capture has no stop character and at least the minimum length; `Scanner.FindNoneIff` and `Scanner.FindLeftmost` say which match it finds |
| Scanner.FindAll | demo/src/lib/codetei.ts:111 | every element found starts with the opening literal; `Scanner.FindAllEmptyIff` and `Scanner.FindAllLeftmost` say which elements it finds |
| Scanner.FindNoneIff | demo/src/lib/codetei.ts:107-108 | the first search finds nothing exactly when no position of the text starts a match |
| Scanner.FindLeftmost | demo/src/lib/codetei.ts:107-108 | the first search returns the capture of the leftmost position that starts a match |
| Scanner.FindAllEmptyIff | demo/src/lib/codetei.ts:111 | the global search gives an empty list exactly when no position starts a match |
| Scanner.FindAllLeftmost | demo/src/lib/codetei.ts:111 | the global search takes the whole leftmost match first, then searches again right after its end |
| Scanner.NoMatchIn | demo/src/lib/codetei.ts:111 | text in which the opening literal cannot start has no match: the first search gives nothing and the global search gives an empty list |
| RoundTrip.NonBlank | demo/src/lib/codetei.ts:39-41 | the lines that survive a round trip are non-blank, and there are no more of them than lines; `RoundTrip.NonBlankAppend` and `RoundTrip.NonBlankMembers` say which ones survive |
| RoundTrip.NonBlankIdentity | demo/src/lib/codetei.ts:39-41 | with no blank line, no line is lost |
| RoundTrip.NonBlankAppend | demo/src/lib/codetei.ts:39-41 | a single line survives exactly when it is not blank, and the survivors of two runs of lines are those of the first followed by those of the second |
| RoundTrip.NonBlankMembers | demo/src/lib/codetei.ts:39-41 | a line survives exactly when it is one of the lines and is not blank |
| RoundTrip.ScanLines | demo/src/lib/codetei.ts:111-122 | the line search over the written line elements and closing text decodes to the non-blank lines, in order |
| RoundTrip.DecodeTitle | demo/src/lib/codetei.ts:107 | the title search over a generated document finds the title as written |
| RoundTrip.DecodeAuthor | demo/src/lib/codetei.ts:108 | the author search over a generated document finds the author as written |
| RoundTrip.DecodeLines | demo/src/lib/codetei.ts:111-122 | the line search over a generated document decodes to the non-blank source lines |
| RoundTrip.DecodeLanguage | demo/src/lib/codetei.ts:124 | the language search finds the language, or nothing when it was written empty |
| RoundTrip.ParseGenerated | demo/src/lib/codetei.ts:104-138 | decoding a generated document gives the written title and author, the source without its blank lines, and the language (or `text` for an empty one) |
| Properties.WrittenAsGiven | demo/src/lib/codetei.ts:47-48 | a non-empty title or author is written unchanged exactly when it has no markup character |
| Properties.ExactRoundTrip | demo/src/lib/codetei.ts:128-133 | a work comes back unchanged when its title and author are non-empty and need no escaping, its language is given (without `"` or `<`), and no source line is blank |
| Properties.EscapedFields | demo/src/lib/codetei.ts:129-130 | the decoder does not unescape: a decoded non-empty title or author equals the given one exactly when it has no markup character (applied to a generated document through `Properties.DecodedFieldsEscaped`) |
| Properties.DecodedFieldsEscaped | demo/src/lib/codetei.ts:47-48 | a generated document with a non-empty title and author decodes to the escaped title and author, the source without its blank lines, and the language (or `text` for an empty one) |
| Properties.EscapeGrows | demo/src/lib/codetei.ts:95-102 | escaping makes any text with a markup character strictly longer, so such a title or author never comes back as given |
| Properties.BlankLineDropped | demo/src/lib/codetei.ts:39-41 | `a`, an empty or all-space line, `b` decodes to `a\nb` |
| Properties.DocumentIdentifier | demo/src/lib/codetei.ts:51-52 | the document starts with the XML declaration and a `TEI` element whose id is `work-` plus the first eight characters of the digest |
| Properties.LineElementCount | demo/src/lib/codetei.ts:21-27 | there is one line element per newline, plus one |
| Properties.LineIdInjective | demo/src/lib/codetei.ts:29 | line identifiers are distinct |
| Properties.LineElementShape | demo/src/lib/codetei.ts:39-43 | each element starts with `<code:line xml:id="l<n>" n="<n>"`, and is self-closing exactly when its line is blank |
| Properties.RejectsWithoutTitle | demo/src/lib/codetei.ts:126 | a document in which `<title>` cannot start decodes to null |
| Properties.RejectsWithoutAuthor | demo/src/lib/codetei.ts:126 | a document in which `<author` cannot start decodes to null |
| Template.Prolog | demo/src/lib/codetei.ts:51-55 | no contract of its own; `Properties.DocumentIdentifier` gives its start, and `TemplateAvoidance.PrologAvoidsTitle`, `PrologAvoidsAuthor`, `PrologAvoidsLine` and `PrologAvoidsLang` show no search can start in it |
| Template.HeaderOpen | demo/src/lib/codetei.ts:56-60 | no contract of its own; `TemplateAvoidance.HeaderOpenAvoidsTitle`, `HeaderOpenAvoidsAuthor`, `HeaderOpenAvoidsLine` and `HeaderOpenAvoidsLang` show no search can start in it |
| Template.HeaderClose | demo/src/lib/codetei.ts:63-77 | no contract of its own; `TemplateAvoidance.HeaderCloseAvoidsLine` and `HeaderCloseAvoidsLang` show no line or language search can start in it |
| Template.BlockStart | demo/src/lib/codetei.ts:78-82 | no contract of its own; `TemplateAvoidance.BlockStartAvoidsLine` and `BlockStartAvoidsLang` show no line or language search can start before the `lang` attribute |
| Template.BodyClose | demo/src/lib/codetei.ts:84-92 | no contract of its own; `TemplateAvoidance.BodyCloseAvoidsLine` and `BodyCloseAvoidsLang` show no line or language search can start after the last line element |
| MockExplain.LineCount | demo/src/app/api/ai/explain/route.ts:99 | the line count is the number of newlines plus one, or 0 with no source |
| MockExplain.Classify | demo/src/app/api/ai/explain/route.ts:98-121 | a request is a work explanation exactly when its type is `work`, carrying the line count; it is a line explanation exactly when its type is `line` with a non-zero line number, carrying that number; otherwise it is generic |
| MockExplain.Message | demo/src/app/api/ai/explain/route.ts:103-124 | a work message starts `This <line count>-line code `, a line message starts `Line <line number> `, and the generic message is the fixed sentence |
| MockExplain.MockExplanation | demo/src/app/api/ai/explain/route.ts:92-125 | the explanation is defined for every input and is never empty |
| MockExplain.MessageInjective | demo/src/app/api/ai/explain/route.ts:103-124 | different choices, line numbers or line counts give different message texts |
| MockExplain.WorkPriority | demo/src/app/api/ai/explain/route.ts:98-109 | a work explanation starts `This <line count>-line code `; it is the class message whenever `class ` occurs, else the function message for `function` or `def `, else the snippet message |
| MockExplain.LineEmbedsNumber | demo/src/app/api/ai/explain/route.ts:110-121 | a line explanation starts `Line <line number> ` |
| MockExplain.LinePriority | demo/src/app/api/ai/explain/route.ts:110-121 | a line explanation tests, in order: `return`; `if ` or `else`; `for ` or `while `; an `=` with no `==`; otherwise it gives the operation message |
| MockExplain.NoAssignmentForEquality | demo/src/app/api/ai/explain/route.ts:117 | a line holding `==` never gets the assignment message, for any line number |
| MockExplain.GenericFallback | demo/src/app/api/ai/explain/route.ts:124 | the generic sentence is given exactly when the request is neither `work` nor `line` with a non-zero line number |

## Left out

- The SHA3-256 digest (`generateSHA3Hash`, demo/src/lib/codetei.ts:10-12) comes from the crypto-js library, which is not part of this model. The encoder takes the digest as a parameter.
- The clock (`new Date().toISOString()`) is a parameter. `IsIsoTimestamp` describes the text it produces.
- The `try`/`catch` of the decoder is not modelled. For a string argument, neither `match` nor `replace` throws, so the `catch` branch cannot be reached.
- JavaScript strings are UTF-16 code units, while Dafny strings are Unicode scalar values. Every delimiter involved is ASCII, so matches and captures are the same. A digest containing non-ASCII characters would be cut differently by `substring(0, 8)`, but a hexadecimal digest has none.
- Regular expressions are modelled only for the shape the decoder uses. That shape is: an opening literal, an optional `[^>]*>`, a greedy run of characters other than a stop character, and a closing literal that starts with the stop character. The JavaScript engine is not modelled in general. For this shape, backtracking cannot find a different match.
- MockExplain.MockExplanation: the line number is an optional integer, rendered in full decimal. JavaScript numbers are doubles, so the model does not capture:
  - `NaN` and fractional numbers;
  - numbers of 1e21 or more, which a template literal renders in exponent form (`Line 1e+21 ...`);
  - a JSON `1e999`, which becomes `Infinity`;
  - integers above 2^53, which lose precision before they are rendered.
- RoundTrip.ParseGenerated assumes:
  - a hexadecimal digest and an ISO time stamp;
  - a language without `"` or `<`, because the encoder writes the language unescaped. A language with `"` is cut short at the quote. A language with `<code:line` can add decoded lines.
- The rest of the application is not part of this model: the API routes other than the offline explainer, the pages, the database, and the language-model call of the explain route.

