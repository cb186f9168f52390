/** Escaping of markup characters with the five predefined entities of
    section 4.6 of XML 1.0 (Fifth Edition), and the decoder's reverse
    substitution chain. */
module Escaping {
  import opened Strings

  /** `escapeXML` and the per-line escape of `generateCodeTEIXML`: five global
      replacements, ampersand first. */
  function EscapeXml(text: string): string
  {
    var s1 := ReplaceAll(text, "&", "&amp;");
    var s2 := ReplaceAll(s1, "<", "&lt;");
    var s3 := ReplaceAll(s2, ">", "&gt;");
    var s4 := ReplaceAll(s3, "\"", "&quot;");
    ReplaceAll(s4, "'", "&apos;")
  }

  /** The decoder's unescape chain: the four entities that do not start
      another entity's replacement first, `&amp;` last. */
  function UnescapeXml(text: string): string
  {
    var s1 := ReplaceAll(text, "&lt;", "<");
    var s2 := ReplaceAll(s1, "&gt;", ">");
    var s3 := ReplaceAll(s2, "&quot;", "\"");
    var s4 := ReplaceAll(s3, "&apos;", "'");
    ReplaceAll(s4, "&amp;", "&")
  }

  /** The entity that stands for a markup character, or the character itself. */
  function EntityFor(c: char): string
  {
    match c
    case '&' => "&amp;"
    case '<' => "&lt;"
    case '>' => "&gt;"
    case '"' => "&quot;"
    case '\'' => "&apos;"
    case _ => [c]
  }

  predicate IsEntity(e: string)
  {
    e == "&amp;" || e == "&lt;" || e == "&gt;" || e == "&quot;" || e == "&apos;"
  }

  /** Reference definition of escaping: every character replaced by its
      entity independently of its neighbours. */
  function Entities(s: string): string
  {
    if |s| == 0 then "" else EntityFor(s[0]) + Entities(s[1..])
  }

  // ---------------------------------------------------------------------
  // The replace chains, one stage at a time. After the first k escape
  // stages a character c stands as EscapedUpTo(k, c); after the first j
  // unescape stages it stands as UnescapedUpTo(j, c).

  function EscapedUpTo(k: nat, c: char): string
  {
    if c == '&' && k >= 1 then "&amp;"
    else if c == '<' && k >= 2 then "&lt;"
    else if c == '>' && k >= 3 then "&gt;"
    else if c == '"' && k >= 4 then "&quot;"
    else if c == '\'' && k >= 5 then "&apos;"
    else [c]
  }

  function UnescapedUpTo(j: nat, c: char): string
  {
    if c == '<' then (if j >= 1 then "<" else "&lt;")
    else if c == '>' then (if j >= 2 then ">" else "&gt;")
    else if c == '"' then (if j >= 3 then "\"" else "&quot;")
    else if c == '\'' then (if j >= 4 then "'" else "&apos;")
    else if c == '&' then (if j >= 5 then "&" else "&amp;")
    else [c]
  }

  function EscapeStage(k: nat, s: string): string
  {
    if |s| == 0 then "" else EscapedUpTo(k, s[0]) + EscapeStage(k, s[1..])
  }

  function UnescapeStage(j: nat, s: string): string
  {
    if |s| == 0 then "" else UnescapedUpTo(j, s[0]) + UnescapeStage(j, s[1..])
  }

  function EscapePattern(k: nat): string
    requires k < 5
  {
    ["&<>\"'"[k]]
  }

  function EscapeReplacement(k: nat): string
    requires k < 5
  {
    ["&amp;", "&lt;", "&gt;", "&quot;", "&apos;"][k]
  }

  function UnescapePattern(j: nat): string
    requires j < 5
  {
    ["&lt;", "&gt;", "&quot;", "&apos;", "&amp;"][j]
  }

  function UnescapeReplacement(j: nat): string
    requires j < 5
  {
    ["<>\"'&"[j]]
  }

  lemma {:induction false} EscapeStageZero(s: string)
    ensures EscapeStage(0, s) == s
  {
    if |s| > 0 {
      EscapeStageZero(s[1..]);
      assert s == [s[0]] + s[1..];
    }
  }

  lemma {:induction false} UnescapeStageFive(s: string)
    ensures UnescapeStage(5, s) == s
  {
    if |s| > 0 {
      UnescapeStageFive(s[1..]);
      assert s == [s[0]] + s[1..];
    }
  }

  lemma {:induction false} EscapeIsLastStage(s: string)
    ensures Entities(s) == EscapeStage(5, s) == UnescapeStage(0, s)
  {
    if |s| > 0 {
      EscapeIsLastStage(s[1..]);
    }
  }

  /** One escape stage turns stage k into stage k + 1. */
  lemma {:induction false} EscapeStep(k: nat, s: string)
    requires k < 5
    ensures ReplaceAll(EscapeStage(k, s), EscapePattern(k), EscapeReplacement(k)) == EscapeStage(k + 1, s)
  {
    if |s| > 0 {
      var pat, rep := EscapePattern(k), EscapeReplacement(k);
      var t := EscapedUpTo(k, s[0]);
      var rest := EscapeStage(k, s[1..]);
      EscapeStep(k, s[1..]);
      if t == pat {
        ReplaceAllHit(rest, pat, rep);
      } else {
        assert pat[0] !in t;
        ReplaceAllSkips(t, rest, pat, rep);
      }
    }
  }

  /** One unescape stage turns stage j into stage j + 1. */
  lemma {:induction false} UnescapeStep(j: nat, s: string)
    requires j < 5
    ensures ReplaceAll(UnescapeStage(j, s), UnescapePattern(j), UnescapeReplacement(j)) == UnescapeStage(j + 1, s)
  {
    if |s| > 0 {
      UnescapeStep(j, s[1..]);
      UnescapeToken(j, s[0], UnescapeStage(j, s[1..]));
    }
  }

  lemma UnescapeToken(j: nat, c: char, rest: string)
    requires j < 5
    ensures ReplaceAll(UnescapedUpTo(j, c) + rest, UnescapePattern(j), UnescapeReplacement(j))
         == UnescapedUpTo(j + 1, c) + ReplaceAll(rest, UnescapePattern(j), UnescapeReplacement(j))
  {
    var pat, rep := UnescapePattern(j), UnescapeReplacement(j);
    var t := UnescapedUpTo(j, c);
    UnescapeTokenShape(j, c);
    if t == pat {
      ReplaceAllHit(rest, pat, rep);
    } else if '&' !in t {
      ReplaceAllSkips(t, rest, pat, rep);
    } else {
      EntityPasses(t, pat, rep, rest);
    }
  }

  /** An entity other than the pattern is passed over whole: the scan steps
      over its '&' and then over the '&'-free remainder. */
  lemma EntityPasses(t: string, pat: string, rep: string, rest: string)
    requires IsEntity(t) && IsEntity(pat) && t != pat
    ensures ReplaceAll(t + rest, pat, rep) == t + ReplaceAll(rest, pat, rep)
  {
    EntityMismatch(t, pat, rest);
    PassFirst(t, pat, rep, rest);
  }

  lemma PassFirst(t: string, pat: string, rep: string, rest: string)
    requires |t| > 0 && |pat| > 0 && t[0] == pat[0] && pat[0] !in t[1..]
    requires !StartsWith(t + rest, pat)
    ensures ReplaceAll(t + rest, pat, rep) == t + ReplaceAll(rest, pat, rep)
  {
    assert (t + rest)[1..] == t[1..] + rest;
    assert (t + rest)[0] == t[0];
    ReplaceAllSkips(t[1..], rest, pat, rep);
    assert t == [t[0]] + t[1..];
  }

  /** What stage j does to a single character's text. */
  lemma UnescapeTokenShape(j: nat, c: char)
    requires j < 5
    ensures IsEntity(UnescapePattern(j))
    ensures UnescapedUpTo(j, c) == UnescapePattern(j) ==> UnescapedUpTo(j + 1, c) == UnescapeReplacement(j)
    ensures UnescapedUpTo(j, c) != UnescapePattern(j) ==>
      UnescapedUpTo(j + 1, c) == UnescapedUpTo(j, c) && ('&' !in UnescapedUpTo(j, c) || IsEntity(UnescapedUpTo(j, c)))
  {
  }

  lemma EntityMismatch(t: string, pat: string, rest: string)
    requires IsEntity(t) && IsEntity(pat) && t != pat
    ensures !StartsWith(t + rest, pat)
    ensures |t| > 0 && |pat| > 0 && t[0] == pat[0] && pat[0] !in t[1..]
  {
    var d := if (t == "&amp;" && pat == "&apos;") || (t == "&apos;" && pat == "&amp;") then 2 else 1;
    assert (t + rest)[d] == t[d] != pat[d];
  }

  /** The chained replacements agree with the character-by-character
      reference definition. */
  lemma EscapeXmlIsEntities(s: string)
    ensures EscapeXml(s) == Entities(s)
  {
    EscapeStageZero(s);
    EscapeStep(0, s);
    EscapeStep(1, s);
    EscapeStep(2, s);
    EscapeStep(3, s);
    EscapeStep(4, s);
    EscapeIsLastStage(s);
  }

  /** Unescaping undoes escaping: because `&amp;` is decoded last, no
      entity produced by an earlier step is decoded twice. */
  lemma UnescapeEscape(s: string)
    ensures UnescapeXml(EscapeXml(s)) == s
  {
    EscapeXmlIsEntities(s);
    EscapeIsLastStage(s);
    UnescapeStep(0, s);
    UnescapeStep(1, s);
    UnescapeStep(2, s);
    UnescapeStep(3, s);
    UnescapeStep(4, s);
    UnescapeStageFive(s);
  }

  /** One character's replacement: no raw markup character but a leading
      `&`, and that only when it is a whole entity. */
  lemma EntityForShape(c: char)
    ensures var t := EntityFor(c);
      && |t| > 0
      && '<' !in t && '>' !in t && '"' !in t && '\'' !in t
      && (forall j :: 0 < j < |t| ==> t[j] != '&')
      && (t[0] == '&' ==> IsEntity(t))
  {
  }

  /** Escaped text holds no raw `<`, `>`, `"` or `'`. */
  lemma {:induction false} EntitiesHaveNoMarkup(s: string)
    ensures '<' !in Entities(s) && '>' !in Entities(s)
    ensures '"' !in Entities(s) && '\'' !in Entities(s)
  {
    if |s| > 0 {
      EntitiesHaveNoMarkup(s[1..]);
      EntityForShape(s[0]);
    }
  }

  /** Every `&` in escaped text begins one of the five entities. */
  lemma {:induction false} EntitiesAmpersands(s: string)
    ensures forall i :: 0 <= i < |Entities(s)| && Entities(s)[i] == '&' ==>
      exists e :: IsEntity(e) && StartsWith(Entities(s)[i..], e)
  {
    if |s| > 0 {
      EntitiesAmpersands(s[1..]);
      var t, r := EntityFor(s[0]), Entities(s[1..]);
      EntityForShape(s[0]);
      assert Entities(s) == t + r;
      forall i | 0 <= i < |t + r| && (t + r)[i] == '&'
        ensures exists e :: IsEntity(e) && StartsWith((t + r)[i..], e)
      {
        if i < |t| {
          assert i == 0;
          StartsWithAppend(t, r, t);
        } else {
          assert (t + r)[i..] == r[i - |t|..];
          assert r[i - |t|] == '&';
        }
      }
    }
  }

  /** Escaped text holds no raw `<`, `>`, `"` or `'`, and every `&` in it
      begins one of the five entities. */
  lemma EntitiesAreMarkupFree(s: string)
    ensures '<' !in Entities(s) && '>' !in Entities(s)
    ensures '"' !in Entities(s) && '\'' !in Entities(s)
    ensures forall i :: 0 <= i < |Entities(s)| && Entities(s)[i] == '&' ==>
      exists e :: IsEntity(e) && StartsWith(Entities(s)[i..], e)
  {
    EntitiesHaveNoMarkup(s);
    EntitiesAmpersands(s);
  }

  lemma EscapeXmlIsMarkupFree(s: string)
    ensures '<' !in EscapeXml(s) && '>' !in EscapeXml(s)
    ensures '"' !in EscapeXml(s) && '\'' !in EscapeXml(s)
    ensures forall i :: 0 <= i < |EscapeXml(s)| && EscapeXml(s)[i] == '&' ==>
      exists e :: IsEntity(e) && StartsWith(EscapeXml(s)[i..], e)
  {
    EscapeXmlIsEntities(s);
    EntitiesAreMarkupFree(s);
  }

  predicate IsMarkupChar(c: char)
  {
    c == '&' || c == '<' || c == '>' || c == '"' || c == '\''
  }

  /** Text without markup characters is left as it is, and text with one is
      changed: escaping is the identity exactly on markup-free text. */
  lemma {:induction false} EntitiesIdentity(s: string)
    ensures Entities(s) == s <==> forall i :: 0 <= i < |s| ==> !IsMarkupChar(s[i])
  {
    if |s| > 0 {
      EntitiesIdentity(s[1..]);
      EntitiesLength(s[1..]);
      if IsMarkupChar(s[0]) {
        assert |Entities(s)| > |s|;
      } else {
        assert s == [s[0]] + s[1..];
      }
    }
  }

  lemma {:induction false} EntitiesLength(s: string)
    ensures |Entities(s)| >= |s|
  {
    if |s| > 0 {
      EntitiesLength(s[1..]);
    }
  }

  /** A non-empty input escapes to a non-empty output. */
  lemma EscapeXmlNonEmpty(s: string)
    ensures |EscapeXml(s)| >= |s|
  {
    EscapeXmlIsEntities(s);
    EntitiesLength(s);
  }
}
