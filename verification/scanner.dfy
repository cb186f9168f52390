/** First-match and global-match search for the regular expressions the
    decoder uses. Each of them has the shape

        open [^>]* > ( [^stop]{minLen,} ) close        (with attributes)
        open         ( [^stop]{minLen,} ) close        (without)

    where `close` begins with the stop character. A greedy `[^>]*` can only be
    followed by `>` at the end of its run, and a greedy `[^stop]*` can only be
    followed by `close` at the end of its run, so backtracking never finds a
    second way to match at a position: a match at a position is decided by
    the two maximal runs, as `MatchAt` computes it. */
module Scanner {
  import opened Strings

  datatype Pattern = Pattern(open: string, attributes: bool, stop: char, minLen: nat, close: string)

  predicate ValidPattern(p: Pattern)
  {
    |p.open| > 0 && |p.close| > 0 && p.close[0] == p.stop
  }

  /** A match: how many characters it spans and its capture group. */
  datatype Match = Match(length: nat, capture: string)

  /** The match of `p` that starts at the first character of `s`, if any. */
  function MatchAt(p: Pattern, s: string): (r: Option<Match>)
    ensures r.Some? ==> StartsWith(s, p.open)
    ensures r.Some? ==> |p.open| + |p.close| <= r.value.length <= |s|
    ensures r.Some? ==> p.stop !in r.value.capture && |r.value.capture| >= p.minLen
    ensures r.Some? ==> StartsWith(s[r.value.length - |p.close|..], p.close)
  {
    if !StartsWith(s, p.open) then None
    else match TagEnd(p, s)
      case None => None
      case Some(b) => CaptureAt(p, s, b)
  }

  /** Where the capture begins: right after the opening literal, or after the
      first `>` that follows it when the pattern has attributes. */
  function TagEnd(p: Pattern, s: string): (r: Option<nat>)
    requires StartsWith(s, p.open)
    ensures r.Some? ==> |p.open| <= r.value <= |s|
  {
    var a := |p.open|;
    if !p.attributes then Some(a)
    else
      var n := RunLen(s[a..], '>');
      if a + n == |s| then None else Some(a + n + 1)
  }

  /** The capture run from `b` and the closing literal after it. */
  function CaptureAt(p: Pattern, s: string, b: nat): (r: Option<Match>)
    requires b <= |s|
    ensures r.Some? ==> b + |p.close| <= r.value.length <= |s|
    ensures r.Some? ==> p.stop !in r.value.capture && |r.value.capture| >= p.minLen
    ensures r.Some? ==> StartsWith(s[r.value.length - |p.close|..], p.close)
  {
    var run := RunLen(s[b..], p.stop);
    var c := b + run;
    if run >= p.minLen && StartsWith(s[c..], p.close) then
      assert s[c..][..|p.close|] == s[c..c + |p.close|];
      assert s[b..c] == s[b..][..run];
      Some(Match(c + |p.close|, s[b..c]))
    else None
  }

  /** `s.match(re)`: the capture of the leftmost match. */
  function Find(p: Pattern, s: string): (r: Option<string>)
    ensures r.Some? ==> p.stop !in r.value && |r.value| >= p.minLen
    decreases |s|
  {
    if |s| == 0 then None
    else match MatchAt(p, s)
      case Some(m) => Some(m.capture)
      case None => Find(p, s[1..])
  }

  /** `s.match(re_g) || []`: every match, left to right, each search resuming
      where the previous match ended. */
  function FindAll(p: Pattern, s: string): (r: seq<string>)
    requires ValidPattern(p)
    ensures forall k :: 0 <= k < |r| ==> StartsWith(r[k], p.open)
    decreases |s|
  {
    if |s| == 0 then []
    else match MatchAt(p, s)
      case Some(m) =>
        assert StartsWith(s[..m.length], p.open) by {
          assert s[..m.length][..|p.open|] == s[..|p.open|];
        }
        [s[..m.length]] + FindAll(p, s[m.length..])
      case None => FindAll(p, s[1..])
  }

  // ---------------------------------------------------------------------
  // The searches against the positions where a match starts.

  /** `match` finds nothing exactly when no position of the text starts a
      match. */
  lemma {:induction false} FindNoneIff(p: Pattern, s: string)
    ensures Find(p, s).None? <==> forall i :: 0 <= i < |s| ==> MatchAt(p, s[i..]).None?
    decreases |s|
  {
    if |s| > 0 {
      FindNoneIff(p, s[1..]);
      assert s[0..] == s;
      forall i | 0 < i < |s| ensures s[i..] == s[1..][i - 1..] {}
    }
  }

  /** `match` returns the capture of the leftmost position that starts a
      match. */
  lemma {:induction false} FindLeftmost(p: Pattern, s: string, i: nat)
    requires i < |s| && MatchAt(p, s[i..]).Some?
    requires forall j :: 0 <= j < i ==> MatchAt(p, s[j..]).None?
    ensures Find(p, s) == Some(MatchAt(p, s[i..]).value.capture)
    decreases i
  {
    assert s[0..] == s;
    if i > 0 {
      forall j | 0 <= j < i - 1 ensures MatchAt(p, s[1..][j..]).None? {
        assert s[1..][j..] == s[j + 1..];
      }
      assert s[1..][i - 1..] == s[i..];
      FindLeftmost(p, s[1..], i - 1);
    }
  }

  /** The global search finds nothing exactly when no position of the text
      starts a match. */
  lemma {:induction false} FindAllEmptyIff(p: Pattern, s: string)
    requires ValidPattern(p)
    ensures FindAll(p, s) == [] <==> forall i :: 0 <= i < |s| ==> MatchAt(p, s[i..]).None?
    decreases |s|
  {
    if |s| > 0 {
      FindAllEmptyIff(p, s[1..]);
      assert s[0..] == s;
      forall i | 0 < i < |s| ensures s[i..] == s[1..][i - 1..] {}
    }
  }

  /** The global search takes the leftmost match first, then resumes
      right after it. */
  lemma FindAllLeftmost(p: Pattern, s: string, i: nat)
    requires ValidPattern(p)
    requires i < |s| && MatchAt(p, s[i..]).Some?
    requires forall j :: 0 <= j < i ==> MatchAt(p, s[j..]).None?
    ensures var t, m := s[i..], MatchAt(p, s[i..]).value;
      FindAll(p, s) == [t[..m.length]] + FindAll(p, t[m.length..])
  {
    FindAllSkipNone(p, s, i);
    FindAllHere(p, s[i..]);
  }

  /** Positions that start no match are passed over by the global search. */
  lemma {:induction false} FindAllSkipNone(p: Pattern, s: string, i: nat)
    requires ValidPattern(p) && i <= |s|
    requires forall j :: 0 <= j < i ==> MatchAt(p, s[j..]).None?
    ensures FindAll(p, s) == FindAll(p, s[i..])
    decreases i
  {
    if i == 0 {
      assert s[0..] == s;
    } else {
      NoMatchBeforeShift(p, s, i);
      FindAllSkip(p, s);
      FindAllSkipNone(p, s[1..], i - 1);
    }
  }

  lemma NoMatchBeforeShift(p: Pattern, s: string, i: nat)
    requires 0 < i <= |s|
    requires forall j :: 0 <= j < i ==> MatchAt(p, s[j..]).None?
    ensures MatchAt(p, s[0..]).None?
    ensures forall j :: 0 <= j < i - 1 ==> MatchAt(p, s[1..][j..]).None?
    ensures s[1..][i - 1..] == s[i..]
  {
    forall j | 0 <= j < i - 1 ensures MatchAt(p, s[1..][j..]).None? {
      assert s[1..][j..] == s[j + 1..];
    }
  }

  lemma FindAllHere(p: Pattern, s: string)
    requires ValidPattern(p) && |s| > 0 && MatchAt(p, s).Some?
    ensures var m := MatchAt(p, s).value;
      FindAll(p, s) == [s[..m.length]] + FindAll(p, s[m.length..])
  {
  }

  lemma FindAllSkip(p: Pattern, s: string)
    requires ValidPattern(p) && |s| > 0 && MatchAt(p, s[0..]).None?
    ensures FindAll(p, s) == FindAll(p, s[1..])
  {
    assert s[0..] == s;
  }

  // ---------------------------------------------------------------------
  // Text in which no match can begin.

  /** `x` agrees with `o` as far as both go. */
  predicate Compatible(x: string, o: string)
  {
    forall j :: 0 <= j < |x| && j < |o| ==> x[j] == o[j]
  }

  /** No position of `s` can begin an occurrence of `o`, whatever follows `s`. */
  predicate Avoids(s: string, o: string)
  {
    forall i :: 0 <= i < |s| ==> !Compatible(s[i..], o)
  }

  lemma NotStartsWith(s: string, rest: string, o: string)
    requires |s| > 0 && !Compatible(s, o)
    ensures !StartsWith(s + rest, o)
  {
    var j :| 0 <= j < |s| && j < |o| && s[j] != o[j];
    assert (s + rest)[j] == s[j];
  }

  /** Text that avoids the opening literal contributes no match. */
  lemma {:induction false} SkipAvoided(p: Pattern, a: string, rest: string)
    requires ValidPattern(p) && Avoids(a, p.open)
    ensures Find(p, a + rest) == Find(p, rest)
    ensures FindAll(p, a + rest) == FindAll(p, rest)
  {
    if |a| > 0 {
      assert a[0..] == a;
      NotStartsWith(a, rest, p.open);
      assert (a + rest)[1..] == a[1..] + rest;
      assert Avoids(a[1..], p.open) by {
        forall i | 0 <= i < |a[1..]| ensures !Compatible(a[1..][i..], p.open) {
          assert a[1..][i..] == a[i + 1..];
        }
      }
      SkipAvoided(p, a[1..], rest);
    } else {
      assert a + rest == rest;
    }
  }

  /** Text that avoids the opening literal holds no match at all. */
  lemma NoMatchIn(p: Pattern, s: string)
    requires ValidPattern(p) && Avoids(s, p.open)
    ensures Find(p, s) == None && FindAll(p, s) == []
  {
    SkipAvoided(p, s, "");
    assert s + "" == s;
  }

  lemma AvoidsAppend(a: string, b: string, o: string)
    requires Avoids(a, o) && Avoids(b, o)
    ensures Avoids(a + b, o)
  {
    forall i | 0 <= i < |a + b| ensures !Compatible((a + b)[i..], o) {
      if i < |a| {
        assert !Compatible(a[i..], o);
        var j :| 0 <= j < |a[i..]| && j < |o| && a[i..][j] != o[j];
        assert (a + b)[i..][j] == a[i..][j];
      } else {
        assert (a + b)[i..] == b[i - |a|..];
      }
    }
  }

  lemma AvoidsConcat3(a: string, b: string, c: string, o: string)
    requires Avoids(a, o) && Avoids(b, o) && Avoids(c, o)
    ensures Avoids(a + b + c, o)
  {
    AvoidsAppend(a, b, o);
    AvoidsAppend(a + b, c, o);
  }

  lemma AvoidsConcat4(a: string, b: string, c: string, d: string, o: string)
    requires Avoids(a, o) && Avoids(b, o) && Avoids(c, o) && Avoids(d, o)
    ensures Avoids(a + b + c + d, o)
  {
    AvoidsConcat3(a, b, c, o);
    AvoidsAppend(a + b + c, d, o);
  }

  lemma AvoidsConcat5(a: string, b: string, c: string, d: string, e: string, o: string)
    requires Avoids(a, o) && Avoids(b, o) && Avoids(c, o) && Avoids(d, o) && Avoids(e, o)
    ensures Avoids(a + b + c + d + e, o)
  {
    AvoidsConcat4(a, b, c, d, o);
    AvoidsAppend(a + b + c + d, e, o);
  }

  /** Joined parts avoid `o` when every part and the separator do. */
  lemma {:induction false} AvoidsJoin(parts: seq<string>, sep: string, o: string)
    requires forall k :: 0 <= k < |parts| ==> Avoids(parts[k], o)
    requires Avoids(sep, o)
    ensures Avoids(Join(parts, sep), o)
  {
    if |parts| > 1 {
      AvoidsJoin(parts[1..], sep, o);
      AvoidsConcat3(parts[0], sep, Join(parts[1..], sep), o);
    }
  }

  /** A text avoids `o` when it lacks the character `c` found at position
      `k` of `o`, and its last character is none of the `k` characters
      before it (otherwise a short tail of the text could still begin `o`). */
  lemma AvoidsByKey(s: string, o: string, k: nat, c: char, before: string)
    requires k < |o| && c == o[k] && before == o[..k]
    requires forall i :: 0 <= i < |s| ==> s[i] != c
    requires |s| > 0 ==> s[|s| - 1] !in before
    ensures Avoids(s, o)
  {
    forall i | 0 <= i < |s| ensures !Compatible(s[i..], o) {
      if i + k < |s| {
        assert s[i..][k] == s[i + k];
      } else {
        var j := |s| - 1 - i;
        assert s[i..][j] == s[|s| - 1];
        assert o[j] in before;
      }
    }
  }

  /** How `MatchAt` treats text laid out as open, attributes, content and
      what follows: it matches exactly when the content is long enough and
      the text after it begins with the closing literal. */
  lemma MatchAtShape(p: Pattern, attrs: string, content: string, after: string)
    requires ValidPattern(p)
    requires p.attributes || attrs == ""
    requires '>' !in attrs && p.stop !in content
    requires |after| > 0 && after[0] == p.stop
    ensures var s := p.open + attrs + (if p.attributes then ">" else "") + content + after;
      MatchAt(p, s) ==
        if |content| >= p.minLen && StartsWith(after, p.close)
        then Some(Match(|s| - |after| + |p.close|, content))
        else None
  {
    var gt := if p.attributes then ">" else "";
    var s := p.open + attrs + gt + content + after;
    assert s == p.open + attrs + gt + (content + after);
    var b := ContentStart(p, attrs, content + after);
    CaptureShape(p, s, b, content, after);
  }

  /** A complete match right at the start: `Find` returns its capture and
      `FindAll` takes it and resumes after it. */
  lemma MatchHere(p: Pattern, attrs: string, content: string, rest: string)
    requires ValidPattern(p) && (p.attributes || attrs == "")
    requires '>' !in attrs && p.stop !in content && |content| >= p.minLen
    ensures var m := p.open + attrs + (if p.attributes then ">" else "") + content + p.close;
      Find(p, m + rest) == Some(content) && FindAll(p, m + rest) == [m] + FindAll(p, rest)
  {
    var gt := if p.attributes then ">" else "";
    var m := p.open + attrs + gt + content + p.close;
    var after := p.close + rest;
    MatchAtShape(p, attrs, content, after);
    ConcatAssoc(p.open + attrs + gt + content, p.close, rest);
    assert (m + rest)[..|m|] == m && (m + rest)[|m|..] == rest;
  }

  /** A complete match after text that avoids the opening literal is the
      first match, whatever follows it. */
  lemma FindPastPrefix(p: Pattern, pre: string, attrs: string, content: string, s: string)
    requires ValidPattern(p) && (p.attributes || attrs == "")
    requires '>' !in attrs && p.stop !in content && |content| >= p.minLen
    requires Avoids(pre, p.open)
    requires StartsWith(s, pre + (p.open + attrs + (if p.attributes then ">" else "") + content + p.close))
    ensures Find(p, s) == Some(content)
  {
    var m := p.open + attrs + (if p.attributes then ">" else "") + content + p.close;
    var k := |pre + m|;
    var post := s[k..];
    assert s == s[..k] + post;
    ConcatAssoc(pre, m, post);
    SkipAvoided(p, pre, m + post);
    MatchHere(p, attrs, content, post);
  }

  /** An opening literal followed at once by the stop character is no match
      for a pattern that needs a non-empty capture; if nothing after it can
      begin a match either, there is no match at all. */
  lemma FindMissEmpty(p: Pattern, pre: string, rest: string)
    requires ValidPattern(p) && !p.attributes && p.minLen >= 1
    requires |rest| > 0 && rest[0] == p.stop
    requires Avoids(pre, p.open) && Avoids(p.open[1..], p.open) && Avoids(rest, p.open)
    ensures Find(p, pre + (p.open + rest)) == None
  {
    SkipAvoided(p, pre, p.open + rest);
    MatchAtShape(p, "", "", rest);
    assert p.open + "" + "" + "" + rest == p.open + rest;
    assert (p.open + rest)[1..] == p.open[1..] + rest;
    AvoidsAppend(p.open[1..], rest, p.open);
    NoMatchIn(p, p.open[1..] + rest);
  }

  /** An element whose start tag is followed by a `stop` that does not begin
      the closing literal is not a match. */
  lemma MissHere(p: Pattern, attrs: string, rest: string)
    requires ValidPattern(p) && p.attributes && '>' !in attrs
    requires RunLen(rest, p.stop) < |rest| && !StartsWith(rest[RunLen(rest, p.stop)..], p.close)
    ensures MatchAt(p, p.open + attrs + ">" + rest) == None
  {
    var k := RunLen(rest, p.stop);
    var content, after := rest[..k], rest[k..];
    assert rest == content + after;
    MatchAtShape(p, attrs, content, after);
    ConcatAssoc(p.open + attrs + ">", content, after);
  }

  /** Text that is not a match at its start and whose remainder avoids the
      opening literal contributes no match. */
  lemma SkipMiss(p: Pattern, a: string, rest: string)
    requires ValidPattern(p) && |a| > 0 && MatchAt(p, a + rest).None? && Avoids(a[1..], p.open)
    ensures FindAll(p, a + rest) == FindAll(p, rest)
  {
    assert (a + rest)[1..] == a[1..] + rest;
    SkipAvoided(p, a[1..], rest);
  }

  lemma CaptureShape(p: Pattern, s: string, b: nat, content: string, after: string)
    requires b <= |s| && s[b..] == content + after
    requires p.stop !in content && |after| > 0 && after[0] == p.stop
    ensures CaptureAt(p, s, b) ==
      if |content| >= p.minLen && StartsWith(after, p.close)
      then Some(Match(|s| - |after| + |p.close|, content))
      else None
  {
    RunLenAppend(content, after, p.stop);
    var c := b + |content|;
    assert s[c..] == after;
    assert s[b..c] == content;
  }

  /** With the text laid out as above, the capture begins right after the
      opening literal and the start tag. */
  lemma ContentStart(p: Pattern, attrs: string, tail: string) returns (b: nat)
    requires ValidPattern(p)
    requires p.attributes || attrs == ""
    requires '>' !in attrs
    ensures var s := p.open + attrs + (if p.attributes then ">" else "") + tail;
      && StartsWith(s, p.open)
      && TagEnd(p, s) == Some(b)
      && b == |s| - |tail|
      && s[b..] == tail
  {
    var gt := if p.attributes then ">" else "";
    var s := p.open + attrs + gt + tail;
    var a := |p.open|;
    assert s[..a] == p.open;
    b := |s| - |tail|;
    if p.attributes {
      assert s[a..] == attrs + (">" + tail);
      RunLenAppend(attrs, ">" + tail, '>');
    }
    assert s[b..] == tail;
  }
}
