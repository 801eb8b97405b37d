/** The pure steps of `handleLink` in `src/rss.mjs` (lines 48-56): the first
    capture of `/<relevance>(.*?)<\/relevance>/`, the `< 7` gate with its
    JavaScript coercions, and the `user: message` transcript. */
module Relevance {
  import opened Js
  import Prompts

  /** The literal opening and closing tags of the pattern. */
  const Open: string := "<relevance>"
  const Close: string := "</relevance>"

  predicate NoLineTerminator(s: string)
  {
    forall i :: 0 <= i < |s| ==> !IsLineTerminator(s[i])
  }

  /** Where `.*?` followed by `</relevance>` stops when the capture starts at
      `j`: the first closing tag, provided no line terminator comes before it
      (`.` does not match one). */
  function LazyClose(s: string, j: nat): (k: Option<nat>)
    requires j <= |s|
    ensures k.Some? ==> j <= k.value && OccursAt(s, k.value, Close) && NoLineTerminator(s[j..k.value])
    decreases |s| - j
  {
    if j + |Close| > |s| then None
    else if s[j..j + |Close|] == Close then Some(j)
    else if IsLineTerminator(s[j]) then None
    else
      var k := LazyClose(s, j + 1);
      assert k.Some? ==> s[j..k.value] == [s[j]] + s[j + 1..k.value];
      k
  }

  /** The capture of the leftmost match starting at or after `i`. */
  function CaptureFrom(s: string, i: nat): (c: Option<string>)
    requires i <= |s|
    ensures c.Some? ==> NoLineTerminator(c.value)
    ensures c.Some? ==> exists p :: i <= p && OccursAt(s, p, Open + c.value + Close)
    decreases |s| - i
  {
    if i + |Open| > |s| then None
    else if s[i..i + |Open|] == Open then
      match LazyClose(s, i + |Open|)
      case Some(k) =>
        var c := s[i + |Open|..k];
        assert s[i..k + |Close|] == s[i..i + |Open|] + c + s[k..k + |Close|];
        assert OccursAt(s, i, Open + c + Close);
        Some(c)
      case None => CaptureFrom(s, i + 1)
    else CaptureFrom(s, i + 1)
  }

  /** `answer.match(...)[1]`; `None` is the `null` of a failed match. */
  function Capture(answer: string): Option<string>
  {
    CaptureFrom(answer, 0)
  }

  /** The pattern matches `s` at `p` with its closing tag at `k`: the opening
      tag at `p`, the closing tag at `k`, and no line terminator in between.
      This is the regular expression's meaning, independent of the search. */
  predicate MatchAt(s: string, p: int, k: int)
  {
    0 <= p && p + |Open| <= k && OccursAt(s, p, Open) && OccursAt(s, k, Close)
    && NoLineTerminator(s[p + |Open|..k])
  }

  lemma LineTerminatorExtends(s: string, j: nat, m: nat)
    requires j < m <= |s| && !NoLineTerminator(s[j + 1..m])
    ensures !NoLineTerminator(s[j..m])
  {
    var i :| 0 <= i < |s[j + 1..m]| && IsLineTerminator(s[j + 1..m][i]);
    assert s[j..m][i + 1] == s[j + 1..m][i];
  }

  /** `LazyClose` stops at the first closing tag, and finds none only when
      every closing tag from `j` on has a line terminator before it. */
  lemma {:induction false} LazyCloseFirst(s: string, j: nat)
    requires j <= |s|
    ensures LazyClose(s, j).Some? ==>
              forall m :: j <= m < LazyClose(s, j).value ==> !OccursAt(s, m, Close)
    ensures LazyClose(s, j).None? ==>
              forall m :: j <= m && OccursAt(s, m, Close) ==> !NoLineTerminator(s[j..m])
    decreases |s| - j
  {
    if j + |Close| > |s| {
    } else if s[j..j + |Close|] == Close {
    } else if IsLineTerminator(s[j]) {
      forall m | j <= m && OccursAt(s, m, Close)
        ensures !NoLineTerminator(s[j..m])
      {
        assert m != j;
        assert s[j..m][0] == s[j];
      }
    } else {
      LazyCloseFirst(s, j + 1);
      assert !OccursAt(s, j, Close);
      if LazyClose(s, j).None? {
        forall m | j <= m && OccursAt(s, m, Close)
          ensures !NoLineTerminator(s[j..m])
        {
          LineTerminatorExtends(s, j, m);
        }
      }
    }
  }

  /** No closing tag fits at `p` when `LazyClose` from after the opening tag
      finds none; otherwise the one it finds is the nearest that fits. */
  lemma LazyCloseMatch(s: string, p: nat)
    requires p + |Open| <= |s| && OccursAt(s, p, Open)
    ensures LazyClose(s, p + |Open|).None? ==> forall k :: !MatchAt(s, p, k)
    ensures LazyClose(s, p + |Open|).Some? ==>
              var k := LazyClose(s, p + |Open|).value;
              MatchAt(s, p, k) && forall k' :: k' < k ==> !MatchAt(s, p, k')
  {
    LazyCloseFirst(s, p + |Open|);
  }

  /** `CaptureFrom` is the leftmost match from `i`, with the nearest closing
      tag (the lazy `.*?`), and finds nothing exactly when no match exists. */
  lemma {:induction false} CaptureFromLeftmost(s: string, i: nat)
    requires i <= |s|
    ensures CaptureFrom(s, i).None? ==> forall p, k :: i <= p ==> !MatchAt(s, p, k)
    ensures CaptureFrom(s, i).Some? ==>
              exists p, k :: i <= p && MatchAt(s, p, k) && CaptureFrom(s, i).value == s[p + |Open|..k]
                             && (forall q, k' :: i <= q < p ==> !MatchAt(s, q, k'))
                             && (forall k' :: k' < k ==> !MatchAt(s, p, k'))
    decreases |s| - i
  {
    if i + |Open| > |s| {
    } else if s[i..i + |Open|] == Open && LazyClose(s, i + |Open|).Some? {
      LazyCloseMatch(s, i);
      var k := LazyClose(s, i + |Open|).value;
      assert MatchAt(s, i, k) && CaptureFrom(s, i).value == s[i + |Open|..k];
    } else {
      if s[i..i + |Open|] == Open {
        LazyCloseMatch(s, i);
      }
      assert forall k :: !MatchAt(s, i, k);
      CaptureFromLeftmost(s, i + 1);
      if CaptureFrom(s, i).Some? {
        var p, k :| i + 1 <= p && MatchAt(s, p, k) && CaptureFrom(s, i).value == s[p + |Open|..k]
                    && (forall q, k' :: i + 1 <= q < p ==> !MatchAt(s, q, k'))
                    && (forall k' :: k' < k ==> !MatchAt(s, p, k'));
        assert forall q, k' :: i <= q < p ==> !MatchAt(s, q, k');
      }
    }
  }

  /** The match fails (`null`) exactly when the pattern matches nowhere. */
  lemma CaptureNoneIff(s: string)
    ensures Capture(s) == None <==> forall p, k :: !MatchAt(s, p, k)
  {
    CaptureFromLeftmost(s, 0);
  }

  /** The outcome of lines 48-52: the match failed (reading `[1]` of `null`
      throws), the link is rejected (`return false`), or it goes on. */
  datatype Verdict = Unmatched | Rejected | Accepted

  /** A non-empty capture becomes `parseInt(capture)`; the empty capture is falsy,
      stays `""` and compares as 0; `NaN < 7` is false. */
  function Judge(answer: string): Verdict
  {
    match Capture(answer)
    case None => Unmatched
    case Some(c) =>
      if c == "" then Rejected
      else match ParseInt(c)
        case NaN => Accepted
        case Integer(n) => if n < 7 then Rejected else Accepted
  }

  /** `Judge` read as the three tests of lines 48-52, one after another. */
  lemma JudgeSteps(answer: string)
    ensures Capture(answer).None? ==> Judge(answer) == Unmatched
    ensures Capture(answer) == Some("") ==> Judge(answer) == Rejected
    ensures var c := Capture(answer);
            c.Some? && c.value != "" && ParseInt(c.value).Integer? && ParseInt(c.value).value < 7
            ==> Judge(answer) == Rejected
    ensures var c := Capture(answer);
            c.Some? && c.value != "" && !(ParseInt(c.value).Integer? && ParseInt(c.value).value < 7)
            ==> Judge(answer) == Accepted
  {
  }

  /** The tag the prompt asks for is the one the pattern looks for. */
  lemma PromptTagIsPatternTag()
    ensures Open == Prompts.RelevanceTag
  {
  }

  // ---------------------------------------------------------------------------
  // replies in the requested format

  /** No match can start before the first `<`. */
  lemma {:induction false} CaptureSkipsText(s: string, i: nat, j: nat)
    requires i <= j <= |s|
    requires forall q :: i <= q < j ==> s[q] != '<'
    ensures CaptureFrom(s, i) == CaptureFrom(s, j)
    decreases j - i
  {
    if i < j {
      assert i + |Open| <= |s| ==> s[i..i + |Open|][0] == s[i] != Open[0];
      CaptureSkipsText(s, i + 1, j);
    }
  }

  /** Over text with no `<` and no line terminator `.*?` runs to the tag after it. */
  lemma {:induction false} LazyCloseSkipsText(s: string, j: nat, k: nat)
    requires j <= k && OccursAt(s, k, Close)
    requires forall q :: j <= q < k ==> s[q] != '<' && !IsLineTerminator(s[q])
    ensures LazyClose(s, j) == Some(k)
    decreases k - j
  {
    if j < k {
      assert s[j..j + |Close|][0] == s[j] != Close[0];
      LazyCloseSkipsText(s, j + 1, k);
    }
  }

  /** A match at `i` whose lazy part stops at `k` captures what lies between. */
  lemma CaptureAt(s: string, i: nat, k: nat)
    requires OccursAt(s, i, Open) && LazyClose(s, i + |Open|) == Some(k)
    ensures CaptureFrom(s, i) == Some(s[i + |Open|..k])
  {
  }

  /** Text without `<` in front of a reply does not move its capture. */
  lemma CaptureAfterText(before: string, s: string)
    requires '<' !in before && |before| <= |s| && s[..|before|] == before
    ensures CaptureFrom(s, 0) == CaptureFrom(s, |before|)
  {
    forall q | 0 <= q < |before| ensures s[q] != '<' {
      assert s[q] == s[..|before|][q];
    }
    CaptureSkipsText(s, 0, |before|);
  }

  /** Where the parts of `before + Open + d + Close + after` lie. */
  lemma TaggedLayout(before: string, d: string, after: string)
    ensures var s := before + Open + d + Close + after;
            |before| <= |s| && s[..|before|] == before
            && OccursAt(s, |before|, Open) && OccursAt(s, |before| + |Open|, d)
            && OccursAt(s, |before| + |Open| + |d|, Close)
  {
    var s := before + Open + d + Close + after;
    var i := |before|;
    var j := i + |Open|;
    var k := j + |d|;
    assert s[..i] == before;
    assert s[i..j] == Open;
    assert s[j..k] == d;
    assert s[k..k + |Close|] == Close;
  }

  /** A match that starts at `start` and captures `d`. */
  lemma CaptureOfTagAt(s: string, start: nat, d: string)
    requires '<' !in d && NoLineTerminator(d)
    requires OccursAt(s, start, Open) && OccursAt(s, start + |Open|, d) && OccursAt(s, start + |Open| + |d|, Close)
    ensures CaptureFrom(s, start) == Some(d)
  {
    var j := start + |Open|;
    var k := j + |d|;
    forall q | j <= q < k ensures s[q] != '<' && !IsLineTerminator(s[q]) {
      assert s[q] == s[j..k][q - j] == d[q - j];
    }
    LazyCloseSkipsText(s, j, k);
    CaptureAt(s, start, k);
  }

  /** A reply of text without `<`, then `<relevance>d</relevance>` with `d`
      free of `<` and of line terminators, then anything, captures `d`. */
  lemma CaptureOfTagged(before: string, d: string, after: string)
    requires '<' !in before && '<' !in d && NoLineTerminator(d)
    ensures Capture(before + Open + d + Close + after) == Some(d)
  {
    var s := before + Open + d + Close + after;
    TaggedLayout(before, d, after);
    CaptureAfterText(before, s);
    CaptureOfTagAt(s, |before|, d);
  }

  /** A reply that is only the tag around `d` captures `d`. */
  lemma CaptureOfTag(d: string)
    requires '<' !in d && NoLineTerminator(d)
    ensures Capture(Open + d + Close) == Some(d)
  {
    CaptureOfTagged("", d, "");
    assert "" + Open + d + Close + "" == Open + d + Close;
  }

  /** The threshold: a reply carrying a decimal score is rejected exactly when
      the score is below 7. */
  lemma JudgeDecimal(before: string, n: nat, after: string)
    requires '<' !in before
    ensures Judge(before + Open + DecimalString(n) + Close + after) == (if n < 7 then Rejected else Accepted)
  {
    DecimalDigitsPlain(n);
    CaptureOfTagged(before, DecimalString(n), after);
    ParseIntOfDecimal(n);
  }

  lemma DecimalDigitsPlain(n: nat)
    ensures '<' !in DecimalString(n) && NoLineTerminator(DecimalString(n)) && DecimalString(n) != ""
  {
    DecimalStringShape(n);
    var d := DecimalString(n);
    forall i | 0 <= i < |d| ensures d[i] != '<' && !IsLineTerminator(d[i]) {
      assert '0' <= d[i] <= '9';
    }
  }

  /** Scores 6, 7 and 10 in a bare tag: rejected, accepted, accepted. */
  lemma JudgeBoundary()
    ensures Judge(Open + DecimalString(6) + Close) == Rejected
    ensures Judge(Open + DecimalString(7) + Close) == Accepted
    ensures Judge(Open + DecimalString(10) + Close) == Accepted
  {
    ParseIntOfDecimal(6);
    DecimalDigitsPlain(6);
    CaptureOfTag(DecimalString(6));
    ParseIntOfDecimal(7);
    DecimalDigitsPlain(7);
    CaptureOfTag(DecimalString(7));
    ParseIntOfDecimal(10);
    DecimalDigitsPlain(10);
    CaptureOfTag(DecimalString(10));
  }

  /** An empty capture is rejected. */
  lemma JudgeEmpty(before: string, after: string)
    requires '<' !in before
    ensures Judge(before + Open + Close + after) == Rejected
  {
    CaptureOfTagged(before, "", after);
    assert before + Open + "" + Close + after == before + Open + Close + after;
  }

  /** A capture that `parseInt` reads as `NaN`, such as `high` or a blank, is
      not rejected. */
  lemma JudgeNotANumber(before: string, d: string, after: string)
    requires '<' !in before && '<' !in d && NoLineTerminator(d)
    requires d != "" && ParseInt(d) == NaN
    ensures Judge(before + Open + d + Close + after) == Accepted
  {
    CaptureOfTagged(before, d, after);
  }

  /** The reply `<relevance>8</relevance>` is accepted. */
  lemma JudgeEight()
    ensures Judge(Open + DecimalString(8) + Close) == Accepted
  {
    ParseIntOfDecimal(8);
    DecimalDigitsPlain(8);
    CaptureOfTag(DecimalString(8));
  }

  /** The reply `<relevance>3</relevance>` is rejected. */
  lemma JudgeThree()
    ensures Judge(Open + DecimalString(3) + Close) == Rejected
  {
    ParseIntOfDecimal(3);
    DecimalDigitsPlain(3);
    CaptureOfTag(DecimalString(3));
  }

  /** A reply without any `<` has no match. */
  lemma JudgeWithoutTag(answer: string)
    requires '<' !in answer
    ensures Judge(answer) == Unmatched
  {
    forall q | 0 <= q < |answer| ensures answer[q] != '<' { }
    CaptureSkipsText(answer, 0, |answer|);
  }

  // ---------------------------------------------------------------------------
  // the transcript of recent messages (lines 55-56)

  datatype RecentMessage = RecentMessage(user: string, message: string)

  /** Whether `handleLink` asks for a richer description (line 55). */
  predicate NeedsContext(recent: seq<RecentMessage>)
  {
    |recent| > 1
  }

  function TranscriptLine(m: RecentMessage): string
  {
    m.user + ": " + m.message
  }

  function TranscriptLines(recent: seq<RecentMessage>): seq<string>
  {
    seq(|recent|, i requires 0 <= i < |recent| => TranscriptLine(recent[i]))
  }

  /** `recentMessages.map(m => `${m.user}: ${m.message}`).join('\n')`. */
  function Transcript(recent: seq<RecentMessage>): string
  {
    Join(TranscriptLines(recent), "\n")
  }

  /** The transcript has one line per message, in order, when no user name or
      message contains a newline. */
  lemma TranscriptLinesBack(recent: seq<RecentMessage>)
    requires |recent| >= 1
    requires forall i :: 0 <= i < |recent| ==> '\n' !in recent[i].user && '\n' !in recent[i].message
    ensures Split(Transcript(recent), '\n') == TranscriptLines(recent)
  {
    var lines := TranscriptLines(recent);
    forall i | 0 <= i < |lines| ensures '\n' !in lines[i] {
      var m := recent[i];
      assert lines[i] == m.user + ": " + m.message;
    }
    SplitJoin(lines, '\n');
  }

  /** The context prompt is the fixed head followed by the transcript, which
      splits back into one `user: message` line per recent message, in order. */
  lemma ContextPromptLines(recent: seq<RecentMessage>)
    requires |recent| >= 1
    requires forall i :: 0 <= i < |recent| ==> '\n' !in recent[i].user && '\n' !in recent[i].message
    ensures var p := Prompts.ContextPrompt(Transcript(recent));
            var lines := Split(p[|Prompts.ContextHead|..], '\n');
            p[..|Prompts.ContextHead|] == Prompts.ContextHead && |lines| == |recent|
            && forall i :: 0 <= i < |recent| ==> lines[i] == recent[i].user + ": " + recent[i].message
  {
    TranscriptLinesBack(recent);
  }
}
