/** The two prompt templates of `src/prompts.mjs`: total, state-free string
    builders. Being Dafny functions they are deterministic by construction. */
module Prompts {
  import opened Js

  /** The page details handed to the relevance prompt. Every open-graph field
      may be missing (`undefined`); the url is the link itself. */
  datatype Site = Site(
    url: string,
    ogTitle: Option<string>,
    ogDescription: Option<string>,
    ogType: Option<string>,
    ogUrl: Option<string>,
    ogSiteName: Option<string>)

  /** The tag the relevance prompt asks the model to answer in. */
  const RelevanceTag: string := "<relevance>"

  /** The instruction line up to the tag, and after it. */
  const RelevanceIntroBefore: string :=
    "Determine if the webpage details provided below are technically relevant to the Believe in "
    + "Serverless community. The page should be about serverless or something related to modern "
    + "application development. Return your answer in a "
  const RelevanceIntroAfter: string :=
    " tag on a scale of 1-10, with 1 being not at all relevant and 10 being extremely relevant."

  /** The instruction line and the `Details:` line, each ended by its newline. */
  const RelevanceHead: string :=
    RelevanceIntroBefore + RelevanceTag + RelevanceIntroAfter + "\n" + "      Details:\n"

  /** The labels of the detail lines, in the order the template lists them. */
  const RelevanceLabels: seq<string> := ["url", "ogTitle", "ogDescription", "ogType", "ogUrl", "ogSiteName"]

  /** The detail values as the template literal renders them. */
  function RelevanceValues(site: Site): (vs: seq<string>)
    ensures |vs| == |RelevanceLabels|
  {
    [site.url, Interpolate(site.ogTitle), Interpolate(site.ogDescription),
     Interpolate(site.ogType), Interpolate(site.ogUrl), Interpolate(site.ogSiteName)]
  }

  /** One indented `label: value` line of the details block. */
  function DetailLine(name: string, value: string): string
  {
    "        " + name + ": " + value + "\n"
  }

  function DetailLines(labels: seq<string>, values: seq<string>): string
    requires |labels| == |values|
    decreases |labels|
  {
    if |labels| == 0 then ""
    else DetailLine(labels[0], values[0]) + DetailLines(labels[1..], values[1..])
  }

  /** Where line `k` of the details block starts: the lengths of the lines before it. */
  function LineOffset(labels: seq<string>, values: seq<string>, k: nat): nat
    requires |labels| == |values| && k <= |labels|
    decreases k
  {
    if k == 0 then 0 else LineOffset(labels, values, k - 1) + |DetailLine(labels[k - 1], values[k - 1])|
  }

  /** `getRelevancePrompt(site)`. */
  function RelevancePrompt(site: Site): string
  {
    RelevanceHead + DetailLines(RelevanceLabels, RelevanceValues(site)) + "      "
  }

  /** The fixed text before the transcript in `getContextPrompt`. */
  const ContextHead: string :=
    "Given the following conversation thread from the Believe in Serverless Discord server, "
    + "determine if there is any relevant context that should be shared when creating an rss feed "
    + "item for the link. Make your response contain only the description that should be included "
    + "in the rss feed item. It should be a combination of conversational context and description "
    + "from the og metadata.\n"
    + "    Conversation:\n"
    + "      "

  /** `getContextPrompt(messages)`: the fixed head, then the transcript verbatim. */
  function ContextPrompt(messages: string): (p: string)
    ensures |p| == |ContextHead| + |messages|
    ensures p[..|ContextHead|] == ContextHead
    ensures p[|ContextHead|..] == messages
  {
    ContextHead + messages
  }

  lemma {:induction false} DetailLineAt(labels: seq<string>, values: seq<string>, k: nat)
    requires |labels| == |values| && k < |labels|
    ensures LineOffset(labels, values, k + 1) <= |DetailLines(labels, values)|
    ensures OccursAt(DetailLines(labels, values), LineOffset(labels, values, k), DetailLine(labels[k], values[k]))
    decreases k
  {
    var first := DetailLine(labels[0], values[0]);
    var rest := DetailLines(labels[1..], values[1..]);
    assert DetailLines(labels, values) == first + rest;
    if k == 0 {
      assert (first + rest)[..|first|] == first;
    } else {
      DetailLineAt(labels[1..], values[1..], k - 1);
      OffsetShift(labels, values, k);
      OffsetShift(labels, values, k + 1);
      assert labels[1..][k - 1] == labels[k] && values[1..][k - 1] == values[k];
      OccursAfter(first, rest, LineOffset(labels[1..], values[1..], k - 1), DetailLine(labels[k], values[k]));
    }
  }

  lemma {:induction false} OffsetShift(labels: seq<string>, values: seq<string>, k: nat)
    requires |labels| == |values| && 0 < k <= |labels|
    ensures LineOffset(labels, values, k)
         == |DetailLine(labels[0], values[0])| + LineOffset(labels[1..], values[1..], k - 1)
    decreases k
  {
    if k > 1 {
      OffsetShift(labels, values, k - 1);
    }
  }

  /** A word found in the middle part of a concatenation is found in the whole. */
  lemma OccursInMiddle(a: string, b: string, c: string, i: nat, w: string)
    requires OccursAt(b, i, w)
    ensures OccursAt(a + b + c, |a| + i, w)
  {
    assert (a + b + c)[|a| + i..|a| + i + |w|] == b[i..i + |w|];
  }

  /** Every line of a details block after the first follows a newline. */
  lemma {:induction false} NewlineBeforeLine(labels: seq<string>, values: seq<string>, k: nat)
    requires |labels| == |values| && 0 < k < |labels|
    ensures var o := LineOffset(labels, values, k);
            0 < o <= |DetailLines(labels, values)| && DetailLines(labels, values)[o - 1] == '\n'
  {
    var block := DetailLines(labels, values);
    var prev := DetailLine(labels[k - 1], values[k - 1]);
    var po := LineOffset(labels, values, k - 1);
    DetailLineAt(labels, values, k - 1);
    assert block[po..po + |prev|] == prev;
    assert block[po + |prev| - 1] == prev[|prev| - 1] == '\n';
  }

  /** After a head ending in a newline, every line of a details block starts a
      line of its own and follows the one before it without a gap. */
  lemma DetailLineAfterHead(head: string, labels: seq<string>, values: seq<string>, tail: string, k: nat)
    requires |labels| == |values| && k < |labels|
    requires |head| > 0 && head[|head| - 1] == '\n'
    ensures var p := head + DetailLines(labels, values) + tail;
            var at := |head| + LineOffset(labels, values, k);
            var line := DetailLine(labels[k], values[k]);
            OccursAt(p, at, line) && p[at - 1] == '\n'
            && at + |line| == |head| + LineOffset(labels, values, k + 1)
  {
    var block := DetailLines(labels, values);
    var p := head + block + tail;
    var o := LineOffset(labels, values, k);
    DetailLineAt(labels, values, k);
    OccursInMiddle(head, block, tail, o, DetailLine(labels[k], values[k]));
    if k == 0 {
      assert p[|head| - 1] == head[|head| - 1];
    } else {
      NewlineBeforeLine(labels, values, k);
      assert p[|head| + o - 1] == block[o - 1];
    }
  }

  lemma HeadEndsWithNewline()
    ensures |RelevanceHead| > 0 && RelevanceHead[|RelevanceHead| - 1] == '\n'
  {
    LastOfConcat(RelevanceIntroBefore + RelevanceTag + RelevanceIntroAfter + "\n", "      Details:\n");
  }

  lemma LastOfConcat(a: string, b: string)
    requires |b| > 0
    ensures (a + b)[|a + b| - 1] == b[|b| - 1]
  {
  }

  /** The relevance prompt lists the six details as consecutive lines, in the
      order url, ogTitle, ogDescription, ogType, ogUrl, ogSiteName, each one
      `label: value` with the value as the template literal renders it. */
  lemma RelevancePromptFieldsInOrder(site: Site, k: nat)
    requires k < |RelevanceLabels|
    ensures var p := RelevancePrompt(site);
            var at := |RelevanceHead| + LineOffset(RelevanceLabels, RelevanceValues(site), k);
            var line := DetailLine(RelevanceLabels[k], RelevanceValues(site)[k]);
            OccursAt(p, at, line) && p[at - 1] == '\n'
            && at + |line| == |RelevanceHead| + LineOffset(RelevanceLabels, RelevanceValues(site), k + 1)
  {
    HeadEndsWithNewline();
    DetailLineAfterHead(RelevanceHead, RelevanceLabels, RelevanceValues(site), "      ", k);
  }

  /** The relevance prompt contains the opening tag the reply is searched for. */
  lemma RelevancePromptNamesTag(site: Site)
    ensures OccursAt(RelevancePrompt(site), |RelevanceIntroBefore|, RelevanceTag)
  {
    var rest := RelevanceIntroAfter + "\n" + "      Details:\n"
      + DetailLines(RelevanceLabels, RelevanceValues(site)) + "      ";
    assert RelevancePrompt(site) == RelevanceIntroBefore + RelevanceTag + rest;
    OccursInConcat(RelevanceIntroBefore, RelevanceTag, rest);
  }
}
