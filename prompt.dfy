/**
 * The prompt sent to the model: a fixed template with two holes, the source
 * markup of the icon and the user's modification request.
 */
module Prompt {
  import opened Wrappers

  /** The opening line and the blank line after it. */
  const Intro: string :=
    "\nYou are an expert SVG artist. I want you to create a modified version of the following SVG emoji:\n"

  /** The line break before the markup fence and the fence line "```svg". */
  const OpenFence: string := "\n```svg\n"

  /** The line break after the markup and the closing fence line "```". */
  const CloseFence: string := "\n```\n"

  /** A blank line and the request label. */
  const Label: string := "\nModification request: "

  /** The fixed instructions after the description's line. */
  const Instructions: string :=
    "\nPlease create a new SVG emoji based on the original one, but modified according to the request.\n"
    + "The SVG should:\n"
    + "1. Be simple and clean\n"
    + "2. Maintain the same general style as the original\n"
    + "3. Have the same viewBox, width, and height attributes\n"
    + "4. Only include the SVG code, no explanations or markdown\n"
    + "\n"
    + "Return ONLY the SVG code, nothing else.\n"

  /** Everything before the markup, between markup and description, and after
      the description. */
  const Head: string := Intro + OpenFence
  const Middle: string := CloseFence + Label
  const Tail: string := "\n" + Instructions

  /** A template with constant parts `head`, `middle`, `tail` filled in. */
  function Fill(head: string, middle: string, tail: string, source: string, description: string): string
  {
    head + source + middle + description + tail
  }

  /** The holes of `Fill(head, middle, tail, ...)` read back from `p`, given
      the length of the first; `None` when `p` does not have that shape. */
  function Unfill(head: string, middle: string, tail: string, p: string, sourceLength: nat)
    : (r: Option<(string, string)>)
    ensures r.Some? ==> |r.value.0| == sourceLength
  {
    var h, m, t := |head|, |middle|, |tail|;
    if h + sourceLength + m + t <= |p|
      && p[..h] == head
      && p[h + sourceLength..h + sourceLength + m] == middle
      && p[|p| - t..] == tail
    then Some((p[h..h + sourceLength], p[h + sourceLength + m..|p| - t]))
    else None
  }

  lemma UnfillFill(head: string, middle: string, tail: string, source: string, description: string)
    ensures Unfill(head, middle, tail, Fill(head, middle, tail, source, description), |source|)
      == Some((source, description))
  {
    var p := Fill(head, middle, tail, source, description);
    var h, n, m, t := |head|, |source|, |middle|, |tail|;
    assert p[..h] == head;
    assert p[h..h + n] == source;
    assert p[h + n..h + n + m] == middle;
    assert p[h + n + m..|p| - t] == description;
    assert p[|p| - t..] == tail;
  }

  lemma FillUnfill(head: string, middle: string, tail: string, p: string, sourceLength: nat)
    requires Unfill(head, middle, tail, p, sourceLength).Some?
    ensures Fill(head, middle, tail,
                 Unfill(head, middle, tail, p, sourceLength).value.0,
                 Unfill(head, middle, tail, p, sourceLength).value.1) == p
  {
    var h, n, m, t := |head|, sourceLength, |middle|, |tail|;
    assert p == p[..h] + p[h..h + n] + p[h + n..h + n + m] + p[h + n + m..|p| - t] + p[|p| - t..];
  }

  /** The template filled in: the prompt of route.ts. */
  function BuildPrompt(source: string, description: string): string
  {
    Fill(Head, Middle, Tail, source, description)
  }

  /** Reads markup and description back out of a prompt whose markup has
      `sourceLength` characters. */
  function ParsePrompt(p: string, sourceLength: nat): Option<(string, string)>
  {
    Unfill(Head, Middle, Tail, p, sourceLength)
  }

  /** `x` occurs in `p`. */
  ghost predicate Contains(p: string, x: string)
  {
    exists i, j :: 0 <= i <= j <= |p| && p[i..j] == x
  }

  lemma ContainsInfix(a: string, x: string, b: string)
    ensures Contains(a + x + b, x)
  {
    var p := a + x + b;
    assert p[|a|..|a| + |x|] == x;
  }

  /** Parsing a built prompt gives back the markup and the description. */
  lemma ParseBuild(source: string, description: string)
    ensures ParsePrompt(BuildPrompt(source, description), |source|) == Some((source, description))
  {
    UnfillFill(Head, Middle, Tail, source, description);
  }

  /** Whatever parses is the template filled with what was parsed: a prompt
      holds no text but the constant parts and the two holes. */
  lemma BuildParse(p: string, sourceLength: nat)
    requires ParsePrompt(p, sourceLength).Some?
    ensures BuildPrompt(ParsePrompt(p, sourceLength).value.0, ParsePrompt(p, sourceLength).value.1) == p
  {
    FillUnfill(Head, Middle, Tail, p, sourceLength);
  }

  /** Two prompts with markup of the same length are equal only when markup
      and description are. */
  lemma PromptInjective(s1: string, d1: string, s2: string, d2: string)
    requires |s1| == |s2|
    requires BuildPrompt(s1, d1) == BuildPrompt(s2, d2)
    ensures s1 == s2 && d1 == d2
  {
    ParseBuild(s1, d1);
    ParseBuild(s2, d2);
  }

  /** The two groupings of a filled template used below. */
  lemma FillGroupings(intro: string, fence: string, unfence: string, request: string, rest: string,
                      source: string, description: string)
    ensures Fill(intro + fence, unfence + request, "\n" + rest, source, description)
      == intro + (fence + source + unfence) + (request + description + "\n" + rest)
    ensures Fill(intro + fence, unfence + request, "\n" + rest, source, description)
      == (intro + fence + source + unfence) + (request + description + "\n") + rest
  {
  }

  /** The markup stands unchanged between a "```svg" line and a "```" line,
      and the description unchanged on the line "Modification request: ...". */
  lemma PromptEmbedsVerbatim(source: string, description: string)
    ensures Contains(BuildPrompt(source, description), OpenFence + source + CloseFence)
    ensures Contains(BuildPrompt(source, description), Label + description + "\n")
  {
    FillGroupings(Intro, OpenFence, CloseFence, Label, Instructions, source, description);
    ContainsInfix(Intro, OpenFence + source + CloseFence, Label + description + "\n" + Instructions);
    ContainsInfix(Intro + OpenFence + source + CloseFence, Label + description + "\n", Instructions);
  }
}
