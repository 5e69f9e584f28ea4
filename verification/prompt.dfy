/**
 * The verification prompt sent to the model: the paragraph, its numbered
 * links, and one block per gathered source with its credibility tag, fetch
 * error tag and content cut to a fixed budget.
 */
module Prompt {
  import opened Wrappers
  import opened Types
  import opened Text

  /** Content longer than this many characters is cut. */
  const ContentBudget: nat := 2000

  /** Appended after the content when it was cut. */
  const TruncationMarker := "...(truncated)"

  /** Shown in place of an empty fetched content. */
  const NoContent := "(No content available)"

  /** The fixed role sentence that opens the prompt. */
  const Preamble := @"당신은 팩트체크 AI 어시스턴트입니다. 문단의 정확성을 인용된 출처와 비교하여 검증하는 것이 당신의 임무입니다."

  /** The fixed task, criteria and response-format block that closes the prompt. */
  const Instructions := @"---

## 당신의 작업:
1. 문단의 주장을 출처 내용과 비교하기
2. 출처가 문단을 얼마나 잘 뒷받침하는지 평가하기
3. 각 출처의 신뢰도 고려하기 (학술 > 공식 > 뉴스 > 블로그 > 알 수 없음)
4. 신뢰도 수준 결정하기: high, medium, 또는 low

### 신뢰도 기준:
- **HIGH**: 여러 신뢰할 수 있는 출처(학술/공식/뉴스)가 주장을 강력하게 뒷받침함. 모순이 발견되지 않음.
- **MEDIUM**: 일부 출처가 주장을 뒷받침하지만, 증거가 부분적이거나, 출처의 신뢰도가 낮거나(블로그), 사소한 불일치가 있음.
- **LOW**: 출처가 주장을 뒷받침하지 않거나, 출처를 사용할 수 없거나/오류가 있거나, 출처가 주장과 모순되거나, 출처가 없음.

## 응답 형식:
유효한 JSON 객체로만 응답해야 합니다 (마크다운 없이 JSON만):
{
  ""confidence"": ""high"" | ""medium"" | ""low"",
  ""summary_of_sources"": ""출처가 주장을 얼마나 뒷받침하는지 간략히 요약 (한글로)"",
  ""reasoning"": ""이 신뢰도 수준을 부여한 이유를 구체적인 출처를 참조하여 상세히 설명 (한글로)""
}

예시:
{
  ""confidence"": ""high"",
  ""summary_of_sources"": ""2개의 출처 모두 문단을 강력하게 뒷받침합니다. 두 출처 모두 신뢰할 수 있는 공식 문서입니다."",
  ""reasoning"": ""출처 1 (nextjs.org - 공식)은 Turbopack 번들러와 서버 컴포넌트 개선사항을 확인해줍니다. 출처 2 (vercel.com - 공식)는 부분 사전 렌더링에 대한 자세한 정보를 제공합니다. 두 출처 모두 문단의 모든 주장을 직접적으로 뒷받침하는 매우 신뢰할 수 있는 공식 문서입니다.""
}

이제 문단을 분석하고 한글로 JSON 응답을 제공하세요:"

  /** Opens every source block; the source's number follows it. */
  const SourceHeading := "\n### Source "

  /** The credibility tier's name in upper case, in square brackets. */
  function CredibilityTag(c: Credibility): string {
    "[" + ToUpper(c.Name()) + "]"
  }

  /** The tag is the bracketed upper-case tier name, one spelling per tier. */
  lemma CredibilityTags()
    ensures CredibilityTag(Academic) == "[ACADEMIC]"
    ensures CredibilityTag(Official) == "[OFFICIAL]"
    ensures CredibilityTag(News) == "[NEWS]"
    ensures CredibilityTag(Blog) == "[BLOG]"
    ensures CredibilityTag(Unknown) == "[UNKNOWN]"
  {
  }

  /** The fetch-error tag: the message inside an `[ERROR: ...]` bracket, or nothing when there is no message. */
  function ErrorTag(error: Option<string>): (tag: string)
    ensures tag != "" <==> error.Some? && error.value != ""
    ensures tag != "" ==> OccursAt(tag, "[ERROR: ", 0) && EndsWith(tag, "]")
    ensures tag != "" ==> OccursAt(tag, error.value, |"[ERROR: "|)
  {
    if error.Some? && error.value != "" then "[ERROR: " + error.value + "]" else ""
  }

  /** The fetched content, or the placeholder when it is empty or missing. */
  function ShownContent(s: Source): (c: string)
    ensures c != ""
    ensures s.content != "" ==> c == s.content
    ensures s.content == "" ==> c == NoContent
  {
    if s.content != "" then s.content else NoContent
  }

  /** The content line of a source block: at most the budget, then the marker if anything was cut. */
  function ContentLine(content: string): string {
    var cut := if |content| > ContentBudget then ContentBudget else |content|;
    content[..cut] + " " + (if |content| > ContentBudget then TruncationMarker else "")
  }

  /**
   * Content within the budget is shown whole; longer content shows exactly
   * its first 2000 characters; the line ends with the marker exactly when
   * the content was longer than the budget.
   */
  lemma ContentLineTruncates(content: string)
    ensures |content| <= ContentBudget ==> ContentLine(content) == content + " "
    ensures |content| > ContentBudget ==>
      && ContentLine(content)[..ContentBudget] == content[..ContentBudget]
      && |ContentLine(content)| == ContentBudget + 1 + |TruncationMarker|
    ensures EndsWith(ContentLine(content), TruncationMarker) <==> |content| > ContentBudget
  {
    var line := ContentLine(content);
    if |content| <= ContentBudget {
      assert line[|line| - 1] == ' ';
    } else {
      assert line[|line| - |TruncationMarker|..] == TruncationMarker;
    }
  }

  /** Everything of a source block after its number, up to the content line. */
  function SourceDetails(s: Source): string {
    ": " + s.url + " " + CredibilityTag(s.credibility) + " " + ErrorTag(s.error)
    + "\n**Title:** " + s.title + "\n**Credibility:** " + s.credibility.Name() + "\n**Content:**\n"
  }

  /** The block for the source numbered `number` (1-based). */
  function SourceBlock(number: nat, s: Source): string {
    SourceHeading + NatToString(number) + SourceDetails(s) + (ContentLine(ShownContent(s)) + "\n")
  }

  /**
   * A block can be read back: its number follows the heading and is closed
   * by a colon, and it ends with the (possibly cut) content line.
   */
  lemma SourceBlockReadsBack(number: nat, s: Source)
    ensures var block := SourceBlock(number, s);
            var digits := NatToString(number);
            && OccursAt(block, SourceHeading, 0)
            && block[|SourceHeading| + |digits|] == ':'
            && ParseNat(block[|SourceHeading|..|SourceHeading| + |digits|]) == number
            && EndsWith(block, ContentLine(ShownContent(s)) + "\n")
  {
    var digits := NatToString(number);
    var details := SourceDetails(s);
    assert details[0] == ':';
    FourPieces(SourceHeading, digits, details, ContentLine(ShownContent(s)) + "\n");
    ParseNatInvertsNatToString(number);
  }

  /** Where the credibility tag starts in a source's details: after the colon, the URL and a space. */
  function CredibilityTagStart(s: Source): nat {
    |": "| + |s.url| + |" "|
  }

  /** Where the fetch-error tag starts in a source's details: after the credibility tag and a space. */
  function ErrorTagStart(s: Source): nat {
    CredibilityTagStart(s) + |CredibilityTag(s.credibility)| + |" "|
  }

  /** The details after a source's number carry its URL right after the colon. */
  lemma SourceDetailsCarryUrl(s: Source)
    ensures OccursAt(SourceDetails(s), s.url, |": "|)
  {
    var url := s.url;
    var p0 := ": " + url;
    var p1 := p0 + " ";
    var p2 := p1 + CredibilityTag(s.credibility);
    var p3 := p2 + " ";
    var p4 := p3 + ErrorTag(s.error);
    var p5 := p4 + "\n**Title:** ";
    var p6 := p5 + s.title;
    var p7 := p6 + "\n**Credibility:** ";
    var p8 := p7 + s.credibility.Name();
    assert OccursAt(url, url, 0);
    OccursAfter(": ", url, url, 0);
    OccursBefore(p0, " ", url, 2);
    OccursBefore(p1, CredibilityTag(s.credibility), url, 2);
    OccursBefore(p2, " ", url, 2);
    OccursBefore(p3, ErrorTag(s.error), url, 2);
    OccursBefore(p4, "\n**Title:** ", url, 2);
    OccursBefore(p5, s.title, url, 2);
    OccursBefore(p6, "\n**Credibility:** ", url, 2);
    OccursBefore(p7, s.credibility.Name(), url, 2);
    OccursBefore(p8, "\n**Content:**\n", url, 2);
  }

  /** The details carry the credibility tag after the URL and a space. */
  lemma SourceDetailsCarryCredibilityTag(s: Source)
    ensures OccursAt(SourceDetails(s), CredibilityTag(s.credibility), CredibilityTagStart(s))
  {
    var tag := CredibilityTag(s.credibility);
    var p1 := ": " + s.url + " ";
    var p2 := p1 + tag;
    var p3 := p2 + " ";
    var p4 := p3 + ErrorTag(s.error);
    var p5 := p4 + "\n**Title:** ";
    var p6 := p5 + s.title;
    var p7 := p6 + "\n**Credibility:** ";
    var p8 := p7 + s.credibility.Name();
    var at := CredibilityTagStart(s);
    assert OccursAt(tag, tag, 0);
    OccursAfter(p1, tag, tag, 0);
    OccursBefore(p2, " ", tag, at);
    OccursBefore(p3, ErrorTag(s.error), tag, at);
    OccursBefore(p4, "\n**Title:** ", tag, at);
    OccursBefore(p5, s.title, tag, at);
    OccursBefore(p6, "\n**Credibility:** ", tag, at);
    OccursBefore(p7, s.credibility.Name(), tag, at);
    OccursBefore(p8, "\n**Content:**\n", tag, at);
  }

  /** The details carry the error tag after the credibility tag and a space. */
  lemma SourceDetailsCarryErrorTag(s: Source)
    ensures OccursAt(SourceDetails(s), ErrorTag(s.error), ErrorTagStart(s))
  {
    var etag := ErrorTag(s.error);
    var p3 := ": " + s.url + " " + CredibilityTag(s.credibility) + " ";
    var p4 := p3 + etag;
    var p5 := p4 + "\n**Title:** ";
    var p6 := p5 + s.title;
    var p7 := p6 + "\n**Credibility:** ";
    var p8 := p7 + s.credibility.Name();
    var at := ErrorTagStart(s);
    assert OccursAt(etag, etag, 0);
    OccursAfter(p3, etag, etag, 0);
    OccursBefore(p4, "\n**Title:** ", etag, at);
    OccursBefore(p5, s.title, etag, at);
    OccursBefore(p6, "\n**Credibility:** ", etag, at);
    OccursBefore(p7, s.credibility.Name(), etag, at);
    OccursBefore(p8, "\n**Content:**\n", etag, at);
  }

  /**
   * A source block carries the source's URL, credibility tag and error tag
   * at fixed places after its heading and number.
   */
  lemma SourceBlockCarriesTags(number: nat, s: Source)
    ensures var start := |SourceHeading| + |NatToString(number)|;
            && OccursAt(SourceBlock(number, s), s.url, start + |": "|)
            && OccursAt(SourceBlock(number, s), CredibilityTag(s.credibility), start + CredibilityTagStart(s))
            && OccursAt(SourceBlock(number, s), ErrorTag(s.error), start + ErrorTagStart(s))
  {
    var head := SourceHeading + NatToString(number);
    var tail := ContentLine(ShownContent(s)) + "\n";
    SourceDetailsCarryUrl(s);
    SourceDetailsCarryCredibilityTag(s);
    SourceDetailsCarryErrorTag(s);
    OccursInside(head, SourceDetails(s), tail, s.url, |": "|);
    OccursInside(head, SourceDetails(s), tail, CredibilityTag(s.credibility), CredibilityTagStart(s));
    OccursInside(head, SourceDetails(s), tail, ErrorTag(s.error), ErrorTagStart(s));
  }

  /** One block per source, numbered 1..n in input order. */
  function SourceBlocks(sources: seq<Source>): (blocks: seq<string>)
    ensures |blocks| == |sources|
  {
    seq(|sources|, i requires 0 <= i < |sources| => SourceBlock(i + 1, sources[i]))
  }

  /** The `i`-th block is the one for the `i`-th source, numbered `i + 1`. */
  lemma SourceBlockNumbered(sources: seq<Source>, i: nat)
    requires i < |sources|
    ensures SourceBlocks(sources)[i] == SourceBlock(i + 1, sources[i])
  {
  }

  /** The sources section: the blocks joined by newlines. */
  function SourcesText(sources: seq<Source>): string {
    Join(SourceBlocks(sources), "\n")
  }

  /** One line per cited link: its 1-based number, a dot and a space, then the link. */
  function LinkLines(links: seq<string>): (lines: seq<string>)
    ensures |lines| == |links|
  {
    seq(|links|, i requires 0 <= i < |links| => NatToString(i + 1) + ". " + links[i])
  }

  /** The `i`-th line is numbered `i + 1` and carries the `i`-th link. */
  lemma LinkLineNumbered(links: seq<string>, i: nat)
    requires i < |links|
    ensures LinkLines(links)[i] == NatToString(i + 1) + ". " + links[i]
  {
  }

  const ParagraphHeading := "\n\n## 검증할 문단:\n\""
  const LinksHeading := "\"\n\n## 인용된 링크:\n"
  const SourcesHeading := "\n\n## 크롤링된 출처 내용:\n"
  const InstructionsHeading := "\n\n"

  /**
   * The fixed wording around the variable parts of the prompt. The proofs
   * below hold for any wording, so they never look inside the long texts.
   */
  datatype Wording = Wording(preamble: string, instructions: string)

  /** The wording the verifier sends. */
  function FixedWording(): Wording {
    Wording(Preamble, Instructions)
  }

  /** The prompt up to and including the links heading. */
  function PromptHead(w: Wording, input: Input): string {
    w.preamble + ParagraphHeading + input.paragraphText + LinksHeading
  }

  /** The links section: the numbered link lines joined by newlines. */
  function LinksText(links: seq<string>): string {
    Join(LinkLines(links), "\n")
  }

  /** The prompt up to and including the sources heading. */
  function PromptFront(w: Wording, input: Input): string {
    PromptHead(w, input) + LinksText(input.paragraphLinks) + SourcesHeading
  }

  /** The prompt template filled in with `input`. */
  function PromptWith(w: Wording, input: Input): string {
    PromptFront(w, input) + SourcesText(input.sources) + (InstructionsHeading + w.instructions)
  }

  /** `createVerificationPrompt`. */
  function CreateVerificationPrompt(input: Input): string {
    PromptWith(FixedWording(), input)
  }

  /** Where the `i`-th link line starts in the prompt. */
  function LinkStart(w: Wording, input: Input, i: nat): nat
    requires i <= |input.paragraphLinks|
  {
    |PromptHead(w, input)| + JoinOffset(LinkLines(input.paragraphLinks), "\n", i)
  }

  /** Where the block of the `i`-th source starts in the prompt. */
  function SourceStart(w: Wording, input: Input, i: nat): nat
    requires i <= |input.sources|
  {
    |PromptFront(w, input)| + JoinOffset(SourceBlocks(input.sources), "\n", i)
  }

  /** The prompt quotes the paragraph text verbatim, right after the preamble and its heading. */
  lemma PromptQuotesParagraph(w: Wording, input: Input)
    ensures OccursAt(PromptWith(w, input), input.paragraphText, |w.preamble| + |ParagraphHeading|)
  {
    var front := w.preamble + ParagraphHeading;
    var p := input.paragraphText;
    assert OccursAt(p, p, 0);
    OccursAfter(front, p, p, 0);
    OccursBefore(front + p, LinksHeading, p, |front|);
    OccursBefore(PromptHead(w, input), LinksText(input.paragraphLinks), p, |front|);
    OccursBefore(PromptHead(w, input) + LinksText(input.paragraphLinks), SourcesHeading, p, |front|);
    OccursBefore(PromptFront(w, input), SourcesText(input.sources), p, |front|);
    OccursBefore(PromptFront(w, input) + SourcesText(input.sources), InstructionsHeading + w.instructions, p, |front|);
  }

  /** The `i`-th link line sits in the prompt at its start. */
  lemma PromptPlacesLink(w: Wording, input: Input, i: nat)
    requires i < |input.paragraphLinks|
    ensures OccursAt(PromptWith(w, input), LinkLines(input.paragraphLinks)[i], LinkStart(w, input, i))
  {
    var lines := LinkLines(input.paragraphLinks);
    var at := LinkStart(w, input, i);
    var front := PromptFront(w, input);
    JoinPlacedInContext(PromptHead(w, input), lines, "\n", SourcesHeading, i);
    OccursBefore(front, SourcesText(input.sources), lines[i], at);
    OccursBefore(front + SourcesText(input.sources), InstructionsHeading + w.instructions, lines[i], at);
  }

  /** The `i`-th link appears as line `i + 1`, and later links appear later. */
  lemma PromptNumbersLinks(w: Wording, input: Input, i: nat, j: nat)
    requires i < j < |input.paragraphLinks|
    ensures OccursAt(PromptWith(w, input), LinkLines(input.paragraphLinks)[i], LinkStart(w, input, i))
    ensures LinkStart(w, input, i) < LinkStart(w, input, j)
  {
    PromptPlacesLink(w, input, i);
    JoinKeepsOrder(LinkLines(input.paragraphLinks), "\n", i, j);
  }

  /**
   * Every source's block appears in the prompt, and blocks appear in input
   * order: block `i` is the one numbered `i + 1`.
   */
  lemma PromptNumbersSources(w: Wording, input: Input, i: nat, j: nat)
    requires i < j < |input.sources|
    ensures OccursAt(PromptWith(w, input), SourceBlocks(input.sources)[i], SourceStart(w, input, i))
    ensures SourceStart(w, input, i) < SourceStart(w, input, j)
  {
    PromptPlacesSource(w, input, i);
    JoinKeepsOrder(SourceBlocks(input.sources), "\n", i, j);
  }

  /** The block of the `i`-th source, the last one included, sits in the prompt at its start. */
  lemma PromptPlacesSource(w: Wording, input: Input, i: nat)
    requires i < |input.sources|
    ensures OccursAt(PromptWith(w, input), SourceBlocks(input.sources)[i], SourceStart(w, input, i))
  {
    var blocks := SourceBlocks(input.sources);
    assert SourcesText(input.sources) == Join(blocks, "\n");
    JoinPlacedInContext(PromptFront(w, input), blocks, "\n", InstructionsHeading + w.instructions, i);
  }
}
