/**
 The pure text functions of the backend: the per-category prompt builder
 `build_prompt` (backend.py:103-292), the truncation heuristic `is_truncated`
 (backend.py:312-314), the business banner formatter `format_business_output`
 (backend.py:319-396) and the continuation prompt (backend.py:407-412).

 The long instructional scaffolds around the user text are data, not logic:
 each template is modelled as a constant prefix and suffix, with the opening
 words kept and the numbered instruction lists shortened.
 */
module Templates {
  import opened Wrappers
  import opened Text
  import opened Tasks

  /**
   The scaffold text placed before the user input in a category's prompt. The
   long literals here are written as concatenated pieces, which keeps the
   verifier's reasoning about their lengths cheap.
   */
  function PromptPrefix(t: TaskCategory): string {
    match t
    case BusinessStrategy => "As a senior business " + "consultant, analyze " + "this business scenario:\n\n"
    case PitchDeck => "Create an investor-ready " + "pitch deck for:\n\n"
    case MarketAnalysis => "Conduct a professional " + "market analysis for:\n\n"
    case FinancialModel => "Create financial projections " + "for:\n\n"
    case BusinessPlan => "Develop a comprehensive " + "business plan for:\n\n"
    case Idea => "Generate innovative, " + "FUNDABLE business ideas " + "for:\n\n"
    case Guide => "Act as a Y Combinator-style " + "mentor providing actionable " + "guidance for:\n\n"
    case Code => "You are a CTO/tech lead " + "at a startup. Write " + "production-ready, scalable " + "code.\n\nBusiness Requirement: "
    case Ppt => "Create an INVESTOR-READY " + "PowerPoint presentation " + "with these strict guidelines:\n" + "...\n\nTopic: "
    case Flowchart => "Design a SYSTEM ARCHITECTURE " + "diagram for a scalable " + "business solution:\n\n" + "System Requirements: "
    case Platform => "Recommend DEPLOYMENT " + "PLATFORMS for a BUSINESS " + "APPLICATION:\n\nApplication " + "Details: "
    case Assistant => "You are I2P Business " + "AI, an expert business " + "consultant and technical " + "advisor. Provide comprehensive, " + "actionable business " + "advice.\n\nUser Query: "
  }

  /** The scaffold text placed after the user input (empty for the slide deck, which ends with the topic). */
  function PromptSuffix(t: TaskCategory): string {
    match t
    case BusinessStrategy => "\n\nProvide a comprehensive " + "business strategy including:\n" + "..."
    case PitchDeck => "\n\nStructure it as a " + "10-slide pitch deck:\n" + "..."
    case MarketAnalysis => "\n\nInclude:\n..."
    case FinancialModel => "\n\nProvide:\n..."
    case BusinessPlan => "\n\nStructure:\n..."
    case Idea => "\n\nFor each idea, provide:\n" + "..."
    case Guide => "\n\nProvide step-by-step " + "mentorship:\n..."
    case Code => "\n\nProvide:\n..."
    case Ppt => ""
    case Flowchart => "\n\nProvide:\n..."
    case Platform => "\n\nFor EACH platform " + "recommendation, provide:\n" + "..."
    case Assistant => "\n\nStructure your response " + "with:\n..."
  }

  /** The prompt of a category: its scaffold around the user text. */
  function PromptFor(t: TaskCategory, userInput: string): (r: string)
    ensures IsSubstring(userInput, r) && |r| > |userInput|
  {
    PromptPrefixNonEmpty(t);
    SubstringOfConcat(PromptPrefix(t), userInput, PromptSuffix(t));
    PromptPrefix(t) + userInput + PromptSuffix(t)
  }

  /** Every scaffold starts with some text before the user input. */
  lemma PromptPrefixNonEmpty(t: TaskCategory)
    ensures PromptPrefix(t) != []
  {
    match t
    case BusinessStrategy =>
    case PitchDeck =>
    case MarketAnalysis =>
    case FinancialModel =>
    case BusinessPlan =>
    case Idea =>
    case Guide =>
    case Code =>
    case Ppt =>
    case Flowchart =>
    case Platform =>
    case Assistant =>
  }

  /**
   `build_prompt(task, user_input)`: for one of the twelve labels the user text
   is embedded verbatim in that category's scaffold, and the prompt is longer
   than the text; any other label returns the text unchanged.
   */
  function BuildPrompt(task: string, userInput: string): (r: string)
    ensures ParseLabel(task).None? ==> r == userInput
    ensures ParseLabel(task).Some? ==> IsSubstring(userInput, r) && |r| > |userInput|
  {
    match ParseLabel(task)
    case None => userInput
    case Some(t) => PromptFor(t, userInput)
  }

  /** The user text recovered from a category's prompt by removing its scaffold. */
  function PromptBody(t: TaskCategory, prompt: string): (u: string)
    requires |PromptPrefix(t)| + |PromptSuffix(t)| <= |prompt|
    ensures |u| == |prompt| - |PromptPrefix(t)| - |PromptSuffix(t)|
  {
    prompt[|PromptPrefix(t)|..|prompt| - |PromptSuffix(t)|]
  }

  /** The user text can be read back out of the prompt built for it: nothing is escaped or cut. */
  lemma PromptRoundTrip(t: TaskCategory, userInput: string)
    ensures var p := BuildPrompt(Label(t), userInput);
      |PromptPrefix(t)| + |PromptSuffix(t)| <= |p| && PromptBody(t, p) == userInput
  {
    LabelRoundTrip(t);
    var p := BuildPrompt(Label(t), userInput);
    SliceOfConcat(PromptPrefix(t), userInput, PromptSuffix(t));
  }

  /** Distinct user texts give distinct prompts for the same category. */
  lemma BuildPromptInjective(t: TaskCategory, u1: string, u2: string)
    ensures BuildPrompt(Label(t), u1) == BuildPrompt(Label(t), u2) ==> u1 == u2
  {
    PromptRoundTrip(t, u1);
    PromptRoundTrip(t, u2);
  }

  /** The endings `is_truncated` accepts as a finished answer. */
  const TerminalMarks: seq<string> := [".", "!", "?", "```", "}", "]"]

  /** `is_truncated`: the stripped text does not end with any terminal mark. */
  predicate IsTruncated(text: string) {
    !(exists m :: m in TerminalMarks && EndsWith(Strip(text), m))
  }

  /**
   A text counts as complete exactly when its stripped form is non-empty and
   ends in `.`, `!`, `?`, `}` or `]`, or ends with a triple backtick; a lone
   trailing backtick is not enough.
   */
  lemma IsTruncatedByLastChar(text: string)
    ensures var s := Strip(text);
      !IsTruncated(text) <==>
        s != [] && (s[|s| - 1] in {'.', '!', '?', '}', ']'} || EndsWith(s, "```"))
  {
    var s := Strip(text);
    if s != [] && s[|s| - 1] in {'.', '!', '?', '}', ']'} {
      var m := [s[|s| - 1]];
      assert s[|s| - 1..] == m;
      assert m in TerminalMarks;
    }
    if s != [] && EndsWith(s, "```") {
      assert "```" in TerminalMarks;
    }
  }

  /** Trailing whitespace never changes the verdict, and blank text counts as truncated. */
  lemma IsTruncatedIgnoresTrailingSpace(text: string, w: string)
    requires AllSpace(w)
    ensures IsTruncated(text + w) == IsTruncated(text)
    ensures AllSpace(text) ==> IsTruncated(text)
  {
    StripIgnoresTrailingSpace(text, w);
    StripSpec(text);
  }

  /** The five categories whose output is wrapped in a business banner. */
  predicate HasBanner(t: TaskCategory) {
    t in {PitchDeck, FinancialModel, BusinessPlan, BusinessStrategy, MarketAnalysis}
  }

  /** The heavy horizontal rule framing each banner. */
  const Rule: string := "━━━━━━━━━━━━━━━━━━━━━━━━━━━━━━"

  /** The banner heading placed before the model output. */
  function BannerHead(t: TaskCategory): string
    requires HasBanner(t)
  {
    match t
    case PitchDeck => "\n\U{1F3AF} INVESTOR PITCH DECK " + "TEMPLATE\n" + Rule + "\n\n"
    case FinancialModel => "\n\U{1F4B0} FINANCIAL MODEL SUMMARY\n" + Rule + "\n\n"
    case BusinessPlan => "\n\U{1F4CB} BUSINESS PLAN OUTLINE\n" + Rule + "\n\n"
    case BusinessStrategy => "\n\U{1F3AF} BUSINESS STRATEGY " + "DOCUMENT\n" + Rule + "\n\n"
    case MarketAnalysis => "\n\U{1F4CA} MARKET ANALYSIS REPORT\n" + Rule + "\n\n"
  }

  /** The advisory block placed after the model output. */
  function BannerTail(t: TaskCategory): string
    requires HasBanner(t)
  {
    match t
    case PitchDeck => "\n\n" + Rule + "\n\U{1F4A1} Pro Tip: Add actual " + "metrics, customer testimonials, " + "and team bios.\n...\n"
    case FinancialModel => "\n\n" + Rule + "\n\U{1F4C8} Next Steps:\n...\n"
    case BusinessPlan => "\n\n" + Rule + "\n✅ Checklist:\n...\n"
    case BusinessStrategy => "\n\n" + Rule + "\n\U{1F680} Implementation Priority:\n" + "...\n"
    case MarketAnalysis => "\n\n" + Rule + "\n\U{1F50D} Research Next Steps:\n" + "...\n"
  }

  /**
   The banner of a category applied to a model output: the five banner
   categories wrap the text verbatim between a heading and an advisory block,
   the others leave it as it is.
   */
  function FormatFor(t: TaskCategory, rawOutput: string): (r: string)
    ensures HasBanner(t) ==> IsSubstring(rawOutput, r) && |r| > |rawOutput|
    ensures !HasBanner(t) ==> r == rawOutput
  {
    if HasBanner(t) then
      SubstringOfConcat(BannerHead(t), rawOutput, BannerTail(t));
      BannerHead(t) + rawOutput + BannerTail(t)
    else rawOutput
  }

  /**
   `format_business_output(task, raw_output)`: the five banner labels wrap
   the raw text verbatim; every other label, known or not, passes the text
   through unchanged.
   */
  function FormatBusinessOutput(task: string, rawOutput: string): (r: string)
    ensures (ParseLabel(task).Some? && HasBanner(ParseLabel(task).value)) ==>
              IsSubstring(rawOutput, r) && |r| > |rawOutput|
    ensures !(ParseLabel(task).Some? && HasBanner(ParseLabel(task).value)) ==> r == rawOutput
  {
    match ParseLabel(task)
    case Some(t) => FormatFor(t, rawOutput)
    case None => rawOutput
  }

  /** Prompt building and formatting for a category's own label use that category's templates. */
  lemma TemplatesOfLabel(t: TaskCategory, text: string)
    ensures BuildPrompt(Label(t), text) == PromptFor(t, text)
    ensures FormatBusinessOutput(Label(t), text) == FormatFor(t, text)
  {
    LabelRoundTrip(t);
  }

  /** The raw text can be read back out of a bannered output. */
  lemma FormatRoundTrip(t: TaskCategory, rawOutput: string)
    requires HasBanner(t)
    ensures var f := FormatBusinessOutput(Label(t), rawOutput);
      |BannerHead(t)| + |BannerTail(t)| <= |f|
      && f[|BannerHead(t)|..|f| - |BannerTail(t)|] == rawOutput
  {
    LabelRoundTrip(t);
    SliceOfConcat(BannerHead(t), rawOutput, BannerTail(t));
  }

  /** The fixed instruction that closes every continuation prompt. */
  const ContinueInstruction: string :=
    "CRITICAL FOR BUSINESS: Continue EXACTLY from where this stopped. Do NOT repeat. Add more actionable details, data points, or implementation steps."

  /**
   The continuation prompt: the original prompt and everything generated so
   far, both verbatim and in that order, followed by the instruction to carry on.
   */
  function ContinuationPrompt(lastPrompt: string, lastOutput: string): (r: string)
    ensures IsSubstring(lastPrompt, r) && IsSubstring(lastOutput, r)
    ensures EndsWith(r, ContinueInstruction)
  {
    var head := "Original Business Task: ";
    var middle := "\n\nText generated so far: ";
    var tail := "\n\n" + ContinueInstruction;
    TwoSlotLayout(head, lastPrompt, middle, lastOutput, "\n\n", ContinueInstruction);
    head + lastPrompt + middle + lastOutput + tail
  }
}
