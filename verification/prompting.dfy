/** The two prompts sent upstream: a system prompt chosen from the CEFR level
    and task mode tables (with soft fallbacks), and a user prompt that carries
    the text to adapt. */
module Prompting {
  import opened Common

  /** CEFR level -> guidance shown to the model. */
  const LevelDescriptions: map<string, string> := map[
    "A2" := "Basic everyday English. Very simple sentences, familiar words, minimal grammar.",
    "B1" := "Lower-intermediate English. Short, clear sentences with common vocabulary. Avoid idioms or complex clauses.",
    "B2" := "Upper-intermediate English. Use moderate sentence length, mostly common vocabulary, some abstract ideas allowed.",
    "C1" := "Advanced English. Preserve nuance and meaning, but avoid overly academic or rare vocabulary.",
    "C2" := "Near-native English. Maintain stylistic richness and complex structures if natural."
  ]

  /** Task mode -> instruction completing "Your goal is to ...". */
  const Modes: map<string, string> := map[
    "simplify" := "Simplify the text so that a learner at the given CEFR level can easily understand it.",
    "summary" := "Summarize the text in clear, concise English suitable for the given CEFR level.",
    "glossary" := "Extract a glossary of difficult words from the text with short, simple explanations suitable for the given CEFR level."
  ]

  /** The known levels and modes are exactly these. */
  lemma TableDomains()
    ensures LevelDescriptions.Keys == {"A2", "B1", "B2", "C1", "C2"}
    ensures Modes.Keys == {"simplify", "summary", "glossary"}
  {
  }

  /** `MODES.get(mode, MODES["simplify"])`. */
  function ModeInstruction(mode: string): string {
    if mode in Modes then Modes[mode] else Modes["simplify"]
  }

  /** `LEVEL_DESCRIPTIONS.get(level, LEVEL_DESCRIPTIONS["B1"])`. */
  function LevelGuidance(level: string): string {
    if level in LevelDescriptions then LevelDescriptions[level] else LevelDescriptions["B1"]
  }

  const Intro := "You are an expert English language teacher and text simplification assistant."
  const RulesHeading := "Follow these strict rules:"
  const MeaningRule := "3. Preserve the original meaning and key facts."
  const VocabularyRule := "4. Simplify vocabulary and sentence structure according to the level."
  const SlangRule := "5. Avoid slang, idioms, and culture-specific references unless necessary."
  const OutputRule := "6. Output plain text only \U{2014} no explanations, bullet points, or markdown."
  const GuidanceHeading := "Here is the CEFR level guidance:"

  function GoalLine(mode: string): string {
    "Your goal is to " + ModeInstruction(mode) + "."
  }

  function LevelRule(level: string): string {
    "1. Use the CEFR level: " + level + "."
  }

  function AudienceRule(level: string): string {
    "2. Target audience: non-native English learners at " + level + " level."
  }

  /** The lines of the system prompt once the template is dedented and stripped. */
  function SystemPromptLines(level: string, mode: string): seq<string> {
    [ Intro, GoalLine(mode), "", RulesHeading,
      LevelRule(level), AudienceRule(level), MeaningRule, VocabularyRule, SlangRule, OutputRule,
      "", GuidanceHeading, LevelGuidance(level) ]
  }

  /** `build_system_prompt(level, mode)`. */
  function BuildSystemPrompt(level: string, mode: string): string {
    JoinLines(SystemPromptLines(level, mode))
  }

  /** An unknown mode gives the same prompt as `simplify`. */
  lemma UnknownModeIsSimplify(level: string, mode: string)
    requires mode !in Modes
    ensures BuildSystemPrompt(level, mode) == BuildSystemPrompt(level, "simplify")
  {
  }

  /** How thirteen joined lines fall apart around the first five lines and the last two. */
  lemma {:induction false} JoinThirteen(lines: seq<string>)
    requires |lines| == 13
    ensures JoinLines(lines) ==
            lines[0] + "\n" + lines[1] + "\n" + lines[2] + "\n" + lines[3] + "\n" + lines[4] + "\n" +
            JoinLines(lines[5..11]) + "\n" + lines[11] + "\n" + lines[12]
  {
    assert JoinLines(lines) == lines[0] + "\n" + JoinLines(lines[1..]);
    assert lines[1..][1..] == lines[2..];
    assert JoinLines(lines[1..]) == lines[1] + "\n" + JoinLines(lines[2..]);
    assert lines[2..][1..] == lines[3..];
    assert JoinLines(lines[2..]) == lines[2] + "\n" + JoinLines(lines[3..]);
    assert lines[3..][1..] == lines[4..];
    assert JoinLines(lines[3..]) == lines[3] + "\n" + JoinLines(lines[4..]);
    assert lines[4..][1..] == lines[5..];
    assert JoinLines(lines[4..]) == lines[4] + "\n" + JoinLines(lines[5..]);
    assert lines[5..] == lines[5..11] + lines[11..];
    JoinLinesAppend(lines[5..11], lines[11..]);
    assert lines[11..][1..] == [lines[12]];
  }

  lemma Infix(a: string, x: string, b: string)
    ensures (a + x + b)[|a|..|a| + |x|] == x
  {
  }

  lemma Ends(a: string, b: string)
    ensures (a + b)[..|a|] == a && (a + b)[|a|..] == b
  {
  }

  /** Where the first two of thirteen joined lines sit. */
  lemma OpeningLinesAt(lines: seq<string>)
    requires |lines| == 13
    ensures var p := JoinLines(lines);
            var k := |lines[0]| + 1 + |lines[1]|;
            k <= |p| && p[..k] == lines[0] + "\n" + lines[1]
  {
    JoinThirteen(lines);
    var first := lines[0] + "\n" + lines[1];
    var rest := "\n" + lines[2] + "\n" + lines[3] + "\n" + lines[4] + "\n" +
                JoinLines(lines[5..11]) + "\n" + lines[11] + "\n" + lines[12];
    assert JoinLines(lines) == first + rest;
    Ends(first, rest);
  }

  /** Where the fifth of thirteen joined lines sits. */
  lemma FifthLineAt(lines: seq<string>)
    requires |lines| == 13
    ensures var p := JoinLines(lines);
            var k := |lines[0]| + 1 + |lines[1]| + 1 + |lines[2]| + 1 + |lines[3]| + 1;
            k + |lines[4]| <= |p| && p[k..k + |lines[4]|] == lines[4]
  {
    JoinThirteen(lines);
    var head := lines[0] + "\n" + lines[1] + "\n" + lines[2] + "\n" + lines[3] + "\n";
    var rest := "\n" + JoinLines(lines[5..11]) + "\n" + lines[11] + "\n" + lines[12];
    assert JoinLines(lines) == head + lines[4] + rest;
    Infix(head, lines[4], rest);
  }

  /** Where the sixth of thirteen joined lines sits. */
  lemma SixthLineAt(lines: seq<string>)
    requires |lines| == 13
    ensures var p := JoinLines(lines);
            var k := |lines[0]| + 1 + |lines[1]| + 1 + |lines[2]| + 1 + |lines[3]| + 1 + |lines[4]| + 1;
            k + |lines[5]| <= |p| && p[k..k + |lines[5]|] == lines[5]
  {
    JoinThirteen(lines);
    assert lines[5..11][1..] == lines[6..11];
    assert JoinLines(lines[5..11]) == lines[5] + "\n" + JoinLines(lines[6..11]);
    var head := lines[0] + "\n" + lines[1] + "\n" + lines[2] + "\n" + lines[3] + "\n" + lines[4] + "\n";
    var rest := "\n" + JoinLines(lines[6..11]) + "\n" + lines[11] + "\n" + lines[12];
    assert JoinLines(lines) == head + lines[5] + rest;
    Infix(head, lines[5], rest);
  }

  /** Where the last two of thirteen joined lines sit. */
  lemma ClosingLinesAt(lines: seq<string>)
    requires |lines| == 13
    ensures var p := JoinLines(lines);
            var tail := "\n" + lines[11] + "\n" + lines[12];
            |tail| <= |p| && p[|p| - |tail|..] == tail
  {
    JoinThirteen(lines);
    var head := lines[0] + "\n" + lines[1] + "\n" + lines[2] + "\n" + lines[3] + "\n" + lines[4] + "\n" +
                JoinLines(lines[5..11]);
    var tail := "\n" + lines[11] + "\n" + lines[12];
    assert JoinLines(lines) == head + tail;
    Ends(head, tail);
  }

  /** The prompt opens with the introduction and the goal line, which carries the
      mode instruction (the `simplify` one for an unknown mode). */
  lemma SystemPromptGoal(level: string, mode: string)
    ensures var p := BuildSystemPrompt(level, mode);
            var goal := GoalLine(mode);
            |Intro| + 1 + |goal| <= |p| && p[..|Intro| + 1 + |goal|] == Intro + "\n" + goal
  {
    var lines := SystemPromptLines(level, mode);
    OpeningLinesAt(lines);
    assert lines[0] == Intro && lines[1] == GoalLine(mode);
  }

  /** Rule 1 carries the level string exactly as given, also for an unknown level, at
      an offset that depends on the mode only. */
  lemma SystemPromptRuleOne(level: string, mode: string)
    ensures var p := BuildSystemPrompt(level, mode);
            var k := |Intro| + 1 + |GoalLine(mode)| + 1 + 1 + |RulesHeading| + 1;
            var rule1 := LevelRule(level);
            k + |rule1| <= |p| && p[k..k + |rule1|] == rule1
  {
    var lines := SystemPromptLines(level, mode);
    FifthLineAt(lines);
    assert lines[0] == Intro && lines[1] == GoalLine(mode) && lines[2] == "" && lines[3] == RulesHeading;
  }

  /** The sixth line, for lines whose first six are known. */
  lemma SixthLineIs(lines: seq<string>, l0: string, l1: string, l2: string, l3: string, l4: string, l5: string)
    requires |lines| == 13
    requires lines[0] == l0 && lines[1] == l1 && lines[2] == l2 && lines[3] == l3 && lines[4] == l4 && lines[5] == l5
    ensures var p := JoinLines(lines);
            var k := |l0| + 1 + |l1| + 1 + |l2| + 1 + |l3| + 1 + |l4| + 1;
            k + |l5| <= |p| && p[k..k + |l5|] == l5
  {
    SixthLineAt(lines);
  }

  /** Rule 2 also carries the level string exactly as given, right after rule 1. */
  lemma SystemPromptRuleTwo(level: string, mode: string)
    ensures var p := BuildSystemPrompt(level, mode);
            var k := |Intro| + 1 + |GoalLine(mode)| + 1 + 1 + |RulesHeading| + 1 + |LevelRule(level)| + 1;
            var rule2 := AudienceRule(level);
            k + |rule2| <= |p| && p[k..k + |rule2|] == rule2
  {
    SixthLineIs(SystemPromptLines(level, mode), Intro, GoalLine(mode), "", RulesHeading, LevelRule(level), AudienceRule(level));
  }

  /** The prompt ends with the guidance heading and the level's guidance, which is B1's
      guidance for an unknown level. */
  lemma SystemPromptGuidance(level: string, mode: string)
    ensures var p := BuildSystemPrompt(level, mode);
            var tail := "\n" + GuidanceHeading + "\n" + LevelGuidance(level);
            |tail| <= |p| && p[|p| - |tail|..] == tail
  {
    var lines := SystemPromptLines(level, mode);
    ClosingLinesAt(lines);
    assert lines[11] == GuidanceHeading && lines[12] == LevelGuidance(level);
  }

  /** Different known levels get different guidance. */
  lemma KnownLevelsDistinguished(l1: string, l2: string)
    requires l1 in LevelDescriptions && l2 in LevelDescriptions && l1 != l2
    ensures LevelGuidance(l1) != LevelGuidance(l2)
  {
  }

  const UserPromptPrefix: string := "Adapt the following text:\n\n"

  /** `build_user_prompt(text)`. */
  function BuildUserPrompt(text: string): string {
    UserPromptPrefix + text
  }

  /** Recovers the text from a user prompt; None when the prefix is missing. */
  function UserPromptText(prompt: string): Option<string> {
    if |prompt| >= |UserPromptPrefix| && prompt[..|UserPromptPrefix|] == UserPromptPrefix
    then Some(prompt[|UserPromptPrefix|..])
    else None
  }

  /** The text is the suffix after the fixed prefix, so the user prompt is injective. */
  lemma UserPromptRoundTrip(text: string)
    ensures UserPromptText(BuildUserPrompt(text)) == Some(text)
  {
    var p := BuildUserPrompt(text);
    assert p[..|UserPromptPrefix|] == UserPromptPrefix;
    assert p[|UserPromptPrefix|..] == text;
  }

  lemma UserPromptInjective(a: string, b: string)
    requires BuildUserPrompt(a) == BuildUserPrompt(b)
    ensures a == b
  {
    UserPromptRoundTrip(a);
    UserPromptRoundTrip(b);
  }
}
