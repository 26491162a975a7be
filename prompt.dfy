/**
 * Composition of the question handed to the answer component
 * (src/content-script/PageSummary.tsx:68-80, src/content-script/WebSummary.tsx:62-74).
 *
 * `getSummaryPrompt` from the prompt module is not part of this model; it is
 * passed in as a function of the stripped text and the provider name.
 */
module Prompt {
  import opened Markup

  /** The user's summary language: `Language.Auto` or a language given verbatim. */
  datatype LanguageSetting = Auto | Fixed(name: string)

  /** The text before the rendered content. */
  const Label: string := "Content:  "
  /** Between the rendered content and the widget's instruction sentence. */
  const InstructionHead: string := "\n\nInstructions: "
  /** Between the instruction sentence and the language. */
  const LanguageHead: string := "\n\nPlease write in "
  /** After the language: the sentence end, then the template literal's closing line indentation. */
  const Tail: string := " language.\n      "

  /** `userConfig.language === Language.Auto ? navigator.language : userConfig.language`. */
  function Language(setting: LanguageSetting, navigatorLanguage: string): (r: string)
    ensures setting.Auto? ==> r == navigatorLanguage
    ensures setting.Fixed? ==> r == setting.name
  {
    match setting
    case Auto => navigatorLanguage
    case Fixed(name) => name
  }

  /** The language line that closes every prompt. */
  function LanguageLine(language: string): string
  {
    LanguageHead + language + Tail
  }

  /**
   * The question: the label, `getSummaryPrompt` applied to the source text with
   * its tags stripped, the widget's instruction sentence and the language line.
   */
  function Compose(source: string, provider: string, summaryPrompt: (string, string) -> string,
                   instruction: string, language: string): (r: string)
    ensures |r| == |Label| + |summaryPrompt(StripTags(source), provider)| + |InstructionHead| + |instruction| + |LanguageLine(language)|
    ensures r[..|Label|] == Label
    ensures r[|Label|..|Label| + |summaryPrompt(StripTags(source), provider)|] == summaryPrompt(StripTags(source), provider)
    ensures r[|Label| + |summaryPrompt(StripTags(source), provider)|..|r| - |LanguageLine(language)|] == InstructionHead + instruction
    ensures |r| >= |LanguageLine(language)| && r[|r| - |LanguageLine(language)|..] == LanguageLine(language)
  {
    var body := Label + summaryPrompt(StripTags(source), provider) + InstructionHead + instruction;
    assert body + LanguageLine(language) == Label + (summaryPrompt(StripTags(source), provider) + InstructionHead + instruction + LanguageLine(language));
    body + LanguageLine(language)
  }

  /** Two prompts built from the same content and instruction differ whenever the languages differ. */
  lemma {:induction false} ComposeDeterminesLanguage(source: string, provider: string, summaryPrompt: (string, string) -> string,
                                  instruction: string, language1: string, language2: string)
    requires Compose(source, provider, summaryPrompt, instruction, language1)
          == Compose(source, provider, summaryPrompt, instruction, language2)
    ensures language1 == language2
  {
    var body := Label + summaryPrompt(StripTags(source), provider) + InstructionHead + instruction;
    var p1 := body + LanguageLine(language1);
    var p2 := body + LanguageLine(language2);
    assert p1 == p2;
    assert |language1| == |language2|;
    var start := |body| + |LanguageHead|;
    assert p1[start..start + |language1|] == language1;
    assert p2[start..start + |language2|] == language2;
  }

  /** Prompts built with instructions of different lengths differ. */
  lemma ComposeDistinguishesInstructions(source: string, provider: string, summaryPrompt: (string, string) -> string,
                                         instruction1: string, instruction2: string, language: string)
    requires |instruction1| != |instruction2|
    ensures Compose(source, provider, summaryPrompt, instruction1, language)
         != Compose(source, provider, summaryPrompt, instruction2, language)
  {
  }

  /** Feeding text that was already stripped yields the same prompt: the strip inside the prompt is a no-op on it. */
  lemma ComposeOfStripped(source: string, provider: string, summaryPrompt: (string, string) -> string,
                          instruction: string, language: string)
    ensures Compose(StripTags(source), provider, summaryPrompt, instruction, language)
         == Compose(source, provider, summaryPrompt, instruction, language)
  {
    StripTagsIdempotent(source);
  }
}
