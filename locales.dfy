/**
 * The prompt builder of i18n/locales.ts: the image-prompt rules block with its
 * optional character and translation clauses, the four prompt templates, and
 * the per-language template and schema-description lookups.
 *
 * The long fixed prose between interpolations is the record `Wording`; every
 * builder takes it as its first argument and `SourceWording` holds the
 * repository's text character for character. Short fixed pieces (headings,
 * the quality suffix, the `**` and quote delimiters) are constants or
 * literals in the builders, so properties about them hold for any wording.
 */
module Locales {
  import opened Strings

  /** The values a template interpolates. `duration` and `targetWordCount` are whole numbers here. */
  datatype PromptTemplateArgs = PromptTemplateArgs(
    duration: int,
    themeName: string,
    targetWordCount: int,
    imageStylePrompt: string,
    aspectRatioValue: string,
    characterDefinitions: string,
    translationLanguage: string,
    scriptText: string)

  /** The long fixed prose of the rules block and the templates, between interpolations. */
  datatype Wording = Wording(
    rulesIntro: string,
    styleNote: string,
    characterIntro: string,
    translationIntro: string,
    translationMid: string,
    translationOutro: string,
    ratioIntro: string,
    ratioOutro: string,
    enSplitterIntro: string,
    enSplitterSeconds: string,
    enSplitterTheme: string,
    enSplitterWords: string,
    viSplitterIntro: string,
    viSplitterSeconds: string,
    viSplitterTheme: string,
    viSplitterWords: string,
    enPrompterIntro: string,
    enPrompterTheme: string,
    viPrompterIntro: string,
    viPrompterTheme: string)

  /** The wording of the templates in i18n/locales.ts:659-738. */
  const SourceWording: Wording := Wording(
    // rulesIntro: rules 1 and 2 up to the style
    "\n" +
    "You must create each 'imagePrompt' like " + "an expert prompt engineer. Strictly " +
    "adhere to the following rules:\n" +
    "\n" +
    "1.  **THE GOLDEN FORMULA:** Each prompt " + "must be constructed in ENGLISH using " +
    "the following structure:\n" +
    "    **[Medium & Style] of [Subject] + " + "[Action/Pose] + in " +
    "[Setting/Environment] + with [Lighting] " + "+ [Color] + [Camera & Composition] + " +
    "[Details, Quality & Parameters]**\n" +
    "\n" +
    "2.  **DETAILED COMPONENT GUIDE:**\n" +
    "    -   **Medium & Style:** You must " + "use the following style: ",
    // styleNote: rule 2 from the style to the quality suffix
    ". If it's \"Automatic\", choose the most " + "fitting style yourself.\n" +
    "    -   **Subject, Action, Setting:** " + "Infer directly from the content of the " +
    "`originalText` for that scene. Be very " + "specific.\n" +
    "    -   **Lighting:** You **MUST** " + "choose a lighting type. Infer from the " +
    "mood of the `originalText`. EXAMPLES: " + "'soft natural light' for peaceful " +
    "scenes, 'dramatic lighting, cinematic " + "lighting' for tense scenes, 'neon " +
    "lights' for city nights, 'golden hour' " + "for sunsets.\n" +
    "    -   **Color:** You **MUST** " + "describe the color palette. EXAMPLES: " +
    "'vibrant colors' for happy scenes, " + "'monochromatic blue, cool tones' for " +
    "sad or cold scenes, 'pastel color " + "palette' for dreamy scenes.\n" +
    "    -   **Camera & Composition:** You " + "**MUST** choose a camera shot. Infer " +
    "for cinematic effect. EXAMPLES: " + "'wide-angle shot, landscape' for vast " +
    "scenery, 'close-up shot, portrait' for " + "character emotions, 'low-angle shot' to " +
    "show grandeur, 'aerial view' for an " + "overview.\n" +
    "    -   **Details, Quality & " + "Parameters:** **ALWAYS** end the prompt " +
    "with the following string, including " + "the technical parameter for the aspect " + "ratio: \"",
    // characterIntro: rule 3 up to the character definitions
    "3. **Character Consistency (Crucial):** " + "Below are user-provided character " +
    "definitions. They might be written in " + "natural language, detailed bullet " +
    "points, or just keywords.\n" +
    "        **Your Task:**\n" +
    "        - **Read and Understand:** " + "Analyze the text below to identify the " +
    "name and core visual traits of each " + "character (appearance, clothing, " +
    "weapons, distinct features).\n" +
    "        - **Synthesize & Insert:** When " + "a character's name (e.g., \"Kael\", " +
    "\"Lyra\") appears in a scene's " + "`originalText`, you must automatically " +
    "**synthesize a concise visual " + "description** of that character and " +
    "**insert it naturally into the " + "`imagePrompt`**.\n" +
    "        - **Focus on Visuals:** Ignore " + "non-visual details like \"Personality\", " +
    "\"History\", or \"Relationships\". The goal " + "is to create a consistent visual " +
    "description for the image generation " + "AI.\n" +
    "\n" +
    "        **CHARACTER DEFINITIONS TO " + "ANALYZE AND USE:**\n" +
    "        ---\n" +
    "        ",
    // translationIntro: rule 4 up to the first language name
    "4. **TRANSLATION (Conditional):** The " + "user has requested a translation. For " +
    "each scene, you **MUST** translate the " + "`originalText` into ",
    // translationMid: rule 4 between the two language names
    ".\n" +
    "    - Place the translated text into a " + "new field called `translatedText`.\n" +
    "    - If the original text is already " + "in ",
    // translationOutro: rule 4 after the second language name
    ", just copy it to the `translatedText` " + "field.\n" +
    "    - The translation must be accurate " + "and natural.",
    // ratioIntro: rule 5 up to the aspect ratio
    "5.  **Ratio Optimization (Creative):** " + "In addition to adding the technical " +
    "parameter above, let the ",
    // ratioOutro: rule 5 after the aspect ratio, ending the block
    " aspect ratio influence your " + "description's content. For '9:16', " +
    "describe vertical elements. For '16:9', " + "describe wide landscapes.\n",
    // enSplitterIntro: English splitter template up to the duration
    "Analyze the following script. Your task " + "is to split it into scenes and create " +
    "image prompts according to the detailed " + "rules below.\n" +
    "\n" +
    "**SCENE SPLITTING RULES:**\n" +
    "1.  **Duration:** Each scene's original " + "text should correspond to a speaking " +
    "duration of approximately ",
    // enSplitterSeconds: English splitter template from the duration to the theme
    " seconds. Based on the ",
    // enSplitterTheme: English splitter template from the theme to the word count
    " theme, estimate the original text " + "length for each scene to be around ",
    // enSplitterWords: English splitter template from the word count to the rules
    " words. Split at natural pauses.\n" +
    "2.  **Output Format:** Return a JSON " + "array following the provided schema.\n",
    // viSplitterIntro: Vietnamese splitter template up to the duration
    "Phân tích kịch bản sau đây. Nhiệm vụ " + "của bạn là chia nó thành các phân cảnh " +
    "và tạo prompt ảnh theo các quy tắc chi " + "tiết dưới đây.\n" +
    "\n" +
    "**QUY TẮC PHÂN CẢNH:**\n" +
    "1. **Thời lượng:** Mỗi phân cảnh phải " + "có độ dài văn bản gốc tương ứng với " +
    "thời lượng nói khoảng ",
    // viSplitterSeconds: Vietnamese splitter template from the duration to the theme
    " giây. Dựa trên chủ đề ",
    // viSplitterTheme: Vietnamese splitter template from the theme to the word count
    ", hãy ước tính độ dài văn bản gốc cho " + "mỗi phân cảnh vào khoảng ",
    // viSplitterWords: Vietnamese splitter template from the word count to the rules
    " từ. Chia ở những điểm ngắt nghỉ tự " + "nhiên.\n" +
    "2. **Định dạng Output:** Trả về một " + "mảng JSON theo schema đã cung cấp.\n",
    // enPrompterIntro: English pre-scened template up to the theme
    "Analyze the following pre-scened " + "script. Your task is to create image " +
    "prompts for each scene according to the " + "detailed rules below.\n" +
    "\n" +
    "**SCENE PROCESSING RULES:**\n" +
    "1.  **Scene Definition:** The script is " + "already divided into scenes. **Each " +
    "block of text separated by one or more " + "blank lines is a distinct scene.**\n" +
    "2.  **Contextual Theme:** The overall " + "theme for this script is ",
    // enPrompterTheme: English pre-scened template from the theme to the rules
    ". Use this to guide the mood and style " + "of your visual descriptions and prompt " +
    "creation.\n" +
    "3.  **Task:** You do not need to split " + "scenes. Process each given scene " + "sequentially.\n" +
    "4.  **Output Format:** Return a JSON " + "array following the provided schema, " +
    "where each object corresponds to a " + "scene from the input script.\n",
    // viPrompterIntro: Vietnamese pre-scened template up to the theme
    "Phân tích kịch bản đã được phân cảnh " + "sẵn sau đây. Nhiệm vụ của bạn là tạo " +
    "prompt ảnh cho mỗi phân cảnh theo các " + "quy tắc chi tiết dưới đây.\n" +
    "\n" +
    "**QUY TẮC XỬ LÝ PHÂN CẢNH:**\n" +
    "1.  **Định nghĩa phân cảnh:** Kịch bản " + "đã được chia thành các phân cảnh. **Mỗi " +
    "đoạn văn bản được ngăn cách bởi một " + "dòng trống được coi là một phân cảnh " + "riêng biệt.**\n" +
    "2.  **Chủ đề Ngữ cảnh:** Chủ đề tổng " + "thể cho kịch bản này là ",
    // viPrompterTheme: Vietnamese pre-scened template from the theme to the rules
    ". Hãy sử dụng thông tin này để định " + "hướng không khí và phong cách cho các " +
    "mô tả hình ảnh và việc tạo prompt của " + "bạn.\n" +
    "3.  **Nhiệm vụ:** Bạn không cần phải " + "chia cảnh nữa. Hãy xử lý tuần tự từng " +
    "phân cảnh đã cho.\n" +
    "4.  **Định dạng Output:** Trả về một " + "mảng JSON theo schema đã cung cấp, " +
    "trong đó mỗi object tương ứng với một " + "phân cảnh từ kịch bản đầu vào.\n")

  /** The English heading line of the rules block. */
  const EnRulesHeading: string := Bold("IMAGE PROMPT CREATION RULES (MOST IMPORTANT):")

  /** The Vietnamese heading that replaces it in the Vietnamese templates. */
  const ViRulesHeading: string := Bold("QUY TẮC TẠO PROMPT ẢNH (QUAN TRỌNG NHẤT):")

  /** The fixed quality suffix every image prompt must end with, before the aspect ratio. */
  const QualityTag: string := ", highly detailed, intricate details, masterpiece, 8k --ar "

  /** The text closing rule 2. */
  const GuideEnd: string := "\".\n\n"

  /** The text closing rule 3. */
  const CharacterOutro: string := "\n        ---"

  /** Script heading of the English splitter template. */
  const EnSplitterScriptHeading: string := Bold("SCRIPT TO ANALYZE:")

  /** Script heading of the Vietnamese splitter template. */
  const ViSplitterScriptHeading: string := Bold("KỊCH BẢN ĐỂ PHÂN TÍCH:")

  /** Script heading of the English pre-scened template. */
  const EnPrompterScriptHeading: string := Bold("PRE-SCENED SCRIPT TO ANALYZE:")

  /** Script heading of the Vietnamese pre-scened template. */
  const ViPrompterScriptHeading: string := Bold("KỊCH BẢN ĐÃ PHÂN CẢNH ĐỂ PHÂN TÍCH:")

  /** Display names of the language codes a translation may target. */
  const LanguageMap: map<string, string> :=
    map["vi" := "Vietnamese", "en" := "English", "zh" := "Chinese", "ja" := "Japanese", "ko" := "Korean"]

  /** `languageMap[code] || code`: the language's name when the code is known, else the code itself. */
  function LanguageName(code: string): (name: string)
    ensures code in LanguageMap ==> name == LanguageMap[code]
    ensures code !in LanguageMap ==> name == code
  {
    if code in LanguageMap && LanguageMap[code] != "" then LanguageMap[code] else code
  }

  // ---- The image-prompt rules block ----

  /** Markdown bold, as the prompts write it around interpolated values and headings. */
  function Bold(s: string): string {
    "**" + s + "**"
  }

  /** A value between double quotes. */
  function Quoted(s: string): string {
    "\"" + s + "\""
  }

  /** The quality suffix with the aspect-ratio parameter. */
  function QualitySuffix(aspectRatioValue: string): string {
    QualityTag + aspectRatioValue
  }

  /** Rule 3, present exactly when the character definitions are not blank. */
  function CharacterClause(w: Wording, characterDefinitions: string): (clause: string)
    ensures clause != "" <==> Trim(characterDefinitions) != ""
  {
    if Trim(characterDefinitions) != "" then
      var parts := [w.characterIntro, characterDefinitions, CharacterOutro];
      ConcatEndsWithLast(parts);
      Concat(parts)
    else
      ""
  }

  /** A translation is requested unless the code is empty or `none`. */
  predicate WantsTranslation(translationLanguage: string) {
    translationLanguage != "" && translationLanguage != "none"
  }

  /** The pieces of rule 4 for a language name. */
  function TranslationClauseParts(w: Wording, name: string): seq<string> {
    [w.translationIntro, Bold(name), w.translationMid, name, w.translationOutro]
  }

  /** Rule 4, present exactly when a translation is requested. */
  function TranslationClause(w: Wording, translationLanguage: string): (clause: string)
    ensures clause != "" <==> WantsTranslation(translationLanguage)
  {
    if WantsTranslation(translationLanguage) then
      var parts := TranslationClauseParts(w, LanguageName(translationLanguage));
      ConcatContainsPart(parts, 1);
      Concat(parts)
    else
      ""
  }

  /** The pieces of rule 5, which repeats the aspect ratio in bold. */
  function RatioClauseParts(w: Wording, aspectRatioValue: string): seq<string> {
    [w.ratioIntro, Bold(aspectRatioValue), w.ratioOutro]
  }

  /** Rule 5. */
  function RatioClause(w: Wording, aspectRatioValue: string): string {
    Concat(RatioClauseParts(w, aspectRatioValue))
  }

  /** The pieces after the heading line: rules 1 and 2, then rules 3 to 5 with blank lines between them. */
  function RulesBodyParts(w: Wording, imageStylePrompt: string, aspectRatioValue: string, characterDefinitions: string, translationLanguage: string): seq<string> {
    [w.rulesIntro, Bold(imageStylePrompt), w.styleNote, QualitySuffix(aspectRatioValue), GuideEnd,
     CharacterClause(w, characterDefinitions), "\n\n", TranslationClause(w, translationLanguage), "\n\n",
     RatioClause(w, aspectRatioValue)]
  }

  /** Everything after the heading line. */
  function RulesBody(w: Wording, imageStylePrompt: string, aspectRatioValue: string, characterDefinitions: string, translationLanguage: string): string {
    Concat(RulesBodyParts(w, imageStylePrompt, aspectRatioValue, characterDefinitions, translationLanguage))
  }

  /** imagePromptRules: a newline, the English heading, then the body. */
  function ImagePromptRules(w: Wording, imageStylePrompt: string, aspectRatioValue: string, characterDefinitions: string, translationLanguage: string): string {
    "\n" + EnRulesHeading + RulesBody(w, imageStylePrompt, aspectRatioValue, characterDefinitions, translationLanguage)
  }

  /** The rules as the Vietnamese templates embed them: the first English heading replaced. */
  function ViImagePromptRules(w: Wording, imageStylePrompt: string, aspectRatioValue: string, characterDefinitions: string, translationLanguage: string): string {
    ReplaceFirst(ImagePromptRules(w, imageStylePrompt, aspectRatioValue, characterDefinitions, translationLanguage), EnRulesHeading, ViRulesHeading)
  }

  /** The rules block for the template arguments. */
  function RulesFor(w: Wording, a: PromptTemplateArgs): string {
    ImagePromptRules(w, a.imageStylePrompt, a.aspectRatioValue, a.characterDefinitions, a.translationLanguage)
  }

  /** The Vietnamese rules block for the template arguments. */
  function ViRulesFor(w: Wording, a: PromptTemplateArgs): string {
    ViImagePromptRules(w, a.imageStylePrompt, a.aspectRatioValue, a.characterDefinitions, a.translationLanguage)
  }

  // ---- The four templates ----

  /** The heading line and the script that end every template. */
  function ScriptSection(heading: string, scriptText: string): string {
    "\n" + heading + "\n" + scriptText
  }

  /** The pieces of enPromptTemplate. */
  function EnPromptTemplateParts(w: Wording, a: PromptTemplateArgs): seq<string> {
    [w.enSplitterIntro, IntToString(a.duration), w.enSplitterSeconds, Quoted(a.themeName), w.enSplitterTheme,
     IntToString(a.targetWordCount), w.enSplitterWords, RulesFor(w, a),
     ScriptSection(EnSplitterScriptHeading, a.scriptText)]
  }

  /** enPromptTemplate. */
  function EnPromptTemplate(w: Wording, a: PromptTemplateArgs): string {
    Concat(EnPromptTemplateParts(w, a))
  }

  /** The pieces of viPromptTemplate. */
  function ViPromptTemplateParts(w: Wording, a: PromptTemplateArgs): seq<string> {
    [w.viSplitterIntro, IntToString(a.duration), w.viSplitterSeconds, Quoted(a.themeName), w.viSplitterTheme,
     IntToString(a.targetWordCount), w.viSplitterWords, ViRulesFor(w, a),
     ScriptSection(ViSplitterScriptHeading, a.scriptText)]
  }

  /** viPromptTemplate. */
  function ViPromptTemplate(w: Wording, a: PromptTemplateArgs): string {
    Concat(ViPromptTemplateParts(w, a))
  }

  /** The pieces of enPromptTemplatePrompter. */
  function EnPromptTemplatePrompterParts(w: Wording, a: PromptTemplateArgs): seq<string> {
    [w.enPrompterIntro, Quoted(a.themeName), w.enPrompterTheme, RulesFor(w, a),
     ScriptSection(EnPrompterScriptHeading, a.scriptText)]
  }

  /** enPromptTemplatePrompter. */
  function EnPromptTemplatePrompter(w: Wording, a: PromptTemplateArgs): string {
    Concat(EnPromptTemplatePrompterParts(w, a))
  }

  /** The pieces of viPromptTemplatePrompter. */
  function ViPromptTemplatePrompterParts(w: Wording, a: PromptTemplateArgs): seq<string> {
    [w.viPrompterIntro, Quoted(a.themeName), w.viPrompterTheme, ViRulesFor(w, a),
     ScriptSection(ViPrompterScriptHeading, a.scriptText)]
  }

  /** viPromptTemplatePrompter. */
  function ViPromptTemplatePrompter(w: Wording, a: PromptTemplateArgs): string {
    Concat(ViPromptTemplatePrompterParts(w, a))
  }

  // ---- Lookups ----

  /** Which of the two template families a table entry selects. */
  datatype TemplateFamily = English | Vietnamese

  /** The family's scene-splitting template. */
  function SplitterTemplate(family: TemplateFamily, w: Wording, a: PromptTemplateArgs): string {
    match family
    case English => EnPromptTemplate(w, a)
    case Vietnamese => ViPromptTemplate(w, a)
  }

  /** The family's pre-scened template. */
  function PrompterTemplate(family: TemplateFamily, w: Wording, a: PromptTemplateArgs): string {
    match family
    case English => EnPromptTemplatePrompter(w, a)
    case Vietnamese => ViPromptTemplatePrompter(w, a)
  }

  /**
   * promptTemplates and promptTemplatesForPrompter share one layout: Vietnamese
   * for `vi`, English for the other four languages. The entry names the family,
   * and SplitterTemplate or PrompterTemplate stands for the function stored there.
   */
  const PromptTemplates: map<string, TemplateFamily> :=
    map["vi" := Vietnamese, "en" := English, "zh" := English, "ja" := English, "ko" := English]

  /** The table entry for a language, or the `en` entry when it has none. */
  function TemplateFamilyFor(lang: string): (family: TemplateFamily)
    ensures family == Vietnamese <==> lang == "vi"
  {
    if lang in PromptTemplates then PromptTemplates[lang] else PromptTemplates["en"]
  }

  /** getPromptTemplate: the language's template, or the English one when it has none. */
  function GetPromptTemplate(w: Wording, lang: string, a: PromptTemplateArgs): (prompt: string)
    ensures lang == "vi" ==> prompt == ViPromptTemplate(w, a)
    ensures lang != "vi" ==> prompt == EnPromptTemplate(w, a)
  {
    SplitterTemplate(TemplateFamilyFor(lang), w, a)
  }

  /** getPromptTemplateForPrompter: the same lookup over the pre-scened templates. */
  function GetPromptTemplateForPrompter(w: Wording, lang: string, a: PromptTemplateArgs): (prompt: string)
    ensures lang == "vi" ==> prompt == ViPromptTemplatePrompter(w, a)
    ensures lang != "vi" ==> prompt == EnPromptTemplatePrompter(w, a)
  {
    PrompterTemplate(TemplateFamilyFor(lang), w, a)
  }

  /** visualDescSchemaDescriptions: the schema hint for `visualDescription`, per language. */
  const VisualDescSchemaDescriptions: map<string, string> :=
    map["vi" := "Mô tả ngắn gọn bằng TIẾNG VIỆT về ý tưởng hình ảnh sẽ minh họa cho đoạn văn bản này.",
        "en" := "A brief description in ENGLISH of the visual idea that will illustrate this text passage.",
        "zh" := "用中文简要描述将说明此文本段落的视觉概念。",
        "ja" := "このテキスト箇所を説明する視覚的なアイデアの簡単な日本語での説明。",
        "ko" := "이 텍스트 구절을 설명할 시각적 아이디어에 대한 한국어의 간략한 설명。"]

  /** getVisualDescSchemaDescription: the language's hint, or the English one when it has none. */
  function GetVisualDescSchemaDescription(lang: string): (hint: string)
    ensures lang in VisualDescSchemaDescriptions ==> hint == VisualDescSchemaDescriptions[lang]
    ensures lang !in VisualDescSchemaDescriptions ==> hint == VisualDescSchemaDescriptions["en"]
    ensures hint != ""
  {
    if lang in VisualDescSchemaDescriptions && VisualDescSchemaDescriptions[lang] != "" then
      VisualDescSchemaDescriptions[lang]
    else
      VisualDescSchemaDescriptions["en"]
  }

  // ---- Properties ----

  /** When present, rule 3 quotes the character definitions verbatim. */
  lemma CharacterClauseQuotesDefinitions(w: Wording, characterDefinitions: string)
    requires Trim(characterDefinitions) != ""
    ensures Contains(CharacterClause(w, characterDefinitions), characterDefinitions)
  {
    ConcatContainsPart([w.characterIntro, characterDefinitions, CharacterOutro], 1);
  }

  /** When present, rule 4 names in bold the mapped language for a known code and the raw code otherwise. */
  lemma TranslationClauseNamesLanguage(w: Wording, translationLanguage: string)
    requires WantsTranslation(translationLanguage)
    ensures translationLanguage in LanguageMap ==>
      Contains(TranslationClause(w, translationLanguage), Bold(LanguageMap[translationLanguage]))
    ensures translationLanguage !in LanguageMap ==>
      Contains(TranslationClause(w, translationLanguage), Bold(translationLanguage))
  {
    ConcatContainsPart(TranslationClauseParts(w, LanguageName(translationLanguage)), 1);
  }

  /** A part of the rules body is contained in the whole rules block. */
  lemma RulesContainBodyPart(w: Wording, imageStylePrompt: string, aspectRatioValue: string, characterDefinitions: string, translationLanguage: string, i: nat)
    requires i < 10
    ensures Contains(ImagePromptRules(w, imageStylePrompt, aspectRatioValue, characterDefinitions, translationLanguage),
      RulesBodyParts(w, imageStylePrompt, aspectRatioValue, characterDefinitions, translationLanguage)[i])
  {
    var parts := RulesBodyParts(w, imageStylePrompt, aspectRatioValue, characterDefinitions, translationLanguage);
    ConcatContainsPart(parts, i);
    ContainsPrepend("\n" + EnRulesHeading, Concat(parts), parts[i]);
  }

  /**
   * Whatever the options, the rules name the style in bold, give the quality
   * suffix with the aspect ratio, and end with rule 5, which repeats the ratio in
   * bold; they also hold both optional clauses.
   */
  lemma RulesAlwaysContain(w: Wording, imageStylePrompt: string, aspectRatioValue: string, characterDefinitions: string, translationLanguage: string)
    ensures var rules := ImagePromptRules(w, imageStylePrompt, aspectRatioValue, characterDefinitions, translationLanguage);
      && Contains(rules, Bold(imageStylePrompt))
      && Contains(rules, QualitySuffix(aspectRatioValue))
      && Contains(rules, CharacterClause(w, characterDefinitions))
      && Contains(rules, TranslationClause(w, translationLanguage))
      && EndsWith(rules, RatioClause(w, aspectRatioValue))
      && Contains(RatioClause(w, aspectRatioValue), Bold(aspectRatioValue))
  {
    var parts := RulesBodyParts(w, imageStylePrompt, aspectRatioValue, characterDefinitions, translationLanguage);
    RulesContainBodyPart(w, imageStylePrompt, aspectRatioValue, characterDefinitions, translationLanguage, 1);
    RulesContainBodyPart(w, imageStylePrompt, aspectRatioValue, characterDefinitions, translationLanguage, 3);
    RulesContainBodyPart(w, imageStylePrompt, aspectRatioValue, characterDefinitions, translationLanguage, 5);
    RulesContainBodyPart(w, imageStylePrompt, aspectRatioValue, characterDefinitions, translationLanguage, 7);
    ConcatEndsWithLast(parts);
    EndsWithPrepend("\n" + EnRulesHeading, Concat(parts), parts[9]);
    ConcatContainsPart(RatioClauseParts(w, aspectRatioValue), 1);
  }

  /** Blank character definitions and an absent translation give the same rules as passing neither. */
  lemma RulesIgnoreAbsentClauses(w: Wording, imageStylePrompt: string, aspectRatioValue: string, characterDefinitions: string, translationLanguage: string)
    requires Trim(characterDefinitions) == ""
    requires !WantsTranslation(translationLanguage)
    ensures ImagePromptRules(w, imageStylePrompt, aspectRatioValue, characterDefinitions, translationLanguage)
         == ImagePromptRules(w, imageStylePrompt, aspectRatioValue, "", "")
  {
    TrimEmptyIffBlank("");
    var noCharacters := CharacterClause(w, "");
    var noTranslation := TranslationClause(w, "");
    assert noCharacters == "" && noTranslation == "";
    assert CharacterClause(w, characterDefinitions) == noCharacters;
    assert TranslationClause(w, translationLanguage) == noTranslation;
    assert RulesBodyParts(w, imageStylePrompt, aspectRatioValue, characterDefinitions, translationLanguage)
        == RulesBodyParts(w, imageStylePrompt, aspectRatioValue, "", "");
  }

  /** The Vietnamese rules are the English ones with the heading line swapped and nothing else changed. */
  lemma ViRulesSwapHeading(w: Wording, imageStylePrompt: string, aspectRatioValue: string, characterDefinitions: string, translationLanguage: string)
    ensures ViImagePromptRules(w, imageStylePrompt, aspectRatioValue, characterDefinitions, translationLanguage)
         == "\n" + ViRulesHeading + RulesBody(w, imageStylePrompt, aspectRatioValue, characterDefinitions, translationLanguage)
  {
    var body := RulesBody(w, imageStylePrompt, aspectRatioValue, characterDefinitions, translationLanguage);
    assert EnRulesHeading[0] == '*';
    ReplaceAfterFirstChar('\n', EnRulesHeading, body, ViRulesHeading);
  }

  /** Every template ends with its script heading line followed immediately by the script. */
  lemma TemplatesEndWithScript(w: Wording, a: PromptTemplateArgs)
    ensures EndsWith(EnPromptTemplate(w, a), ScriptSection(EnSplitterScriptHeading, a.scriptText))
    ensures EndsWith(ViPromptTemplate(w, a), ScriptSection(ViSplitterScriptHeading, a.scriptText))
    ensures EndsWith(EnPromptTemplatePrompter(w, a), ScriptSection(EnPrompterScriptHeading, a.scriptText))
    ensures EndsWith(ViPromptTemplatePrompter(w, a), ScriptSection(ViPrompterScriptHeading, a.scriptText))
  {
    ConcatEndsWithLast(EnPromptTemplateParts(w, a));
    ConcatEndsWithLast(ViPromptTemplateParts(w, a));
    ConcatEndsWithLast(EnPromptTemplatePrompterParts(w, a));
    ConcatEndsWithLast(ViPromptTemplatePrompterParts(w, a));
  }

  /** The script section is the heading line, then the script as given. */
  lemma ScriptSectionEndsWithScript(heading: string, scriptText: string)
    ensures EndsWith(ScriptSection(heading, scriptText), scriptText)
    ensures ScriptSection(heading, scriptText)[..|heading| + 2] == "\n" + heading + "\n"
  {
    EndsWithRight("\n" + heading + "\n", scriptText);
  }

  /** The scene-splitting templates state the duration, the quoted theme name and the target word count. */
  lemma SplitterTemplatesMentionTargets(w: Wording, a: PromptTemplateArgs)
    ensures Contains(EnPromptTemplate(w, a), IntToString(a.duration))
    ensures Contains(EnPromptTemplate(w, a), Quoted(a.themeName))
    ensures Contains(EnPromptTemplate(w, a), IntToString(a.targetWordCount))
    ensures Contains(ViPromptTemplate(w, a), IntToString(a.duration))
    ensures Contains(ViPromptTemplate(w, a), Quoted(a.themeName))
    ensures Contains(ViPromptTemplate(w, a), IntToString(a.targetWordCount))
  {
    ConcatContainsPart(EnPromptTemplateParts(w, a), 1);
    ConcatContainsPart(EnPromptTemplateParts(w, a), 3);
    ConcatContainsPart(EnPromptTemplateParts(w, a), 5);
    ConcatContainsPart(ViPromptTemplateParts(w, a), 1);
    ConcatContainsPart(ViPromptTemplateParts(w, a), 3);
    ConcatContainsPart(ViPromptTemplateParts(w, a), 5);
  }

  /** The pre-scened templates state the quoted theme name. */
  lemma PrompterTemplatesMentionTheme(w: Wording, a: PromptTemplateArgs)
    ensures Contains(EnPromptTemplatePrompter(w, a), Quoted(a.themeName))
    ensures Contains(ViPromptTemplatePrompter(w, a), Quoted(a.themeName))
  {
    ConcatContainsPart(EnPromptTemplatePrompterParts(w, a), 1);
    ConcatContainsPart(ViPromptTemplatePrompterParts(w, a), 1);
  }

  /** The English templates embed the rules block; the Vietnamese ones embed it under the Vietnamese heading. */
  lemma TemplatesEmbedRules(w: Wording, a: PromptTemplateArgs)
    ensures Contains(EnPromptTemplate(w, a), RulesFor(w, a))
    ensures Contains(EnPromptTemplatePrompter(w, a), RulesFor(w, a))
    ensures Contains(ViPromptTemplate(w, a), "\n" + ViRulesHeading
      + RulesBody(w, a.imageStylePrompt, a.aspectRatioValue, a.characterDefinitions, a.translationLanguage))
    ensures Contains(ViPromptTemplatePrompter(w, a), "\n" + ViRulesHeading
      + RulesBody(w, a.imageStylePrompt, a.aspectRatioValue, a.characterDefinitions, a.translationLanguage))
  {
    ViRulesSwapHeading(w, a.imageStylePrompt, a.aspectRatioValue, a.characterDefinitions, a.translationLanguage);
    ConcatContainsPart(EnPromptTemplateParts(w, a), 7);
    ConcatContainsPart(ViPromptTemplateParts(w, a), 7);
    ConcatContainsPart(EnPromptTemplatePrompterParts(w, a), 3);
    ConcatContainsPart(ViPromptTemplatePrompterParts(w, a), 3);
  }

  /** The table has an entry for exactly the five interface languages, every one but `vi` English. */
  lemma TemplateLookupByLanguage()
    ensures PromptTemplates.Keys == {"vi", "en", "zh", "ja", "ko"}
    ensures forall lang :: lang in PromptTemplates && lang != "vi" ==> PromptTemplates[lang] == English
  {
  }
}
