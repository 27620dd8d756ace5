# ai-script-splitter, modelled in Dafny

ai-script-splitter is a React front end that sends a video script to a hosted
text model. The model splits the script into scenes and writes an image prompt
for each one. The code that can be verified is the deterministic part around
that call, and the modules here model it:

- **GeminiService** (`services/geminiService.ts`) models `breakdownScript`:
  - the empty-key guard;
  - the request it sends: model name, prompt arguments, response settings and the schema's `required` list;
  - the array check on the parsed reply;
  - the type filter over the reply's items;
  - the `catch` block that maps any failure to one of four messages.

  The remote call and `JSON.parse` are one `Reply` parameter. It holds either the value they threw or the parsed JSON, as a `Json` datatype.
- **Locales** (`i18n/locales.ts`) models the prompt builder:
  - the image-prompt rules block, with its optional character-consistency and translation clauses;
  - the four prompt templates;
  - the `languageMap` names;
  - the per-language template and schema-description lookups, with their `en` fallbacks.

  The long fixed prose between interpolations is the `Wording` record. `SourceWording` holds the repository's text, so the properties hold for any wording.
- **I18nContext** (`contexts/I18nContext.tsx`) models two things:
  - the translation function `t`, with its three-level fallback;
  - `getInitialLanguage`, with storage and the browser as parameters.
- **CustomOptions** (`App.tsx`) models:
  - the custom-option modal's validation, including the ratio format `^\d+:\d+$`;
  - the theme, aspect-ratio and style option lists;
  - the option state of the scene splitter view as a class, `OptionCatalog`, with its selection change and custom-option save.
- **Batch** (`App.tsx`) models the batch view and the custom-rules view as classes:
  - the task list operations;
  - the active-task selection;
  - both generate handlers.

  The remote outcomes are given, one per active task, in task order. Gathering them per task (individual mode) or into one list (combined mode), and the `sceneCounter` renumbering loop, are proved against specification functions.
- **ApiKeys** (`App.tsx`) models the key list: the non-blank lines of the key text.
- **Export** (`App.tsx`, `ResultsView`) models the text shapes of the TXT, prompts-TXT, DOCX and XLSX downloads.
- **Strings** and **Seqs** re-state what the code uses of JavaScript's strings and arrays, each ending in `seq<char>` or `seq<T>`:
  - `trim`, `includes`, `endsWith`, `split`, `join`, the first-occurrence `replace`, and number-to-text;
  - `filter` and `flat`.
- **Types** holds the record shapes of `types.ts`. **Wrappers** holds `Option` and `Result`.

## Model

| member | source | states |
|---|---|---|
| GeminiService.BreakdownScript | services/geminiService.ts:6-108 | An empty key fails with the missing-key message and sends no request. Otherwise the request carries `gemini-2.5-flash`, the prompt arguments (with no translation language), `application/json` and the four required fields. The result is the `Outcome` of the reply. |
| GeminiService.EmptyKeyFailsFirst | services/geminiService.ts:21-23 | An empty key fails with `errorApiKeyMissing`, whatever the remote side would have done. |
| GeminiService.FilterAsWritten | services/geminiService.ts:84-89 | The filter throws exactly when the array holds a `null` item, with the TypeError of reading `sceneNumber` from `null`. Otherwise it returns the well-formed items. |
| GeminiService.ToScene | services/geminiService.ts:84-89 | A kept item becomes a scene: the number `sceneNumber` and the three string fields the filter's `typeof` checks require. |
| GeminiService.ClassifyError | services/geminiService.ts:97-107 | Any failure maps to exactly one message. A message containing `json` gives `errorInvalidResponse`. Otherwise one containing `API key not valid` gives the fixed invalid-key text. Every other error, and any value that is not an `Error`, gives `errorGeneral`. |
| GeminiService.FailureMessages | services/geminiService.ts:97-107 | A failed call carries one of the four messages the service can throw. |
| GeminiService.SuccessIsFilteredArray | services/geminiService.ts:79-95 | A successful call parsed an array. Its scenes are an order-preserving subsequence of that array. Each scene is well-formed, and each well-formed item is kept. There are no more scenes than items, and as many exactly when every item is well-formed. |
| GeminiService.WellFormedHasRequiredFields | services/geminiService.ts:61-89 | A kept item has every field of the schema's `required` list. |
| GeminiService.KeepWellFormedIdempotent | services/geminiService.ts:84-89 | Filtering the filter's own output changes nothing, and the written filter does not throw on it. |
| GeminiService.NonArrayIsRejected | services/geminiService.ts:79-82 | A parsed value that is not an array is never returned. The call fails with the re-classified invalid-response error. |
| GeminiService.NonArrayReportedAsGeneral | services/geminiService.ts:81-107 | Unless `errorInvalidResponse` itself contains `json` or the invalid-key text, a non-array reply surfaces as `errorGeneral`. |
| GeminiService.UnmarkedMessage | services/geminiService.ts:100-105 | A message holding neither `j` nor `P` contains neither marker that the catch block tests. |
| GeminiService.NullAccessMessageLetters | services/geminiService.ts:84-89 | The null-access TypeError message holds neither marker letter. |
| GeminiService.NullItemFailsWholeReply | services/geminiService.ts:84-107 | One `null` item fails the whole call with `errorGeneral`, even beside well-formed items. |
| GeminiService.IntendedOutcome | services/geminiService.ts:79-95 | The corrected outcome: a success is always a parsed array's well-formed items. |
| GeminiService.IntendedNonArrayReportsInvalidResponse | services/geminiService.ts:79-82 | Corrected: a non-array reply reports `errorInvalidResponse`, whatever its wording. |
| GeminiService.IntendedArrayAlwaysSucceeds | services/geminiService.ts:84-95 | Corrected: every parsed array succeeds with its well-formed items. A `null` item is dropped like any other malformed one. |
| GeminiService.IntendedAgreesElsewhere | services/geminiService.ts:66-108 | The corrected and the written outcome are equal on every reply that is neither a non-array nor an array holding `null`. |
| Locales.LanguageName | i18n/locales.ts:651-657 | A known code gives its `languageMap` name, and any other code gives the code itself. |
| Locales.CharacterClause | i18n/locales.ts:674-685 | Rule 3 is present exactly when the trimmed character definitions are not empty. |
| Locales.CharacterClauseQuotesDefinitions | i18n/locales.ts:674-685 | When present, rule 3 contains the character definitions verbatim. |
| Locales.TranslationClause | i18n/locales.ts:687-692 | Rule 4 is present exactly when the translation language is neither empty nor `none`. |
| Locales.TranslationClauseNamesLanguage | i18n/locales.ts:687-692 | When present, rule 4 names in bold the `languageMap` name of a known code, and the raw code otherwise. |
| Locales.RulesContainBodyPart | i18n/locales.ts:659-695 | Every piece of the rules body occurs in the rules block. |
| Locales.RulesAlwaysContain | i18n/locales.ts:659-695 | Whatever the options, the rules hold the style prompt in bold and the quality suffix with the aspect ratio. They hold both optional clauses, and they end with rule 5, which repeats the ratio in bold. |
| Locales.RulesIgnoreAbsentClauses | i18n/locales.ts:674-692 | Blank character definitions and no translation give the same rules as passing neither. |
| Locales.ViRulesSwapHeading | i18n/locales.ts:713 | The Vietnamese templates' rules are the English rules with the first heading replaced by the Vietnamese heading, and nothing else changed. |
| Locales.TemplatesEndWithScript | i18n/locales.ts:698-738 | Each of the four templates ends with its script heading line followed by the script. |
| Locales.ScriptSectionEndsWithScript | i18n/locales.ts:704-705 | The script section is a newline, the heading and a newline, then the script as given. |
| Locales.SplitterTemplatesMentionTargets | i18n/locales.ts:698-715 | Both scene-splitting templates state the duration, the quoted theme name and the target word count. |
| Locales.PrompterTemplatesMentionTheme | i18n/locales.ts:718-738 | Both pre-scened templates state the quoted theme name. |
| Locales.TemplatesEmbedRules | i18n/locales.ts:698-738 | The English templates embed the rules block. The Vietnamese ones embed it under the Vietnamese heading. |
| Locales.TemplateLookupByLanguage | i18n/locales.ts:741-755 | The template tables have entries for exactly `vi`, `en`, `zh`, `ja` and `ko`, and every one but `vi` is English. |
| Locales.TemplateFamilyFor | i18n/locales.ts:741-755 | The lookup selects the Vietnamese family exactly for `vi`. A language without an entry falls back to `en`. |
| Locales.GetPromptTemplate | i18n/locales.ts:766-768 | `vi` gives the Vietnamese splitting template, and every other language the English one. |
| Locales.GetPromptTemplateForPrompter | i18n/locales.ts:770-772 | `vi` gives the Vietnamese pre-scened template, and every other language the English one. |
| Locales.GetVisualDescSchemaDescription | i18n/locales.ts:758-776 | A language's own hint is used when it has one, and otherwise the `en` hint. The hint is never empty. |
| I18nContext.Lookup | contexts/I18nContext.tsx:39 | An entry is found exactly when the language has a table holding the key. |
| I18nContext.Translate | contexts/I18nContext.tsx:37-40 | `t` is the first usable entry of the current language then of `en`, else the key. An unset language reads as `vi`. |
| I18nContext.TranslateLevels | contexts/I18nContext.tsx:39 | The three levels in order: a non-empty current entry wins; else a non-empty English entry; else the key. An empty entry counts as missing. |
| I18nContext.TranslateNonEmpty | contexts/I18nContext.tsx:39 | `t` never returns the empty string for a non-empty key. |
| I18nContext.TranslateComesFromTables | contexts/I18nContext.tsx:39 | `t` returns either the key or an entry stored under that key in some table. |
| I18nContext.UnsetLanguageIsVietnamese | contexts/I18nContext.tsx:38 | An unset language looks keys up exactly as `vi` does. |
| I18nContext.GetInitialLanguage | contexts/I18nContext.tsx:15-27 | The chosen language is `vi` or one that has a table. |
| I18nContext.BrowserPrefix | contexts/I18nContext.tsx:21 | The browser prefix is a `-`-free prefix of the browser language, ending at its first `-` or at its end. |
| I18nContext.InitialLanguagePreference | contexts/I18nContext.tsx:15-27 | Priority: without a `window` the answer is `vi`. Otherwise a saved, non-empty language with a table comes first, then a browser prefix with a table, and otherwise `vi`. |
| I18nContext.RegionalBrowserLanguage | contexts/I18nContext.tsx:21-24 | A browser language `en-US` selects `en` when nothing is saved. |
| CustomOptions.DigitRun | App.tsx:81 | The leading digit run: all digits, and followed by a non-digit or the end. |
| CustomOptions.MatchesRatioIff | App.tsx:81 | The digit-run matcher accepts exactly the strings `^\d+:\d+$` describes. |
| CustomOptions.DigitRunCovers | App.tsx:81 | Any all-digit prefix is no longer than the leading digit run. |
| CustomOptions.Submit | App.tsx:71-92 | Data is saved exactly when the name is set and the kind's own field is valid: a numeric wps, a ratio matching `^\d+:\d+$`, or a style prompt. The saved data is that kind's name and field. A ratio alerts exactly when its name or format is wrong. |
| CustomOptions.RatioFormatExamples | App.tsx:81 | `21:9` matches the ratio format, while `16:` and `4/3` do not. |
| CustomOptions.ThemeOptions | App.tsx:296-299 | The theme list is the 21 defaults under their translated names, then every custom theme, in order, under its name with the translated suffix. |
| CustomOptions.AspectRatioOptions | App.tsx:301-304 | The ratio list is the four defaults, each its own value, under translated names, then the custom ratios under suffixed names. |
| CustomOptions.StyleOptions | App.tsx:306-309 | The style list is the six defaults with translated names and prompts, then the custom styles under suffixed names. |
| CustomOptions.FirstThemeIndex | App.tsx:347 | The position of the first theme with the id, past every earlier one, or the length when there is none. |
| CustomOptions.FindTheme | App.tsx:347 | `find` returns nothing exactly when no option has the id. Otherwise it returns the first option with that id. |
| CustomOptions.OptionCatalog.constructor | App.tsx:276-284 | No custom options, `storytelling`, `16:9` and `automatic` selected, and no modal open. |
| CustomOptions.OptionCatalog.SelectionChange | App.tsx:316-323 | `add_new` opens the modal for that kind and changes nothing else. Any other value becomes that kind's selection. |
| CustomOptions.OptionCatalog.SaveCustomOption | App.tsx:325-345 | The new option, marked custom and carrying a `custom-<kind>-<time>` id, is appended to the open kind's list and selected. The other lists and selections stay, and the modal closes. With no modal open, only the modal state is written. |
| CustomOptions.DefaultThemeIdsAreShort | App.tsx:326 | No default theme id is as long as a custom theme id. |
| CustomOptions.SavedThemeIsFound | App.tsx:325-347 | After a theme is saved under a fresh id, the picker's lookup of the selected id finds the new theme, under its suffixed name. |
| Batch.UpdateTaskField | App.tsx:629-635 | A field change keeps the list length. |
| Batch.UpdateTaskFieldChangesOnlyField | App.tsx:629-635 | Each task keeps its id. A task with another id is unchanged. A matching task takes the value in the named field and keeps the other field. |
| Batch.AddTask | App.tsx:637-639 | The old tasks, then one task with the given time as id and an empty script and empty definitions. |
| Batch.RemoveTask | App.tsx:641-643 | No task with the id is left, and every task with another id is kept. |
| Batch.RemoveTaskKeepsOrder | App.tsx:641-643 | The kept tasks stay in order. Nothing is removed exactly when no task has the id. |
| Batch.ActiveTasksAreNonBlank | App.tsx:658 | The active tasks are every task whose script is not blank, and only those, in their order. |
| Batch.Requests | App.tsx:664-672 | One call per active task, with the task's script. The character definitions are the task's own in individual mode and the shared field in combined mode. |
| Batch.ReasonMessage | App.tsx:681 | A rejected task shows the `Error`'s message, or the unknown-error text when that is empty or the value is not an `Error`. |
| Batch.IndividualResults | App.tsx:674-684 | One row per active task, in order, with its id. A fulfilled task has its scenes and no error. A rejected one has no scenes and its reason's message. |
| Batch.MissingKeyResults | App.tsx:646-648 | Without keys, every task (active or not) gets a row with no scenes and the missing-key error. |
| Batch.FirstFailure | App.tsx:686-697 | No failure is reported exactly when every outcome succeeded. A reported failure is the reason of some failed outcome. |
| Batch.SceneLists | App.tsx:687-689 | The scene lists of outcomes that all succeeded, one per task, in order. |
| Batch.Renumbered | App.tsx:688-692 | The renumbered list keeps its length. |
| Batch.RenumberScenes | App.tsx:688-692 | The `sceneCounter` loop produces the sequential renumbering. |
| Batch.RenumberedProperties | App.tsx:688-692 | Scene `i` gets number `i + 1`, the numbers increase, and every other field is unchanged. |
| Batch.RunBatch | App.tsx:658-698 | The gathering after the calls equals the batch-run specification. |
| Batch.NoActiveTasksNoRun | App.tsx:655-662 | No active task means no calls and both results left cleared. |
| Batch.IndividualRunResults | App.tsx:664-684 | Individual mode: one call per active task with its own definitions. One row per task in task order, with its scenes or with the rejection's message and no scenes. No combined result. |
| Batch.CombinedRunResults | App.tsx:664-698 | Combined mode: one call per active task with the shared definitions. The error is absent exactly when every call succeeds; then the scenes are all tasks' scenes in task order, numbered from 1, as many as all lists hold. Otherwise there are no scenes, and the error comes from a failed call. |
| Batch.BatchView.constructor | App.tsx:580-601 | Three empty tasks with ids 1 to 3, individual mode, no results, and the placeholder as shared definitions. |
| Batch.BatchView.ChangeTaskField | App.tsx:629-635 | The tasks become the field-changed list, and nothing else changes. |
| Batch.BatchView.AddNewTask | App.tsx:637-639 | The tasks get one new empty task at the end, and nothing else changes. |
| Batch.BatchView.RemoveTaskById | App.tsx:641-643 | The tasks lose those with the id, and nothing else changes. |
| Batch.BatchView.ReportMissingKey | App.tsx:646-650 | Individual mode: every task shows the missing-key error. Combined mode: the combined result does. Nothing else changes. |
| Batch.BatchView.RunActiveTasks | App.tsx:655-700 | The results and calls equal the batch run over the active tasks. The tasks and settings are unchanged. |
| Batch.BatchView.GenerateBatch | App.tsx:645-701 | No keys: the missing-key report and no calls. No selected theme, ratio or style: nothing changes. Otherwise: the batch run over the active tasks. |
| Batch.CustomRulesView.constructor | App.tsx:823-850 | Three empty tasks, individual mode, no rules, no error, no results, and the placeholder as shared definitions. |
| Batch.CustomRulesView.ChangeTaskField | App.tsx:878-884 | The tasks become the field-changed list, and nothing else changes. |
| Batch.CustomRulesView.AddNewTask | App.tsx:886-888 | One new empty task at the end, and nothing else changes. |
| Batch.CustomRulesView.RemoveTaskById | App.tsx:890-892 | The tasks lose those with the id, and nothing else changes. |
| Batch.CustomRulesView.ReportMissingKey | App.tsx:895-899 | The missing-key report, per mode, as in the batch view. The rules and the view error are unchanged. |
| Batch.CustomRulesView.RunActiveTasks | App.tsx:907-954 | The view error is cleared, and the results and calls equal the batch run over the active tasks. |
| Batch.CustomRulesView.GenerateBatch | App.tsx:894-955 | No keys: the missing-key report. Blank rules: the rules-required error and no calls. No selected options: nothing changes. Otherwise: the error is cleared and the batch run is performed. |
| ApiKeys.ParseApiKeys | App.tsx:1087 | Every key is a non-blank line of the text, without a line break. |
| ApiKeys.KeysAreNonBlankLines | App.tsx:1087 | The keys are a subsequence of the lines, and every non-blank line is a key. The keys are not trimmed. |
| ApiKeys.ParseJoinedKeys | App.tsx:1087 | Writing non-blank, single-line keys one per line and parsing the text gives the same keys back. |
| ApiKeys.BlankTextHasNoKeys | App.tsx:1087 | An empty or blank text gives no keys. |
| ApiKeys.JoinPieceBlank | App.tsx:1087 | Every line of a blank text is blank. |
| Export.OriginalTexts | App.tsx:181 | The scenes' original texts, in order. |
| Export.ImagePrompts | App.tsx:215 | The scenes' image prompts, in order. |
| Export.TextFile | App.tsx:179-181 | No file exactly when there are no scenes. |
| Export.TextFileHoldsEveryLine | App.tsx:181 | The file holds every scene's line, and its length is the lines' total plus two per gap. |
| Export.ParagraphPairs | App.tsx:195-198 | Two paragraphs per scene. |
| Export.DocxParagraphs | App.tsx:194-199 | No document exactly when there are no scenes. Otherwise the paragraphs alternate text and empty: 2n−1 of them, with nothing after the last text. |
| Export.DocxParagraphCounts | App.tsx:195-199 | Paragraph `2i` is scene `i`'s text, and every paragraph between two texts is empty. |
| Export.DocxLayoutSnoc | App.tsx:195-199 | A layout of several texts is the layout of all but the last, then an empty paragraph, then the last text. |
| Export.JoinEmptyThenLast | App.tsx:181-199 | Appending an empty part and a last part adds two separators and the last part. |
| Export.DocxLinesAreTxt | App.tsx:181-199 | The DOCX paragraphs joined by line breaks are the TXT content. |
| Export.TxtSplitsIntoDocxParagraphs | App.tsx:181-199 | When no text has a line break, splitting the TXT content at line breaks gives the DOCX paragraphs. |
| Export.HasKeyPastHead | App.tsx:153-162 | Past a head with another key, the row has the key exactly when its tail does. |
| Export.Assign | App.tsx:153-162 | An object key assignment: an existing key keeps its place, and a new key goes last with the value. |
| Export.SheetRows | App.tsx:149-164 | No sheet exactly when there are no scenes. Otherwise there is one row per scene. |
| Export.AssignAllDistinct | App.tsx:153-163 | Assignments to distinct keys append in order. |
| Export.ColumnsHaveDistinctKeys | App.tsx:154-162 | With distinct headers, the assignments of a row go to distinct keys. |
| Export.SheetRowMatchesWidths | App.tsx:152-173 | With distinct headers a row has the scene number, the original text, the translation only when translating (empty when absent), the visual description only when it is on, and the image prompt last. There is one column per width. |
| Export.CollidingHeadersLoseAColumn | App.tsx:152-164 | When the scene-number header equals the image-prompt header, the prompt overwrites the number in its place, and the row is one column short. |

## Left out

- The remote call, `new GoogleGenAI`, `response.text` and `JSON.parse` are one `Reply` parameter. `console` logging is left out.
- The service does not model rounding the reading speed into a word count: `breakdownScript` takes `targetWordCount` as an integer parameter, because floating point and `Math.round` are not modelled.
- Custom themes' `wps` is a `real`. `parseFloat` is left out, and its NaN result is `None`.
- `Date.now()` is a parameter (`now`) wherever an id is made.
- `localStorage` is left out: the saved API keys, custom options and language. So are the XLSX and docx libraries, `Blob`, object URLs and the download anchors. The exports are modelled up to the text, paragraphs, rows and widths they are given.
- `Promise.all` and `Promise.allSettled` are left out; the outcomes are a list, one per active task, in task order. `Promise.all` rejects with the failure that happens first in time; the model takes the first in task order, and its lemma states only that the message comes from some failed task.
- A rejection reason of `null` or `undefined` in individual mode makes `(result.reason as Error).message` throw a TypeError. The model reads such a reason as a non-`Error` value and shows the unknown-error text instead.
- `isLoading` and the intermediate cleared results while the calls are pending are left out: the model gives the state after every call has settled.
- App.tsx passes `breakdownScript` a key list and more arguments, among them the custom rules, than services/geminiService.ts accepts. The service is modelled as written, with one key, and the custom rules reach no prompt.
- The stubbed `handleSaveCustomOption` and `handleSelectionChange` of the two batch views, and their option lists, are left out. They repeat the scene splitter view's, which `OptionCatalog` models.
- The translation tables' contents (i18n/locales.ts:8-638) are an abstract map. Keys found only through the object prototype chain, such as `constructor`, are not modelled: not in the translation tables, nor in `languageMap`, nor in the template and schema-hint tables (i18n/locales.ts:651-657, 741-764). For example, Locales.LanguageName gives the code itself for `constructor`, whereas `languageMap['constructor']` is `Object.prototype.constructor`. The app passes only the codes of its fixed language options to these lookups.
- A `translatedText` that is present but not a string reads as absent.
- The templates in the model receive `duration` and `targetWordCount` as integers, which are written in decimal. Floating-point formatting is not modelled.
- Export.SheetRows: states the row count. The row contents are stated by Export.SheetRowMatchesWidths for distinct headers, and Export.CollidingHeadersLoseAColumn covers one collision. Other header collisions are not characterised.
- CustomOptions.ThemeOptions, CustomOptions.AspectRatioOptions, CustomOptions.StyleOptions: state the list contents directly. The only property proved across them is CustomOptions.SavedThemeIsFound.
- The React rendering, the language switcher, the donate modal and the `useI18n` provider check are left out.

## Findings

| source | as written | input that shows it | evidently intended | confidence | as-written member | corrected member |
|---|---|---|---|---|---|---|
| services/geminiService.ts:79-82, 97-107 | The non-array error is thrown inside the `try`, so the `catch` re-classifies it. It keeps `errorInvalidResponse` only if that text itself contains `json` or the invalid-key marker. | A reply that parses to an object, such as `{}`, with an `errorInvalidResponse` text lacking `json` reports `errorGeneral`. | A non-array reply reports `errorInvalidResponse`. | not executed | GeminiService.NonArrayReportedAsGeneral | GeminiService.IntendedNonArrayReportsInvalidResponse |
| services/geminiService.ts:84-89, 97-107 | The filter reads `item.sceneNumber` before any type check, so a `null` item throws a TypeError. That error has no marker, so the whole call fails with `errorGeneral`. | The reply `[null, <a well-formed scene>]` fails entirely. | Malformed items, `null` among them, are dropped, and the well-formed ones are returned. | not executed | GeminiService.NullItemFailsWholeReply | GeminiService.IntendedArrayAlwaysSucceeds |
