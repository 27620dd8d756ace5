/**
 * App.tsx: the custom-option modal's validation, the option lists shown in the
 * theme, aspect-ratio and style pickers, and the option state of the scene
 * splitter view (selection changes and saving a custom option).
 */
module CustomOptions {
  import opened Wrappers
  import opened Strings
  import opened Types
  import I18nContext

  /** The three kinds of option the modal edits. */
  datatype OptionKind = Theme | Ratio | Style

  /** What a submitted modal hands to the save handler. */
  datatype OptionData =
    | ThemeData(name: string, wps: real)
    | RatioData(name: string, value: string)
    | StyleData(name: string, prompt: string)

  function KindOf(data: OptionData): OptionKind {
    match data
    case ThemeData(_, _) => Theme
    case RatioData(_, _) => Ratio
    case StyleData(_, _) => Style
  }

  /** The result of submitting the modal: save the data, do nothing, or alert about the ratio format. */
  datatype SubmitOutcome = Save(data: OptionData) | Ignore | AlertInvalidRatio

  // ---- The ratio format /^\d+:\d+$/ ----

  predicate IsDigit(c: char) {
    '0' <= c <= '9'
  }

  predicate AllDigits(s: string) {
    forall i :: 0 <= i < |s| ==> IsDigit(s[i])
  }

  /** The ratio format as a language: digits, a colon, digits, with both digit runs non-empty. */
  predicate IsRatioFormat(s: string) {
    exists k :: 0 < k < |s| - 1 && s[k] == ':' && AllDigits(s[..k]) && AllDigits(s[k + 1..])
  }

  /** The number of leading digits. */
  function DigitRun(s: string): (n: nat)
    ensures n <= |s| && AllDigits(s[..n])
    ensures n < |s| ==> !IsDigit(s[n])
  {
    if s == [] || !IsDigit(s[0]) then 0
    else
      var n := 1 + DigitRun(s[1..]);
      assert s[..n] == [s[0]] + s[1..][..n - 1];
      n
  }

  /** The matcher: a digit run, then a colon, then a non-empty run of digits reaching the end. */
  function MatchesRatio(s: string): bool {
    var n := DigitRun(s);
    0 < n && n + 1 < |s| && s[n] == ':' && AllDigits(s[n + 1..])
  }

  /** The matcher accepts exactly the ratio format. */
  lemma MatchesRatioIff(s: string)
    ensures MatchesRatio(s) <==> IsRatioFormat(s)
  {
    var n := DigitRun(s);
    if IsRatioFormat(s) {
      var k :| 0 < k < |s| - 1 && s[k] == ':' && AllDigits(s[..k]) && AllDigits(s[k + 1..]);
      DigitRunCovers(s, k);
      assert n == k;
    }
  }

  /** A digit prefix is no longer than the leading digit run. */
  lemma {:induction false} DigitRunCovers(s: string, k: nat)
    requires k <= |s| && AllDigits(s[..k])
    ensures DigitRun(s) >= k
  {
    if k > 0 {
      assert IsDigit(s[..k][0]);
      assert s[1..][..k - 1] == s[..k][1..];
      DigitRunCovers(s[1..], k - 1);
    }
  }

  /**
   * `handleSubmit`: a theme needs a name and a wps that is a number (`None`
   * stands for NaN); a ratio needs a name and the ratio format, otherwise it
   * alerts; a style needs a name and a prompt.
   */
  function Submit(kind: OptionKind, name: string, value: string, wps: Option<real>, promptText: string): (r: SubmitOutcome)
    ensures r.Save? ==> KindOf(r.data) == kind && r.data.name == name
    ensures r.Save? <==> name != "" && match kind
      case Theme => wps.Some?
      case Ratio => IsRatioFormat(value)
      case Style => promptText != ""
    ensures r == AlertInvalidRatio <==> kind == Ratio && (name == "" || !IsRatioFormat(value))
    ensures r.Save? && kind == Theme ==> r.data == ThemeData(name, wps.value)
    ensures r.Save? && kind == Ratio ==> r.data == RatioData(name, value)
    ensures r.Save? && kind == Style ==> r.data == StyleData(name, promptText)
  {
    MatchesRatioIff(value);
    match kind
    case Theme => if name == "" || wps.None? then Ignore else Save(ThemeData(name, wps.value))
    case Ratio => if name == "" || !MatchesRatio(value) then AlertInvalidRatio else Save(RatioData(name, value))
    case Style => if name == "" || promptText == "" then Ignore else Save(StyleData(name, promptText))
  }

  /** A concrete ratio the format accepts, and two it refuses. */
  lemma RatioFormatExamples()
    ensures IsRatioFormat("21:9")
    ensures !IsRatioFormat("16:")
    ensures !IsRatioFormat("4/3")
  {
    assert MatchesRatio("21:9");
    MatchesRatioIff("21:9");
    MatchesRatioIff("16:");
    MatchesRatioIff("4/3");
  }

  // ---- The option lists ----

  /** The interface language and its tables, which `t` reads. */
  datatype Locale = Locale(translations: I18nContext.Translations, language: string)

  function T(loc: Locale, key: string): string {
    I18nContext.Translate(loc.translations, loc.language, key)
  }

  /** DEFAULT_THEME_DATA: ids with reading speeds. */
  const DefaultThemeData: seq<(string, real)> := [
    ("storytelling", 2.3), ("news", 2.7), ("science", 2.1), ("tutorial", 2.0), ("vlog", 2.4),
    ("gaming", 2.8), ("documentary", 2.0), ("comedy", 2.6), ("review", 2.5), ("meditation", 1.5),
    ("podcast", 2.4), ("finance", 2.2), ("history", 2.1), ("cooking", 2.2), ("travel", 2.4),
    ("fitness", 2.3), ("tech", 2.5), ("asmr", 1.7), ("kids", 2.0), ("philosophy", 1.9), ("horror", 2.2)]

  /** DEFAULT_ASPECT_RATIO_DATA: each id is its own value. */
  const DefaultAspectRatioIds: seq<string> := ["16:9", "9:16", "1:1", "4:3"]

  /** DEFAULT_STYLE_DATA. */
  const DefaultStyleIds: seq<string> := ["automatic", "photorealistic", "anime_ghibli", "cyberpunk", "fantasy_art", "watercolor"]

  /** The display name of a custom option: its name and the translated suffix in parentheses. */
  function CustomName(loc: Locale, name: string): string {
    name + " (" + T(loc, "customOptionSuffix") + ")"
  }

  /** themeOptions: the translated defaults, then the custom themes under their marked names. */
  function ThemeOptions(loc: Locale, customThemes: seq<ThemeOption>): (options: seq<ThemeOption>)
    ensures |options| == |DefaultThemeData| + |customThemes|
    ensures forall i :: 0 <= i < |DefaultThemeData| ==>
      options[i] == ThemeOption(DefaultThemeData[i].0, T(loc, "theme_" + DefaultThemeData[i].0), DefaultThemeData[i].1, false)
    ensures forall i :: 0 <= i < |customThemes| ==>
      options[|DefaultThemeData| + i] == customThemes[i].(name := CustomName(loc, customThemes[i].name))
  {
    var defaults := DefaultThemeData;
    seq(|defaults|, i requires 0 <= i < |defaults| => ThemeOption(defaults[i].0, T(loc, "theme_" + defaults[i].0), defaults[i].1, false))
    + seq(|customThemes|, i requires 0 <= i < |customThemes| => customThemes[i].(name := CustomName(loc, customThemes[i].name)))
  }

  /** aspectRatioOptions: the translated defaults, then the custom ratios under their marked names. */
  function AspectRatioOptions(loc: Locale, customRatios: seq<AspectRatioOption>): (options: seq<AspectRatioOption>)
    ensures |options| == |DefaultAspectRatioIds| + |customRatios|
    ensures forall i :: 0 <= i < |DefaultAspectRatioIds| ==>
      options[i] == AspectRatioOption(DefaultAspectRatioIds[i], T(loc, "ratio_" + DefaultAspectRatioIds[i]), DefaultAspectRatioIds[i], false)
    ensures forall i :: 0 <= i < |customRatios| ==>
      options[|DefaultAspectRatioIds| + i] == customRatios[i].(name := CustomName(loc, customRatios[i].name))
  {
    var defaults := DefaultAspectRatioIds;
    seq(|defaults|, i requires 0 <= i < |defaults| => AspectRatioOption(defaults[i], T(loc, "ratio_" + defaults[i]), defaults[i], false))
    + seq(|customRatios|, i requires 0 <= i < |customRatios| => customRatios[i].(name := CustomName(loc, customRatios[i].name)))
  }

  /** styleOptions: the defaults with translated names and prompts, then the custom styles under their marked names. */
  function StyleOptions(loc: Locale, customStyles: seq<StyleOption>): (options: seq<StyleOption>)
    ensures |options| == |DefaultStyleIds| + |customStyles|
    ensures forall i :: 0 <= i < |DefaultStyleIds| ==>
      options[i] == StyleOption(DefaultStyleIds[i], T(loc, "style_" + DefaultStyleIds[i]), T(loc, "style_prompt_" + DefaultStyleIds[i]), false)
    ensures forall i :: 0 <= i < |customStyles| ==>
      options[|DefaultStyleIds| + i] == customStyles[i].(name := CustomName(loc, customStyles[i].name))
  {
    var defaults := DefaultStyleIds;
    seq(|defaults|, i requires 0 <= i < |defaults| =>
      StyleOption(defaults[i], T(loc, "style_" + defaults[i]), T(loc, "style_prompt_" + defaults[i]), false))
    + seq(|customStyles|, i requires 0 <= i < |customStyles| => customStyles[i].(name := CustomName(loc, customStyles[i].name)))
  }

  /** The position of the first theme with that id, or the list's length when there is none. */
  function FirstThemeIndex(options: seq<ThemeOption>, id: string): (k: nat)
    ensures k <= |options|
    ensures forall j :: 0 <= j < k ==> options[j].id != id
    ensures k < |options| ==> options[k].id == id
  {
    if options == [] then 0
    else if options[0].id == id then 0
    else 1 + FirstThemeIndex(options[1..], id)
  }

  /** `options.find(o => o.id === id)`: the first option with that id. */
  function FindTheme(options: seq<ThemeOption>, id: string): (found: Option<ThemeOption>)
    ensures found.None? <==> forall i :: 0 <= i < |options| ==> options[i].id != id
    ensures found.Some? ==> found.value.id == id && found.value == options[FirstThemeIndex(options, id)]
  {
    var k := FirstThemeIndex(options, id);
    if k < |options| then Some(options[k]) else None
  }

  // ---- The option state of the scene splitter view ----

  /** The id string of a modal kind inside a template literal; a closed modal prints as `null`. */
  function KindName(mode: Option<OptionKind>): string {
    match mode
    case None => "null"
    case Some(Theme) => "theme"
    case Some(Ratio) => "ratio"
    case Some(Style) => "style"
  }

  /** The id given to a custom option saved at time `now`. */
  function CustomId(mode: Option<OptionKind>, now: int): string {
    "custom-" + KindName(mode) + "-" + IntToString(now)
  }

  /** The custom lists, the three selections and the open modal of SceneSplitterView. */
  class OptionCatalog {
    var customThemes: seq<ThemeOption>
    var customRatios: seq<AspectRatioOption>
    var customStyles: seq<StyleOption>
    var selectedThemeId: string
    var selectedAspectRatioId: string
    var selectedStyleId: string
    var modalMode: Option<OptionKind>

    /** The initial state: no custom options, the first default of each list selected, no modal. */
    constructor()
      ensures customThemes == [] && customRatios == [] && customStyles == []
      ensures selectedThemeId == "storytelling" && selectedAspectRatioId == "16:9" && selectedStyleId == "automatic"
      ensures modalMode == None
    {
      customThemes, customRatios, customStyles := [], [], [];
      selectedThemeId, selectedAspectRatioId, selectedStyleId := "storytelling", "16:9", "automatic";
      modalMode := None;
    }

    /** `handleSelectionChange`: `add_new` opens the modal for that kind; any other value becomes its selection. */
    method SelectionChange(kind: OptionKind, value: string)
      modifies this
      ensures customThemes == old(customThemes) && customRatios == old(customRatios) && customStyles == old(customStyles)
      ensures value == "add_new" ==>
        && modalMode == Some(kind)
        && selectedThemeId == old(selectedThemeId) && selectedAspectRatioId == old(selectedAspectRatioId)
        && selectedStyleId == old(selectedStyleId)
      ensures value != "add_new" ==>
        && modalMode == old(modalMode)
        && selectedThemeId == (if kind == Theme then value else old(selectedThemeId))
        && selectedAspectRatioId == (if kind == Ratio then value else old(selectedAspectRatioId))
        && selectedStyleId == (if kind == Style then value else old(selectedStyleId))
    {
      if value == "add_new" {
        modalMode := Some(kind);
      } else {
        if kind == Theme { selectedThemeId := value; }
        if kind == Ratio { selectedAspectRatioId := value; }
        if kind == Style { selectedStyleId := value; }
      }
    }

    /**
     * `handleSaveCustomOption`: the data comes from the modal opened for
     * `modalMode`. The new option, marked custom, goes at the end of that
     * kind's list and is selected; the other lists and selections stay; the
     * modal closes.
     */
    method SaveCustomOption(data: OptionData, now: int)
      requires modalMode.Some? ==> KindOf(data) == modalMode.value
      modifies this
      ensures modalMode == None
      ensures var id := CustomId(old(modalMode), now);
        match old(modalMode)
        case Some(Theme) =>
          && customThemes == old(customThemes) + [ThemeOption(id, data.name, data.wps, true)]
          && selectedThemeId == id
          && customRatios == old(customRatios) && customStyles == old(customStyles)
          && selectedAspectRatioId == old(selectedAspectRatioId) && selectedStyleId == old(selectedStyleId)
        case Some(Ratio) =>
          && customRatios == old(customRatios) + [AspectRatioOption(id, data.name, data.value, true)]
          && selectedAspectRatioId == id
          && customThemes == old(customThemes) && customStyles == old(customStyles)
          && selectedThemeId == old(selectedThemeId) && selectedStyleId == old(selectedStyleId)
        case Some(Style) =>
          && customStyles == old(customStyles) + [StyleOption(id, data.name, data.prompt, true)]
          && selectedStyleId == id
          && customThemes == old(customThemes) && customRatios == old(customRatios)
          && selectedThemeId == old(selectedThemeId) && selectedAspectRatioId == old(selectedAspectRatioId)
        case None =>
          && customThemes == old(customThemes) && customRatios == old(customRatios) && customStyles == old(customStyles)
          && selectedThemeId == old(selectedThemeId) && selectedAspectRatioId == old(selectedAspectRatioId)
          && selectedStyleId == old(selectedStyleId)
    {
      var id := CustomId(modalMode, now);
      match modalMode {
        case Some(Theme) =>
          customThemes := customThemes + [ThemeOption(id, data.name, data.wps, true)];
          selectedThemeId := id;
        case Some(Ratio) =>
          customRatios := customRatios + [AspectRatioOption(id, data.name, data.value, true)];
          selectedAspectRatioId := id;
        case Some(Style) =>
          customStyles := customStyles + [StyleOption(id, data.name, data.prompt, true)];
          selectedStyleId := id;
        case None =>
      }
      modalMode := None;
    }
  }

  /** Every default theme id is shorter than any custom theme id. */
  lemma DefaultThemeIdsAreShort(now: int)
    ensures forall i :: 0 <= i < |DefaultThemeData| ==> |DefaultThemeData[i].0| < |CustomId(Some(Theme), now)|
  {
    assert forall i :: 0 <= i < |DefaultThemeData| ==> |DefaultThemeData[i].0| <= 12;
  }

  /**
   * After a theme is saved under an id no earlier custom theme has, the
   * picker's lookup of the selected id finds the new theme, under its marked
   * name and with the saved reading speed.
   */
  lemma SavedThemeIsFound(loc: Locale, customThemes: seq<ThemeOption>, data: OptionData, now: int)
    requires data.ThemeData?
    requires forall i :: 0 <= i < |customThemes| ==> customThemes[i].id != CustomId(Some(Theme), now)
    ensures var id := CustomId(Some(Theme), now);
      FindTheme(ThemeOptions(loc, customThemes + [ThemeOption(id, data.name, data.wps, true)]), id)
        == Some(ThemeOption(id, CustomName(loc, data.name), data.wps, true))
  {
    var id := CustomId(Some(Theme), now);
    var added := ThemeOption(id, data.name, data.wps, true);
    var customs := customThemes + [added];
    var options := ThemeOptions(loc, customs);
    var n := |DefaultThemeData|;
    DefaultThemeIdsAreShort(now);
    forall j | 0 <= j < |options| - 1
      ensures options[j].id != id
    {
      if j < n {
        assert options[j].id == DefaultThemeData[j].0;
      } else {
        assert options[j].id == customs[j - n].id == customThemes[j - n].id;
      }
    }
    var found := FindTheme(options, id);
    assert options[|options| - 1] == added.(name := CustomName(loc, data.name));
  }
}
