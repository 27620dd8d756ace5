/**
 * App.tsx, ResultsView: the text shapes of the downloads. TXT holds the
 * scenes' original texts (or their image prompts) separated by a blank line,
 * DOCX one paragraph per scene with an empty paragraph between neighbours,
 * and XLSX one row per scene whose columns depend on the translation and
 * visual-idea settings. Every download does nothing when there are no scenes.
 */
module Export {
  import opened Wrappers
  import opened Strings
  import opened Types

  function OriginalTexts(scenes: seq<Scene>): (texts: seq<string>)
    ensures |texts| == |scenes| && forall i :: 0 <= i < |scenes| ==> texts[i] == scenes[i].originalText
  {
    seq(|scenes|, i requires 0 <= i < |scenes| => scenes[i].originalText)
  }

  function ImagePrompts(scenes: seq<Scene>): (prompts: seq<string>)
    ensures |prompts| == |scenes| && forall i :: 0 <= i < |scenes| ==> prompts[i] == scenes[i].imagePrompt
  {
    seq(|scenes|, i requires 0 <= i < |scenes| => scenes[i].imagePrompt)
  }

  /** A text download: `None` for no scenes, else the lines joined by `"\n\n"`. */
  function TextFile(lines: seq<string>): (content: Option<string>)
    ensures content.None? <==> lines == []
  {
    if lines == [] then None else Some(Join(lines, "\n\n"))
  }

  /** `handleDownloadTXT`. */
  function TxtContent(scenes: seq<Scene>): Option<string> {
    TextFile(OriginalTexts(scenes))
  }

  /** `handleDownloadPromptsTXT`. */
  function PromptsContent(scenes: seq<Scene>): Option<string> {
    TextFile(ImagePrompts(scenes))
  }

  /** Every line occurs in the file, whose length is the lines' plus two per gap. */
  lemma TextFileHoldsEveryLine(lines: seq<string>, i: nat)
    requires i < |lines|
    ensures TextFile(lines).Some?
    ensures Contains(TextFile(lines).value, lines[i])
    ensures |TextFile(lines).value| == TotalLength(lines) + 2 * (|lines| - 1)
  {
    JoinContainsParts(lines, "\n\n", i);
    JoinLength(lines, "\n\n");
  }

  /** DOCX layout: an even paragraph `2i` holds text `i`, an odd one is empty, and nothing follows the last text. */
  predicate IsDocxLayout(texts: seq<string>, paragraphs: seq<string>) {
    && |texts| > 0
    && |paragraphs| == 2 * |texts| - 1
    && forall k :: 0 <= k < |paragraphs| ==> paragraphs[k] == if k % 2 == 0 then texts[k / 2] else ""
  }

  /** `scenes.flatMap(scene => [text, ""])`: each text followed by an empty paragraph. */
  function ParagraphPairs(texts: seq<string>): (paragraphs: seq<string>)
    ensures |paragraphs| == 2 * |texts|
  {
    seq(2 * |texts|, k requires 0 <= k < 2 * |texts| => if k % 2 == 0 then texts[k / 2] else "")
  }

  /** `handleDownloadDOCX`: the pairs, then `paragraphs.pop()` drops the trailing empty paragraph. */
  method DocxParagraphs(scenes: seq<Scene>) returns (paragraphs: Option<seq<string>>)
    ensures scenes == [] <==> paragraphs.None?
    ensures paragraphs.Some? ==> IsDocxLayout(OriginalTexts(scenes), paragraphs.value)
  {
    if |scenes| == 0 {
      return None;
    }
    var built := ParagraphPairs(OriginalTexts(scenes));
    if |built| > 0 {
      built := built[..|built| - 1];
    }
    paragraphs := Some(built);
  }

  /** A DOCX document has one text paragraph per scene, in scene order, with one empty paragraph between neighbours. */
  lemma DocxParagraphCounts(texts: seq<string>, paragraphs: seq<string>, i: nat)
    requires IsDocxLayout(texts, paragraphs) && i < |texts|
    ensures paragraphs[2 * i] == texts[i]
    ensures i < |texts| - 1 ==> paragraphs[2 * i + 1] == ""
  {
    assert (2 * i) % 2 == 0 && (2 * i) / 2 == i;
    if i < |texts| - 1 {
      assert (2 * i + 1) % 2 == 1;
    }
  }

  /** A layout of several texts is the layout of all but the last, an empty paragraph, and the last text. */
  lemma DocxLayoutSnoc(texts: seq<string>, paragraphs: seq<string>)
    requires IsDocxLayout(texts, paragraphs) && |texts| > 1
    ensures IsDocxLayout(texts[..|texts| - 1], paragraphs[..2 * |texts| - 3])
    ensures paragraphs == paragraphs[..2 * |texts| - 3] + ["", texts[|texts| - 1]]
  {
    var n := |texts|;
    var front := paragraphs[..2 * n - 3];
    var shorter := texts[..n - 1];
    forall k | 0 <= k < |front| ensures front[k] == if k % 2 == 0 then shorter[k / 2] else "" {
      assert front[k] == paragraphs[k];
    }
    DocxParagraphCounts(texts, paragraphs, n - 2);
    DocxParagraphCounts(texts, paragraphs, n - 1);
  }

  /** Two more parts, an empty one and `last`, add two separators and `last` to the joined text. */
  lemma JoinEmptyThenLast(front: seq<string>, last: string, sep: string)
    requires |front| > 0
    ensures Join(front + ["", last], sep) == Join(front, sep) + sep + sep + last
  {
    var withEmpty := front + [""];
    assert front + ["", last] == withEmpty + [last];
    JoinSnoc(front, "", sep);
    JoinSnoc(withEmpty, last, sep);
    assert Join(withEmpty, sep) == Join(front, sep) + sep;
  }

  /** Joining the DOCX paragraphs by line breaks gives the TXT content. */
  lemma {:induction false} DocxLinesAreTxt(texts: seq<string>, paragraphs: seq<string>)
    requires IsDocxLayout(texts, paragraphs)
    ensures Join(paragraphs, "\n") == Join(texts, "\n\n")
    decreases |texts|
  {
    var n := |texts|;
    if n > 1 {
      var front := paragraphs[..2 * n - 3];
      var shorter := texts[..n - 1];
      DocxLayoutSnoc(texts, paragraphs);
      DocxLinesAreTxt(shorter, front);
      JoinEmptyThenLast(front, texts[n - 1], "\n");
      assert "\n" + "\n" == "\n\n";
      assert texts == shorter + [texts[n - 1]];
      JoinSnoc(shorter, texts[n - 1], "\n\n");
    } else {
      assert paragraphs == [texts[0]];
    }
  }

  /** When no text holds a line break, splitting the TXT content at line breaks gives the DOCX paragraphs. */
  lemma TxtSplitsIntoDocxParagraphs(scenes: seq<Scene>, paragraphs: seq<string>)
    requires IsDocxLayout(OriginalTexts(scenes), paragraphs)
    requires forall i :: 0 <= i < |scenes| ==> '\n' !in scenes[i].originalText
    ensures Split(TxtContent(scenes).value, '\n') == paragraphs
  {
    var texts := OriginalTexts(scenes);
    DocxLinesAreTxt(texts, paragraphs);
    forall k | 0 <= k < |paragraphs| ensures '\n' !in paragraphs[k] {
      assert paragraphs[k] == if k % 2 == 0 then texts[k / 2] else "";
    }
    JoinSplit(paragraphs, '\n');
  }

  // ---- XLSX ----

  /** A spreadsheet cell: the scene number stays a number, the rest are text. */
  datatype Cell = NumberCell(number: real) | TextCell(text: string)

  /** The column headers, each the text `t` gives for its key. */
  datatype XlsxHeaders = XlsxHeaders(sceneNumber: string, originalText: string, translatedText: string,
                                     visualDescription: string, imagePrompt: string)

  /** A row object: its keys in insertion order with their values. */
  type Row = seq<(string, Cell)>

  predicate HasKey(row: Row, key: string) {
    exists i :: 0 <= i < |row| && row[i].0 == key
  }

  /** Past a head with another key, a row has `key` exactly when its tail has. */
  lemma HasKeyPastHead(row: Row, key: string)
    requires row != [] && row[0].0 != key
    ensures HasKey(row, key) <==> HasKey(row[1..], key)
  {
    if HasKey(row, key) {
      var i :| 0 <= i < |row| && row[i].0 == key;
      assert row[1..][i - 1].0 == key;
    }
    if HasKey(row[1..], key) {
      var i :| 0 <= i < |row[1..]| && row[1..][i].0 == key;
      assert row[i + 1].0 == key;
    }
  }

  /** `rowData[key] = value`: an existing key keeps its place and takes the value, a new one goes last. */
  function Assign(row: Row, key: string, value: Cell): (r: Row)
    ensures HasKey(row, key) ==> |r| == |row|
    ensures !HasKey(row, key) ==> r == row + [(key, value)]
    ensures forall i :: 0 <= i < |row| ==> r[i].0 == row[i].0
  {
    if row == [] then [(key, value)]
    else if row[0].0 == key then [(key, value)] + row[1..]
    else
      HasKeyPastHead(row, key);
      var tail := Assign(row[1..], key, value);
      assert forall i :: 0 < i < |row| ==> row[i] == row[1..][i - 1];
      [row[0]] + tail
  }

  /** `translationLanguage !== 'none'`. */
  function IncludeTranslations(translationLanguage: string): bool {
    translationLanguage != "none"
  }

  /** The assignments of one scene's row in program order; an absent or empty translation is written as `''`. */
  function Columns(scene: Scene, headers: XlsxHeaders, includeTranslations: bool, includeVisualIdea: bool): Row {
    [(headers.sceneNumber, NumberCell(scene.sceneNumber)), (headers.originalText, TextCell(scene.originalText))]
    + (if includeTranslations
       then [(headers.translatedText, TextCell(if scene.translatedText.Some? then scene.translatedText.value else ""))]
       else [])
    + (if includeVisualIdea then [(headers.visualDescription, TextCell(scene.visualDescription))] else [])
    + [(headers.imagePrompt, TextCell(scene.imagePrompt))]
  }

  /** The assignments carried out one after another. */
  function AssignAll(row: Row, entries: Row): Row
    decreases |entries|
  {
    if entries == [] then row else AssignAll(Assign(row, entries[0].0, entries[0].1), entries[1..])
  }

  /** The row object of one scene. */
  function SheetRow(scene: Scene, headers: XlsxHeaders, includeTranslations: bool, includeVisualIdea: bool): Row {
    AssignAll([], Columns(scene, headers, includeTranslations, includeVisualIdea))
  }

  /** `dataForSheet`: `None` for no scenes, else one row per scene. */
  function SheetRows(scenes: seq<Scene>, headers: XlsxHeaders, translationLanguage: string, includeVisualIdea: bool): (rows: Option<seq<Row>>)
    ensures rows.None? <==> scenes == []
    ensures rows.Some? ==> |rows.value| == |scenes|
  {
    if scenes == [] then None
    else Some(seq(|scenes|, i requires 0 <= i < |scenes| =>
      SheetRow(scenes[i], headers, IncludeTranslations(translationLanguage), includeVisualIdea)))
  }

  /** `worksheet["!cols"]`: the character widths of the columns. */
  function ColumnWidths(includeTranslations: bool, includeVisualIdea: bool): seq<nat> {
    [10, 60] + (if includeTranslations then [60] else []) + (if includeVisualIdea then [50] else []) + [70]
  }

  predicate DistinctHeaders(h: XlsxHeaders) {
    && h.sceneNumber != h.originalText && h.sceneNumber != h.translatedText
    && h.sceneNumber != h.visualDescription && h.sceneNumber != h.imagePrompt
    && h.originalText != h.translatedText && h.originalText != h.visualDescription
    && h.originalText != h.imagePrompt && h.translatedText != h.visualDescription
    && h.translatedText != h.imagePrompt && h.visualDescription != h.imagePrompt
  }

  predicate DistinctKeys(row: Row) {
    forall i, j :: 0 <= i < j < |row| ==> row[i].0 != row[j].0
  }

  /** Assignments to keys that are all different just append. */
  lemma {:induction false} AssignAllDistinct(row: Row, entries: Row)
    requires DistinctKeys(row + entries)
    ensures AssignAll(row, entries) == row + entries
    decreases |entries|
  {
    if entries != [] {
      assert forall i :: 0 <= i < |row| ==> (row + entries)[i] == row[i];
      assert (row + entries)[|row|] == entries[0];
      assert !HasKey(row, entries[0].0);
      assert row + [entries[0]] + entries[1..] == row + entries;
      AssignAllDistinct(row + [entries[0]], entries[1..]);
    }
  }

  /** With distinct headers the assignments of a row go to different keys. */
  lemma ColumnsHaveDistinctKeys(scene: Scene, headers: XlsxHeaders, includeTranslations: bool, includeVisualIdea: bool)
    requires DistinctHeaders(headers)
    ensures DistinctKeys(Columns(scene, headers, includeTranslations, includeVisualIdea))
  {
    var c := Columns(scene, headers, includeTranslations, includeVisualIdea);
    var keys := seq(|c|, i requires 0 <= i < |c| => c[i].0);
    if includeTranslations && includeVisualIdea {
      assert keys == [headers.sceneNumber, headers.originalText, headers.translatedText, headers.visualDescription, headers.imagePrompt];
    } else if includeTranslations {
      assert keys == [headers.sceneNumber, headers.originalText, headers.translatedText, headers.imagePrompt];
    } else if includeVisualIdea {
      assert keys == [headers.sceneNumber, headers.originalText, headers.visualDescription, headers.imagePrompt];
    } else {
      assert keys == [headers.sceneNumber, headers.originalText, headers.imagePrompt];
    }
  }

  /**
   * With distinct headers a row has one column per width: scene number,
   * original text, the translation only when translating, the visual
   * description only when the visual idea is on, and the image prompt last,
   * each holding its scene field.
   */
  lemma SheetRowMatchesWidths(scene: Scene, headers: XlsxHeaders, includeTranslations: bool, includeVisualIdea: bool)
    requires DistinctHeaders(headers)
    ensures var row := SheetRow(scene, headers, includeTranslations, includeVisualIdea);
      && row == Columns(scene, headers, includeTranslations, includeVisualIdea)
      && |row| == |ColumnWidths(includeTranslations, includeVisualIdea)|
  {
    var c := Columns(scene, headers, includeTranslations, includeVisualIdea);
    ColumnsHaveDistinctKeys(scene, headers, includeTranslations, includeVisualIdea);
    assert [] + c == c;
    AssignAllDistinct([], c);
  }

  /** When the first header equals the last, the prompt overwrites the scene number and the row is a column short. */
  lemma CollidingHeadersLoseAColumn(scene: Scene, headers: XlsxHeaders)
    requires headers.sceneNumber == headers.imagePrompt && headers.originalText != headers.imagePrompt
    ensures var row := SheetRow(scene, headers, false, false);
      |row| == 2 && row[0] == (headers.imagePrompt, TextCell(scene.imagePrompt))
  {
    var c := Columns(scene, headers, false, false);
    var r1 := [c[0]];
    var r2 := [c[0], c[1]];
    assert c == [c[0], c[1], c[2]];
    assert Assign([], c[0].0, c[0].1) == r1;
    assert Assign(r1, c[1].0, c[1].1) == r2;
    assert Assign(r2, c[2].0, c[2].1) == [c[2], c[1]];
    assert AssignAll([], c) == AssignAll(r1, c[1..]);
    assert c[1..][1..] == [c[2]];
    assert AssignAll(r1, c[1..]) == AssignAll(r2, [c[2]]);
  }
}
