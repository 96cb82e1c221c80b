/**
  * The report page's parser: it scrapes the stored Markdown/CSV analysis text into an
  * `AnalysisData` record, one trimmed line at a time, with a `currentSection` that
  * says where data rows go.
  */
module ReportParser {
  import opened Wrappers
  import opened Strings

  /** A colour sampled from the photo; `colorLabel` is the source's `label` (a reserved word here). */
  datatype ExtractedColor = ExtractedColor(colorLabel: string, hex: string)

  /** A palette entry, a hair colour or the jewelry tone. */
  datatype NamedColor = NamedColor(name: string, hex: string)

  datatype MakeupProduct = MakeupProduct(brand: string, product: string, shade: string, hex: string, url: string)

  datatype Makeup = Makeup(
    foundations: seq<MakeupProduct>,
    cushion: MakeupProduct,
    lipsticks: seq<MakeupProduct>,
    blushes: seq<MakeupProduct>,
    eyeshadows: seq<MakeupProduct>)

  datatype Outfit = Outfit(styleType: string, imagePrompt: string, generatedImage: string)

  datatype AnalysisData = AnalysisData(
    seasonType: string,
    colorExtraction: seq<ExtractedColor>,
    colorPalette: seq<NamedColor>,
    jewelryTone: NamedColor,
    hairColors: seq<NamedColor>,
    makeup: Makeup,
    celebrities: seq<string>,
    outfit: Outfit)

  /** The value of `currentSection`; `Unset` is the initial `''`. */
  datatype Section =
    | Unset | ColorExtraction | ColorPalette | HairColors
    | Foundations | Cushion | Lipsticks | Blushes | Eyeshadows | Celebrities

  /** The bold Markdown markers the parser looks for, in the order it tests them. */
  datatype Marker =
    | SeasonTypeMarker | ColorExtractionMarker | PaletteMarker | JewelryToneMarker
    | HairColorsMarker | FoundationsMarker | CushionMarker | LipsticksMarker
    | BlushesMarker | EyeshadowsMarker | CelebritiesMarker | ImagePromptMarker

  function MarkerText(m: Marker): (t: string)
    ensures StartsWith(t, "**") && |t| > 2
  {
    match m
    case SeasonTypeMarker => "**Seasonal Color Type:**"
    case ColorExtractionMarker => "**Color Extraction:**"
    case PaletteMarker => "**9-Color Seasonal Palette:**"
    case JewelryToneMarker => "**Jewelry Tone:**"
    case HairColorsMarker => "**Flattering Hair Colors:**"
    case FoundationsMarker => "**Foundations:**"
    case CushionMarker => "**Korean Cushion:**"
    case LipsticksMarker => "**Lipsticks:**"
    case BlushesMarker => "**Blushes:**"
    case EyeshadowsMarker => "**Eyeshadow Palettes:**"
    case CelebritiesMarker => "**Similar Celebrities:**"
    case ImagePromptMarker => "**Image Prompt:**"
  }

  /** Position of a marker in the test order. */
  function Rank(m: Marker): nat {
    match m
    case SeasonTypeMarker => 0
    case ColorExtractionMarker => 1
    case PaletteMarker => 2
    case JewelryToneMarker => 3
    case HairColorsMarker => 4
    case FoundationsMarker => 5
    case CushionMarker => 6
    case LipsticksMarker => 7
    case BlushesMarker => 8
    case EyeshadowsMarker => 9
    case CelebritiesMarker => 10
    case ImagePromptMarker => 11
  }

  /** The markers read inline: they set a field and leave the section alone. */
  predicate IsInline(m: Marker) {
    m == SeasonTypeMarker || m == JewelryToneMarker || m == ImagePromptMarker
  }

  /** The section a header marker opens. */
  function SectionOf(m: Marker): (s: Section)
    requires !IsInline(m)
    ensures s != Unset
  {
    match m
    case ColorExtractionMarker => ColorExtraction
    case PaletteMarker => ColorPalette
    case HairColorsMarker => HairColors
    case FoundationsMarker => Foundations
    case CushionMarker => Cushion
    case LipsticksMarker => Lipsticks
    case BlushesMarker => Blushes
    case EyeshadowsMarker => Eyeshadows
    case CelebritiesMarker => Celebrities
  }

  /** The markers in the order the `else if` chain tests them: position `k` holds rank `k`. */
  const MarkerOrder: seq<Marker> := [
    SeasonTypeMarker, ColorExtractionMarker, PaletteMarker, JewelryToneMarker,
    HairColorsMarker, FoundationsMarker, CushionMarker, LipsticksMarker,
    BlushesMarker, EyeshadowsMarker, CelebritiesMarker, ImagePromptMarker]

  lemma MarkerOrderRanks()
    ensures |MarkerOrder| == 12
    ensures forall k :: 0 <= k < |MarkerOrder| ==> Rank(MarkerOrder[k]) == k
    ensures forall m :: MarkerOrder[Rank(m)] == m
  {
  }

  /** The rest of the `else if` chain from the `k`-th test on. */
  function FirstMarkerFrom(t: string, k: nat): (r: Option<Marker>)
    ensures r.Some? ==> Contains(t, MarkerText(r.value)) && k <= Rank(r.value)
    decreases |MarkerOrder| - k
  {
    if k >= |MarkerOrder| then None
    else if Contains(t, MarkerText(MarkerOrder[k])) then (MarkerOrderRanks(); Some(MarkerOrder[k]))
    else FirstMarkerFrom(t, k + 1)
  }

  /** The `else if` chain of `includes` tests (its meaning is `MatchMarkerIsFirst`). */
  function MatchMarker(t: string): (r: Option<Marker>)
    ensures r.Some? ==> Contains(t, MarkerText(r.value))
  {
    FirstMarkerFrom(t, 0)
  }

  lemma {:induction false} FirstMarkerFromIsFirst(t: string, k: nat)
    requires k <= |MarkerOrder|
    ensures var r := FirstMarkerFrom(t, k);
      && (r.Some? ==> forall m :: k <= Rank(m) < Rank(r.value) ==> !Contains(t, MarkerText(m)))
      && (r.None? ==> forall m :: k <= Rank(m) ==> !Contains(t, MarkerText(m)))
    decreases |MarkerOrder| - k
  {
    MarkerOrderRanks();
    if k < |MarkerOrder| && !Contains(t, MarkerText(MarkerOrder[k])) {
      FirstMarkerFromIsFirst(t, k + 1);
      forall m | Rank(m) == k ensures !Contains(t, MarkerText(m)) {
        assert m == MarkerOrder[k];
      }
    }
  }

  /**
    * The result of the `includes` chain is the first marker, in test order, that the
    * line contains, and `None` exactly when it contains none.
    */
  lemma MatchMarkerIsFirst(t: string)
    ensures MatchMarker(t).Some? ==> forall m :: Rank(m) < Rank(MatchMarker(t).value) ==> !Contains(t, MarkerText(m))
    ensures MatchMarker(t).None? <==> forall m :: !Contains(t, MarkerText(m))
  {
    FirstMarkerFromIsFirst(t, 0);
  }

  /**
    * `line.split(marker)[1]`: the text after the first occurrence of the marker, up to
    * the next occurrence or the end of the line.
    */
  function TextAfter(t: string, marker: string): (r: string)
    requires marker != [] && Contains(t, marker)
  {
    Split(t[IndexOf(t, marker).value + |marker|..], marker)[0]
  }

  /** `TextAfter` is the second piece of `split`, as in the source. */
  lemma TextAfterIsSecondPiece(t: string, marker: string)
    requires marker != [] && Contains(t, marker)
    ensures |Split(t, marker)| >= 2 && TextAfter(t, marker) == Split(t, marker)[1]
  {
    var i := IndexOf(t, marker).value;
    assert Split(t, marker) == [t[..i]] + Split(t[i + |marker|..], marker);
  }

  /**
    * The text after a marker is a prefix of what follows the marker's first occurrence,
    * holds no further occurrence, and runs to the end of the line or to the next one.
    */
  lemma TextAfterIsNextPiece(t: string, marker: string)
    requires marker != [] && Contains(t, marker)
    ensures var rest := t[IndexOf(t, marker).value + |marker|..];
      var r := TextAfter(t, marker);
      StartsWith(rest, r) && !Contains(r, marker) && (r == rest || OccursAt(rest, marker, |r|))
  {
    var rest := t[IndexOf(t, marker).value + |marker|..];
    var r := TextAfter(t, marker);
    match IndexOf(rest, marker)
    case None =>
      assert r == rest;
    case Some(j) =>
      assert r == rest[..j];
      BeforeFirstOccurrence(rest, marker);
  }

  /**
    * A colour row `a, b, ...` under a colour header: kept as the trimmed first two
    * fields only when there is a comma, both fields are non-empty and neither is a
    * header word; the words are compared before trimming.
    */
  function ColorRow(t: string, headerWord: string): (r: Option<(string, string)>)
  {
    var p := Split(t, ",");
    if |p| >= 2 && p[0] != "" && p[1] != "" && p[0] != headerWord && p[1] != "HEX" then Some((Trim(p[0]), Trim(p[1])))
    else None
  }

  /** The comma fields of a product row (after its `- `): at least five, or nothing. */
  function ProductRow(body: string): (r: Option<MakeupProduct>)
    ensures r.Some? <==> |Split(body, ",")| >= 5
  {
    var p := Split(body, ",");
    if |p| >= 5 then Some(MakeupProduct(Trim(p[0]), Trim(p[1]), Trim(p[2]), Trim(p[3]), Trim(p[4])))
    else None
  }

  /** The parser's state between lines: `currentSection` and the record being filled. */
  datatype ParserState = ParserState(section: Section, data: AnalysisData)

  /** The effect of one marker line. */
  function ApplyMarker(st: ParserState, m: Marker, t: string): ParserState
    requires Contains(t, MarkerText(m))
  {
    var d := st.data;
    match m
    case SeasonTypeMarker =>
      var after := TextAfter(t, MarkerText(m));
      if after != "" then st.(data := d.(seasonType := Trim(after))) else st
    case JewelryToneMarker =>
      var p := Split(TextAfter(t, MarkerText(m)), ",");
      st.(data := d.(jewelryTone := NamedColor(Trim(p[0]), if |p| >= 2 then Trim(p[1]) else "")))
    case ImagePromptMarker =>
      st.(data := d.(outfit := d.outfit.(imagePrompt := Trim(TextAfter(t, MarkerText(m))))))
    case _ => st.(section := SectionOf(m))
  }

  /** The sections whose rows are makeup products. */
  predicate IsProductSection(s: Section) {
    s == Foundations || s == Cushion || s == Lipsticks || s == Blushes || s == Eyeshadows
  }

  /** The record after a product row in a product section. */
  function StoreProduct(mk: Makeup, section: Section, p: MakeupProduct): Makeup
    requires IsProductSection(section)
  {
    match section
    case Foundations => mk.(foundations := mk.foundations + [p])
    case Cushion => mk.(cushion := p)
    case Lipsticks => mk.(lipsticks := mk.lipsticks + [p])
    case Blushes => mk.(blushes := mk.blushes + [p])
    case Eyeshadows => mk.(eyeshadows := mk.eyeshadows + [p])
  }

  /** The effect of a data row (a non-empty line with no marker, not starting with `**`). */
  function ApplyRow(st: ParserState, t: string): ParserState {
    var d := st.data;
    if st.section == ColorExtraction && Contains(t, ",") then
      var c := ColorRow(t, "Label");
      if c.Some? then st.(data := d.(colorExtraction := d.colorExtraction + [ExtractedColor(c.value.0, c.value.1)]))
      else st
    else if st.section == ColorPalette && Contains(t, ",") then
      var c := ColorRow(t, "Name");
      if c.Some? then st.(data := d.(colorPalette := d.colorPalette + [NamedColor(c.value.0, c.value.1)]))
      else st
    else if st.section == HairColors && Contains(t, ",") then
      var c := ColorRow(t, "Name");
      if c.Some? then st.(data := d.(hairColors := d.hairColors + [NamedColor(c.value.0, c.value.1)]))
      else st
    else if IsProductSection(st.section) && StartsWith(t, "- ") then
      var p := ProductRow(ReplaceFirst(t, "- ", ""));
      if p.Some? then st.(data := d.(makeup := StoreProduct(d.makeup, st.section, p.value)))
      else st
    else if st.section == Celebrities && StartsWith(t, "- ") then
      st.(data := d.(celebrities := d.celebrities + [Trim(ReplaceFirst(t, "- ", ""))]))
    else st
  }

  /** One iteration of the parsing loop. */
  function Step(st: ParserState, line: string): ParserState {
    var t := Trim(line);
    if t == "" then st
    else match MatchMarker(t)
      case Some(m) => ApplyMarker(st, m, t)
      case None => if StartsWith(t, "**") then st else ApplyRow(st, t)
  }

  /** The loop over all lines, from a starting state (a left fold of `Step`). */
  function Run(st: ParserState, lines: seq<string>): ParserState
    decreases |lines|
  {
    if lines == [] then st else Step(Run(st, lines[..|lines| - 1]), lines[|lines| - 1])
  }

  /** The record before any line is read. */
  function InitialData(selectedStyle: string, outfitImage: Option<string>, generatedImageUrl: Option<string>): AnalysisData {
    var noProduct := MakeupProduct("", "", "", "", "");
    AnalysisData("", [], [], NamedColor("", ""), [], Makeup([], noProduct, [], [], []), [],
      Outfit(Or(Some(selectedStyle), "Casual"), "", Or(outfitImage, Or(generatedImageUrl, "/outfit-demo.png"))))
  }

  /** What the page shows for a stored report text. */
  function ParseAnalysis(text: string, init: AnalysisData): AnalysisData {
    Run(ParserState(Unset, init), Split(text, "\n")).data
  }

  /**
    * The `for (const line of lines)` loop of the page, with `currentSection` and the
    * record reassigned at each line (a `push` is a sequence append); it computes exactly
    * the fold `Run`.
    */
  method ParseLines(lines: seq<string>, init: AnalysisData) returns (data: AnalysisData)
    ensures data == Run(ParserState(Unset, init), lines).data
  {
    var currentSection := Unset;
    data := init;
    for i := 0 to |lines|
      invariant ParserState(currentSection, data) == Run(ParserState(Unset, init), lines[..i])
    {
      assert lines[..i + 1][..i] == lines[..i];
      var trimmedLine := Trim(lines[i]);
      if trimmedLine != "" {
        var marker := MatchMarker(trimmedLine);
        if marker.Some? {
          currentSection, data := ReadMarkerLine(currentSection, data, marker.value, trimmedLine);
        } else if !StartsWith(trimmedLine, "**") {
          currentSection, data := ReadDataRow(currentSection, data, trimmedLine);
        }
      }
    }
    assert lines[..|lines|] == lines;
  }

  /** The branches of the loop body for a line that contains a marker. */
  method ReadMarkerLine(currentSection: Section, data: AnalysisData, marker: Marker, trimmedLine: string)
    returns (section': Section, data': AnalysisData)
    requires Contains(trimmedLine, MarkerText(marker))
    ensures ParserState(section', data') == ApplyMarker(ParserState(currentSection, data), marker, trimmedLine)
  {
    section', data' := currentSection, data;
    if marker == SeasonTypeMarker {
      var after := TextAfter(trimmedLine, MarkerText(SeasonTypeMarker));
      if after != "" {
        data' := data'.(seasonType := Trim(after));
      }
    } else if marker == JewelryToneMarker {
      var parts := Split(TextAfter(trimmedLine, MarkerText(JewelryToneMarker)), ",");
      data' := data'.(jewelryTone := NamedColor(Trim(parts[0]), if |parts| >= 2 then Trim(parts[1]) else ""));
    } else if marker == ImagePromptMarker {
      var prompt := Trim(TextAfter(trimmedLine, MarkerText(ImagePromptMarker)));
      data' := data'.(outfit := data'.outfit.(imagePrompt := prompt));
    } else {
      section' := SectionOf(marker);
    }
  }

  /** The branches of the loop body for a data row, routed by the current section. */
  method ReadDataRow(currentSection: Section, data: AnalysisData, trimmedLine: string)
    returns (section': Section, data': AnalysisData)
    ensures ParserState(section', data') == ApplyRow(ParserState(currentSection, data), trimmedLine)
  {
    section', data' := currentSection, data;
    if currentSection == ColorExtraction && Contains(trimmedLine, ",") {
      var row := ColorRow(trimmedLine, "Label");
      if row.Some? {
        data' := data'.(colorExtraction := data'.colorExtraction + [ExtractedColor(row.value.0, row.value.1)]);
      }
    } else if currentSection == ColorPalette && Contains(trimmedLine, ",") {
      var row := ColorRow(trimmedLine, "Name");
      if row.Some? {
        data' := data'.(colorPalette := data'.colorPalette + [NamedColor(row.value.0, row.value.1)]);
      }
    } else if currentSection == HairColors && Contains(trimmedLine, ",") {
      var row := ColorRow(trimmedLine, "Name");
      if row.Some? {
        data' := data'.(hairColors := data'.hairColors + [NamedColor(row.value.0, row.value.1)]);
      }
    } else if IsProductSection(currentSection) && StartsWith(trimmedLine, "- ") {
      var product := ProductRow(ReplaceFirst(trimmedLine, "- ", ""));
      if product.Some? {
        var makeup := data'.makeup;
        if currentSection == Foundations {
          makeup := makeup.(foundations := makeup.foundations + [product.value]);
        } else if currentSection == Cushion {
          makeup := makeup.(cushion := product.value);
        } else if currentSection == Lipsticks {
          makeup := makeup.(lipsticks := makeup.lipsticks + [product.value]);
        } else if currentSection == Blushes {
          makeup := makeup.(blushes := makeup.blushes + [product.value]);
        } else {
          makeup := makeup.(eyeshadows := makeup.eyeshadows + [product.value]);
        }
        data' := data'.(makeup := makeup);
      }
    } else if currentSection == Celebrities && StartsWith(trimmedLine, "- ") {
      data' := data'.(celebrities := data'.celebrities + [Trim(ReplaceFirst(trimmedLine, "- ", ""))]);
    }
  }

  /**
    * The page's effect: with no stored report text (`null` or `''`) nothing is parsed;
    * otherwise the text is split on `\n` and parsed from the initial record.
    */
  method LoadReport(reportResult: Option<string>, selectedStyle: string, outfitImage: Option<string>, generatedImageUrl: Option<string>)
    returns (analysis: Option<AnalysisData>)
    ensures analysis.None? <==> !Truthy(reportResult)
    ensures analysis.Some? ==>
      analysis.value == ParseAnalysis(reportResult.value, InitialData(selectedStyle, outfitImage, generatedImageUrl))
  {
    if !Truthy(reportResult) {
      return None;
    }
    var lines := Split(reportResult.value, "\n");
    var data := ParseLines(lines, InitialData(selectedStyle, outfitImage, generatedImageUrl));
    return Some(data);
  }
}
