/** What the report page's parser guarantees, proved about `Step` and `Run`. */
module ReportParserProperties {
  import opened Wrappers
  import opened Strings
  import opened ReportParser

  /** An empty (or all-blank) line changes neither the section nor the record. */
  lemma BlankLineChangesNothing(st: ParserState, line: string)
    requires Trim(line) == ""
    ensures Step(st, line) == st
  {
  }

  /** Only the trimmed line matters. */
  lemma StepSeesTrimmedLine(st: ParserState, line: string)
    ensures Step(st, line) == Step(st, Trim(line))
  {
    TrimIdempotent(line);
  }

  /** The marker that acts is the first one, in test order, that the line contains. */
  lemma FirstMarkerWins(st: ParserState, line: string, m: Marker)
    requires Contains(Trim(line), MarkerText(m))
    requires forall m' :: Rank(m') < Rank(m) ==> !Contains(Trim(line), MarkerText(m'))
    ensures Step(st, line) == ApplyMarker(st, m, Trim(line))
  {
    var t := Trim(line);
    MatchMarkerIsFirst(t);
    MarkerOrderRanks();
    var r := MatchMarker(t);
    assert r.Some?;
    assert Rank(r.value) == Rank(m);
    assert r.value == MarkerOrder[Rank(m)] == m;
    assert OccursAt(t, MarkerText(m), IndexOf(t, MarkerText(m)).value);
  }

  /** A bold line that names no known marker is ignored. */
  lemma UnknownBoldLineChangesNothing(st: ParserState, line: string)
    requires StartsWith(Trim(line), "**") && MatchMarker(Trim(line)) == None
    ensures Step(st, line) == st
  {
  }

  /** A line with a marker is handled by that marker alone. */
  lemma StepOnMarker(st: ParserState, line: string, m: Marker)
    requires MatchMarker(Trim(line)) == Some(m)
    ensures Step(st, line) == ApplyMarker(st, m, Trim(line))
  {
    var t := Trim(line);
    assert OccursAt(t, MarkerText(m), IndexOf(t, MarkerText(m)).value);
  }

  /** A line that starts the row dispatch: non-empty, no marker, not bold. */
  predicate IsDataRow(line: string) {
    Trim(line) != "" && MatchMarker(Trim(line)) == None && !StartsWith(Trim(line), "**")
  }

  /** A data row is dispatched on the current section. */
  lemma StepOnDataRow(st: ParserState, line: string)
    requires IsDataRow(line)
    ensures Step(st, line) == ApplyRow(st, Trim(line))
  {
  }

  /** The list fields and the cushion of two records agree. */
  ghost predicate SameCollections(d: AnalysisData, e: AnalysisData) {
    && d.colorExtraction == e.colorExtraction
    && d.colorPalette == e.colorPalette
    && d.hairColors == e.hairColors
    && d.makeup == e.makeup
    && d.celebrities == e.celebrities
  }

  /** Every list of `d` is a prefix of the corresponding list of `e`. */
  ghost predicate CollectionsExtend(d: AnalysisData, e: AnalysisData) {
    && d.colorExtraction <= e.colorExtraction
    && d.colorPalette <= e.colorPalette
    && d.hairColors <= e.hairColors
    && d.makeup.foundations <= e.makeup.foundations
    && d.makeup.lipsticks <= e.makeup.lipsticks
    && d.makeup.blushes <= e.makeup.blushes
    && d.makeup.eyeshadows <= e.makeup.eyeshadows
    && d.celebrities <= e.celebrities
  }

  /** Season type, jewelry tone and image prompt lines never move `currentSection` and touch no list. */
  lemma InlineMarkerKeepsSection(st: ParserState, line: string)
    requires MatchMarker(Trim(line)).Some? && IsInline(MatchMarker(Trim(line)).value)
    ensures Step(st, line).section == st.section
    ensures SameCollections(st.data, Step(st, line).data)
  {
  }

  /** The season type is replaced by the trimmed text after its marker, and only when that text is non-empty. */
  lemma SeasonTypeNeedsText(st: ParserState, t: string)
    requires Contains(t, MarkerText(SeasonTypeMarker))
    ensures var after := TextAfter(t, MarkerText(SeasonTypeMarker));
      ApplyMarker(st, SeasonTypeMarker, t) == if after == "" then st else st.(data := st.data.(seasonType := Trim(after)))
  {
  }

  /** A jewelry tone line with a comma: name and hex are the trimmed first two comma fields. */
  lemma JewelryToneFields(st: ParserState, t: string, name: string, hex: string, rest: string)
    requires Contains(t, MarkerText(JewelryToneMarker))
    requires TextAfter(t, MarkerText(JewelryToneMarker)) == name + "," + hex + rest
    requires ',' !in name && ',' !in hex && (rest == "" || rest[0] == ',')
    ensures ApplyMarker(st, JewelryToneMarker, t) == st.(data := st.data.(jewelryTone := NamedColor(Trim(name), Trim(hex))))
  {
    SplitCharFields([name, hex], ',', rest);
    assert Join([name, hex], ",") == name + "," + hex;
    var p := Split(name + "," + hex + rest, ",");
    assert p[0] == name && p[1] == hex by {
      assert p[..2] == [name, hex];
    }
  }

  /** A jewelry tone line without a comma still overwrites the tone, with an empty hex. */
  lemma JewelryToneWithoutComma(st: ParserState, t: string)
    requires Contains(t, MarkerText(JewelryToneMarker))
    requires ',' !in TextAfter(t, MarkerText(JewelryToneMarker))
    ensures ApplyMarker(st, JewelryToneMarker, t) ==
      st.(data := st.data.(jewelryTone := NamedColor(Trim(TextAfter(t, MarkerText(JewelryToneMarker))), "")))
  {
    SplitCharNone(TextAfter(t, MarkerText(JewelryToneMarker)), ',');
  }

  /** The image prompt line always overwrites the prompt with the trimmed text after its marker. */
  lemma ImagePromptOverwritten(st: ParserState, t: string)
    requires Contains(t, MarkerText(ImagePromptMarker))
    ensures ApplyMarker(st, ImagePromptMarker, t) ==
      st.(data := st.data.(outfit := st.data.outfit.(imagePrompt := Trim(TextAfter(t, MarkerText(ImagePromptMarker))))))
  {
  }

  /**
    * A colour row `a,b` (optionally followed by more fields) is kept exactly when both
    * fields are non-empty and are not the header words, compared untrimmed; the stored
    * values are trimmed and later fields are ignored.
    */
  lemma ColorRowFields(a: string, b: string, rest: string, headerWord: string)
    requires ',' !in a && ',' !in b && (rest == "" || rest[0] == ',')
    ensures Contains(a + "," + b + rest, ",")
    ensures ColorRow(a + "," + b + rest, headerWord) ==
      if a != "" && b != "" && a != headerWord && b != "HEX" then Some((Trim(a), Trim(b))) else None
  {
    SplitCharFields([a, b], ',', rest);
    assert Join([a, b], ",") == a + "," + b;
    ContainsChar(a + "," + b + rest, ',');
  }

  /** The header rows the model is asked for are dropped (`Label, HEX` here, `Name, HEX` below)... */
  lemma LabelHeaderRowDropped()
    ensures ColorRow("Label, HEX", "Label") == None
  {
    ColorRowFields("Label", " HEX", "", "Label");
    assert "Label" + "," + " HEX" + "" == "Label, HEX";
  }

  lemma NameHeaderRowDropped()
    ensures ColorRow("Name, HEX", "Name") == None
  {
    ColorRowFields("Name", " HEX", "", "Name");
    assert "Name" + "," + " HEX" + "" == "Name, HEX";
  }

  /**
    * ...but because the words are compared before trimming, a header row with white
    * space before its comma (`Label , HEX`) is kept as a colour named after the header.
    */
  lemma SpacedHeaderRowKept(headerWord: string, pad: string)
    requires headerWord != "" && IsTrimmed(headerWord) && ',' !in headerWord
    requires pad != "" && AllSpace(pad)
    ensures ColorRow(headerWord + pad + ", HEX", headerWord) == Some((headerWord, "HEX"))
  {
    SpaceHasNoComma(pad);
    ColorRowFields(headerWord + pad, " HEX", "", headerWord);
    assert headerWord + pad + "," + " HEX" + "" == headerWord + pad + ", HEX";
    assert headerWord + pad != headerWord by { assert |headerWord + pad| > |headerWord|; }
    SpacedFieldsTrimmed(headerWord, pad);
  }

  lemma SpaceHasNoComma(pad: string)
    requires AllSpace(pad)
    ensures ',' !in pad
  {
    forall k | 0 <= k < |pad| ensures pad[k] != ',' {
      assert IsSpace(pad[k]);
    }
  }

  lemma SpacedFieldsTrimmed(headerWord: string, pad: string)
    requires IsTrimmed(headerWord) && AllSpace(pad)
    ensures Trim(headerWord + pad) == headerWord && Trim(" HEX") == "HEX"
  {
    TrimOfPadded("", headerWord, pad);
    assert "" + headerWord + pad == headerWord + pad;
    TrimOfPadded(" ", "HEX", "");
    assert " " + "HEX" + "" == " HEX";
  }

  /** A product row has at least five comma fields, that is, at least four commas. */
  lemma ProductRowNeedsFourCommas(body: string)
    ensures ProductRow(body).Some? <==> Count(',', body) >= 4
  {
    SplitCharCount(body, ',');
  }

  /** A product row's five leading comma-free fields are stored trimmed; later fields are ignored. */
  lemma ProductRowFields(fs: seq<string>, rest: string)
    requires |fs| == 5 && forall k :: 0 <= k < 5 ==> ',' !in fs[k]
    requires rest == "" || rest[0] == ','
    ensures ProductRow(Join(fs, ",") + rest) ==
      Some(MakeupProduct(Trim(fs[0]), Trim(fs[1]), Trim(fs[2]), Trim(fs[3]), Trim(fs[4])))
  {
    SplitCharFields(fs, ',', rest);
    var p := Split(Join(fs, ",") + rest, ",");
    assert p[0] == fs[0] && p[1] == fs[1] && p[2] == fs[2] && p[3] == fs[3] && p[4] == fs[4] by {
      assert p[..5] == fs;
    }
  }

  /** In a product section, a row without a leading `- ` is dropped. */
  lemma ProductRowNeedsDash(st: ParserState, t: string)
    requires IsProductSection(st.section) && !StartsWith(t, "- ")
    ensures ApplyRow(st, t) == st
  {
  }

  /** In a product section, a `- ` row is parsed from the text after the dash and stored by `StoreProduct`. */
  lemma ProductRowStored(st: ParserState, t: string)
    requires IsProductSection(st.section) && StartsWith(t, "- ")
    ensures var p := ProductRow(t[2..]);
      ApplyRow(st, t) == if p.None? then st else st.(data := st.data.(makeup := StoreProduct(st.data.makeup, st.section, p.value)))
  {
    assert ReplaceFirst(t, "- ", "") == t[2..] by { assert "" + t[2..] == t[2..]; }
  }

  /** The cushion is overwritten: after a valid row in the cushion section it is that row's product, whatever came before. */
  lemma CushionLastRowWins(st: ParserState, t: string)
    requires st.section == Cushion && StartsWith(t, "- ") && ProductRow(t[2..]).Some?
    ensures ApplyRow(st, t) == st.(data := st.data.(makeup := st.data.makeup.(cushion := ProductRow(t[2..]).value)))
  {
    ProductRowStored(st, t);
  }

  /** A celebrity row `- name` appends the trimmed name. */
  lemma CelebrityRowAppended(st: ParserState, t: string)
    requires st.section == Celebrities && StartsWith(t, "- ")
    ensures ApplyRow(st, t) == st.(data := st.data.(celebrities := st.data.celebrities + [Trim(t[2..])]))
  {
    assert ReplaceFirst(t, "- ", "") == t[2..] by { assert "" + t[2..] == t[2..]; }
  }

  /** The season type, jewelry tone and outfit of two records agree. */
  ghost predicate SameInlineFields(d: AnalysisData, e: AnalysisData) {
    d.seasonType == e.seasonType && d.jewelryTone == e.jewelryTone && d.outfit == e.outfit
  }

  /** A data row keeps the section and the inline fields, and never removes or reorders list entries. */
  lemma ApplyRowOnlyAppends(st: ParserState, t: string)
    ensures ApplyRow(st, t).section == st.section
    ensures SameInlineFields(st.data, ApplyRow(st, t).data)
    ensures CollectionsExtend(st.data, ApplyRow(st, t).data)
  {
    if st.section in {ColorExtraction, ColorPalette, HairColors} && Contains(t, ",") {
      ColorRowOnlyAppends(st, t);
    } else if IsProductSection(st.section) && StartsWith(t, "- ") {
      ProductRowStored(st, t);
      var p := ProductRow(t[2..]);
      if p.Some? {
        StoreProductOnlyAppends(st.data.makeup, st.section, p.value);
      }
    } else if st.section == Celebrities && StartsWith(t, "- ") {
      CelebrityRowAppended(st, t);
    } else {
      assert ApplyRow(st, t) == st;
    }
  }

  lemma StoreProductOnlyAppends(mk: Makeup, section: Section, p: MakeupProduct)
    requires IsProductSection(section)
    ensures var mk' := StoreProduct(mk, section, p);
      && mk.foundations <= mk'.foundations && mk.lipsticks <= mk'.lipsticks
      && mk.blushes <= mk'.blushes && mk.eyeshadows <= mk'.eyeshadows
  {
  }

  lemma ColorRowOnlyAppends(st: ParserState, t: string)
    requires st.section in {ColorExtraction, ColorPalette, HairColors} && Contains(t, ",")
    ensures ApplyRow(st, t).section == st.section
    ensures SameInlineFields(st.data, ApplyRow(st, t).data)
    ensures CollectionsExtend(st.data, ApplyRow(st, t).data)
  {
  }

  /** One line never removes or reorders list entries. */
  lemma StepOnlyAppends(st: ParserState, line: string)
    ensures CollectionsExtend(st.data, Step(st, line).data)
  {
    var t := Trim(line);
    if t != "" {
      match MatchMarker(t)
      case Some(m) =>
        StepOnMarker(st, line, m);
        ApplyMarkerKeepsCollections(st, m, t);
      case None =>
        if !StartsWith(t, "**") {
          StepOnDataRow(st, line);
          ApplyRowOnlyAppends(st, t);
        }
    }
  }

  /** A marker line never touches a list. */
  lemma ApplyMarkerKeepsCollections(st: ParserState, m: Marker, t: string)
    requires Contains(t, MarkerText(m))
    ensures SameCollections(st.data, ApplyMarker(st, m, t).data)
  {
  }

  /** Reading `a` then `b` is reading `a + b`. */
  lemma {:induction false} RunConcat(st: ParserState, a: seq<string>, b: seq<string>)
    ensures Run(st, a + b) == Run(Run(st, a), b)
    decreases |b|
  {
    if b == [] {
      assert a + b == a;
    } else {
      assert (a + b)[..|a + b| - 1] == a + b[..|b| - 1];
      RunConcat(st, a, b[..|b| - 1]);
    }
  }

  /** Over a whole text, every list only grows by appending, in input order. */
  lemma {:induction false} RunOnlyAppends(st: ParserState, lines: seq<string>)
    ensures CollectionsExtend(st.data, Run(st, lines).data)
    decreases |lines|
  {
    if lines != [] {
      RunOnlyAppends(st, lines[..|lines| - 1]);
      StepOnlyAppends(Run(st, lines[..|lines| - 1]), lines[|lines| - 1]);
    }
  }

  /** A line that opens no section: blank, a data row, or an inline marker line. */
  predicate OpensNoSection(line: string) {
    var m := MatchMarker(Trim(line));
    m.None? || IsInline(m.value)
  }

  /** Data rows before the first section header are dropped: until a header is seen, no list changes. */
  lemma {:induction false} RowsBeforeFirstHeaderDropped(d: AnalysisData, lines: seq<string>)
    requires forall k :: 0 <= k < |lines| ==> OpensNoSection(lines[k])
    ensures Run(ParserState(Unset, d), lines).section == Unset
    ensures SameCollections(d, Run(ParserState(Unset, d), lines).data)
    decreases |lines|
  {
    if lines != [] {
      RowsBeforeFirstHeaderDropped(d, lines[..|lines| - 1]);
      StepBeforeFirstHeader(Run(ParserState(Unset, d), lines[..|lines| - 1]), lines[|lines| - 1]);
    }
  }

  /** With no section open, a line that opens none leaves the section unset and the lists alone. */
  lemma StepBeforeFirstHeader(st: ParserState, line: string)
    requires st.section == Unset && OpensNoSection(line)
    ensures Step(st, line).section == Unset
    ensures SameCollections(st.data, Step(st, line).data)
  {
    var t := Trim(line);
    if t == "" {
      BlankLineChangesNothing(st, line);
    } else if MatchMarker(t).Some? {
      InlineMarkerKeepsSection(st, line);
    } else if StartsWith(t, "**") {
      UnknownBoldLineChangesNothing(st, line);
    } else {
      StepOnDataRow(st, line);
      RowWithoutSectionDropped(st, t);
    }
  }

  /** Before any header, data rows go nowhere. */
  lemma RowWithoutSectionDropped(st: ParserState, t: string)
    requires st.section == Unset
    ensures ApplyRow(st, t) == st
  {
  }

  predicate ProductTrimmed(p: MakeupProduct) {
    IsTrimmed(p.brand) && IsTrimmed(p.product) && IsTrimmed(p.shade) && IsTrimmed(p.hex) && IsTrimmed(p.url)
  }

  ghost predicate ProductsTrimmed(ps: seq<MakeupProduct>) {
    forall p :: p in ps ==> ProductTrimmed(p)
  }

  ghost predicate ColorsNamed(cs: seq<NamedColor>) {
    forall c :: c in cs ==> c.name != "" && IsTrimmed(c.name) && IsTrimmed(c.hex)
  }

  ghost predicate ExtractedLabelled(cs: seq<ExtractedColor>) {
    forall c :: c in cs ==> c.colorLabel != "" && IsTrimmed(c.colorLabel) && IsTrimmed(c.hex)
  }

  ghost predicate AllTrimmed(ns: seq<string>) {
    forall n :: n in ns ==> IsTrimmed(n)
  }

  /**
    * Every parsed string is stored trimmed, and every stored colour has a non-empty
    * label or name (the first field of a trimmed line cannot trim to nothing).
    */
  ghost predicate WellFormed(d: AnalysisData) {
    && IsTrimmed(d.seasonType) && IsTrimmed(d.jewelryTone.name) && IsTrimmed(d.jewelryTone.hex)
    && IsTrimmed(d.outfit.imagePrompt)
    && ExtractedLabelled(d.colorExtraction) && ColorsNamed(d.colorPalette) && ColorsNamed(d.hairColors)
    && ProductTrimmed(d.makeup.cushion)
    && ProductsTrimmed(d.makeup.foundations) && ProductsTrimmed(d.makeup.lipsticks)
    && ProductsTrimmed(d.makeup.blushes) && ProductsTrimmed(d.makeup.eyeshadows)
    && AllTrimmed(d.celebrities)
  }

  /** A kept colour row of a trimmed line has a non-empty trimmed first field. */
  lemma ColorRowNameNonEmpty(t: string, headerWord: string)
    requires IsTrimmed(t) && ColorRow(t, headerWord).Some?
    ensures ColorRow(t, headerWord).value.0 != ""
  {
    var i := IndexOf(t, ",").value;
    var p0 := Split(t, ",")[0];
    assert p0 == t[..i];
    assert p0 != "" && p0[0] == t[0];
    TrimKeepsNonSpaceStart(p0);
  }

  /** The colour branches of the row dispatch keep the record well formed. */
  lemma ColorRowKeepsWellFormed(st: ParserState, t: string)
    requires WellFormed(st.data) && IsTrimmed(t)
    requires st.section in {ColorExtraction, ColorPalette, HairColors} && Contains(t, ",")
    ensures WellFormed(ApplyRow(st, t).data)
  {
    if st.section == ColorExtraction && Contains(t, ",") {
      var c := ColorRow(t, "Label");
      if c.Some? {
        ColorRowNameNonEmpty(t, "Label");
        assert ApplyRow(st, t).data == st.data.(colorExtraction := st.data.colorExtraction + [ExtractedColor(c.value.0, c.value.1)]);
      }
    } else if st.section == ColorPalette && Contains(t, ",") {
      var c := ColorRow(t, "Name");
      if c.Some? {
        ColorRowNameNonEmpty(t, "Name");
        assert ApplyRow(st, t).data == st.data.(colorPalette := st.data.colorPalette + [NamedColor(c.value.0, c.value.1)]);
      }
    } else if st.section == HairColors && Contains(t, ",") {
      var c := ColorRow(t, "Name");
      if c.Some? {
        ColorRowNameNonEmpty(t, "Name");
        assert ApplyRow(st, t).data == st.data.(hairColors := st.data.hairColors + [NamedColor(c.value.0, c.value.1)]);
      }
    }
  }

  lemma ApplyRowKeepsWellFormed(st: ParserState, t: string)
    requires WellFormed(st.data) && IsTrimmed(t)
    ensures WellFormed(ApplyRow(st, t).data)
  {
    if st.section in {ColorExtraction, ColorPalette, HairColors} && Contains(t, ",") {
      ColorRowKeepsWellFormed(st, t);
    } else if IsProductSection(st.section) && StartsWith(t, "- ") {
      ProductRowKeepsWellFormed(st, t);
    } else if st.section == Celebrities && StartsWith(t, "- ") {
      CelebrityRowAppended(st, t);
    } else {
      assert ApplyRow(st, t) == st;
    }
  }

  lemma ProductRowKeepsWellFormed(st: ParserState, t: string)
    requires WellFormed(st.data) && IsProductSection(st.section) && StartsWith(t, "- ")
    ensures WellFormed(ApplyRow(st, t).data)
  {
    ProductRowStored(st, t);
    var p := ProductRow(t[2..]);
    if p.Some? {
      StoreProductKeepsTrimmed(st.data.makeup, st.section, p.value);
    }
  }

  lemma StoreProductKeepsTrimmed(mk: Makeup, section: Section, p: MakeupProduct)
    requires IsProductSection(section) && ProductTrimmed(p) && ProductTrimmed(mk.cushion)
    requires ProductsTrimmed(mk.foundations) && ProductsTrimmed(mk.lipsticks)
    requires ProductsTrimmed(mk.blushes) && ProductsTrimmed(mk.eyeshadows)
    ensures var mk' := StoreProduct(mk, section, p);
      && ProductTrimmed(mk'.cushion)
      && ProductsTrimmed(mk'.foundations) && ProductsTrimmed(mk'.lipsticks)
      && ProductsTrimmed(mk'.blushes) && ProductsTrimmed(mk'.eyeshadows)
  {
  }

  lemma ApplyMarkerKeepsWellFormed(st: ParserState, m: Marker, t: string)
    requires WellFormed(st.data) && Contains(t, MarkerText(m))
    ensures WellFormed(ApplyMarker(st, m, t).data)
  {
  }

  lemma StepKeepsWellFormed(st: ParserState, line: string)
    requires WellFormed(st.data)
    ensures WellFormed(Step(st, line).data)
  {
    var t := Trim(line);
    if t != "" {
      match MatchMarker(t)
      case Some(m) => ApplyMarkerKeepsWellFormed(st, m, t);
      case None =>
        if !StartsWith(t, "**") {
          ApplyRowKeepsWellFormed(st, t);
        }
    }
  }

  /** The initial record is well formed, and parsing keeps it so. */
  lemma {:induction false} RunKeepsWellFormed(st: ParserState, lines: seq<string>)
    requires WellFormed(st.data)
    ensures WellFormed(Run(st, lines).data)
    decreases |lines|
  {
    if lines != [] {
      RunKeepsWellFormed(st, lines[..|lines| - 1]);
      StepKeepsWellFormed(Run(st, lines[..|lines| - 1]), lines[|lines| - 1]);
    }
  }

  /** The defaults before parsing: empty lists and strings, the style and image fallbacks. */
  lemma InitialDefaults(selectedStyle: string, outfitImage: Option<string>, generatedImageUrl: Option<string>)
    ensures var d := InitialData(selectedStyle, outfitImage, generatedImageUrl);
      && d.seasonType == "" && d.colorExtraction == [] && d.colorPalette == [] && d.hairColors == []
      && d.jewelryTone == NamedColor("", "") && d.celebrities == [] && d.outfit.imagePrompt == ""
      && d.makeup.foundations == [] && d.makeup.lipsticks == [] && d.makeup.blushes == [] && d.makeup.eyeshadows == []
      && d.makeup.cushion == MakeupProduct("", "", "", "", "")
      && d.outfit.styleType == (if selectedStyle == "" then "Casual" else selectedStyle)
      && d.outfit.generatedImage != ""
      && (Truthy(outfitImage) ==> d.outfit.generatedImage == outfitImage.value)
      && (!Truthy(outfitImage) && Truthy(generatedImageUrl) ==> d.outfit.generatedImage == generatedImageUrl.value)
      && (!Truthy(outfitImage) && !Truthy(generatedImageUrl) ==> d.outfit.generatedImage == "/outfit-demo.png")
      && WellFormed(d)
  {
  }

  /** Every report the page shows is well formed and extends the defaults only by appending. */
  lemma ParsedReportWellFormed(text: string, selectedStyle: string, outfitImage: Option<string>, generatedImageUrl: Option<string>)
    ensures var init := InitialData(selectedStyle, outfitImage, generatedImageUrl);
      WellFormed(ParseAnalysis(text, init)) && ParseAnalysis(text, init).outfit.styleType == init.outfit.styleType
  {
    var init := InitialData(selectedStyle, outfitImage, generatedImageUrl);
    InitialDefaults(selectedStyle, outfitImage, generatedImageUrl);
    RunKeepsWellFormed(ParserState(Unset, init), Split(text, "\n"));
    RunKeepsStyle(ParserState(Unset, init), Split(text, "\n"));
  }

  /** The style type and the generated image are never touched by parsing. */
  lemma {:induction false} RunKeepsStyle(st: ParserState, lines: seq<string>)
    ensures Run(st, lines).data.outfit.styleType == st.data.outfit.styleType
    ensures Run(st, lines).data.outfit.generatedImage == st.data.outfit.generatedImage
    decreases |lines|
  {
    if lines != [] {
      RunKeepsStyle(st, lines[..|lines| - 1]);
      StepKeepsStyle(Run(st, lines[..|lines| - 1]), lines[|lines| - 1]);
    }
  }

  lemma StepKeepsStyle(st: ParserState, line: string)
    ensures Step(st, line).data.outfit.styleType == st.data.outfit.styleType
    ensures Step(st, line).data.outfit.generatedImage == st.data.outfit.generatedImage
  {
    var t := Trim(line);
    if t != "" {
      match MatchMarker(t)
      case Some(m) => StepOnMarker(st, line, m);
      case None =>
        if !StartsWith(t, "**") {
          StepOnDataRow(st, line);
          ApplyRowOnlyAppends(st, t);
        }
    }
  }
}
