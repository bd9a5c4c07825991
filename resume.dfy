/** Skill extraction from a resume saved as an HTML table (3/3.2.py,
    `extract_skills_from_resume`). The resume is given as its list of lines;
    each table row is a marker line followed by a category cell and a value
    cell, and five known categories are decomposed into soft and hard skills. */
module Resume {
  import opened Wrappers
  import opened Text

  const RowOdd := "<tr class=odd>"
  const RowEven := "<tr class=even>"
  const CategoryCell := "<td class=c1>"
  const ValueCell := "<td class=c2>"
  const CellEnd := "</td>"
  const LineBreak := "<br>"

  const Qualities := "Личные качества"
  const Hobbies := "Увлечения"
  const Achievements := "Личные достижения"
  const Languages := "Владение языками"
  const Specialisation := "Профессиональная специализация и владение компьютером"

  /** A category cell and its value cell. */
  datatype Row = Row(category: string, value: string)

  /** The two skill lists before clean-up. */
  datatype SkillLists = SkillLists(soft: seq<string>, hard: seq<string>)

  // ---------------------------------------------------------------------
  // Row scanner
  // ---------------------------------------------------------------------

  /** A line that opens a table row, in either of its two styles. */
  predicate IsRowStart(line: string) {
    Contains(Strip(line), RowOdd) || Contains(Strip(line), RowEven)
  }

  /** The trimmed text of a cell line once its opening marker and `</td>` are removed. */
  function CellText(line: string, open: string): (r: string)
    requires open != []
    ensures Strip(r) == r
  {
    var t := Replace(Replace(Strip(line), open, ""), CellEnd, "");
    StripIdempotent(t);
    Strip(t)
  }

  /** A line that may continue an empty value: it neither opens nor closes a row. */
  predicate IsContinuation(line: string) {
    !StartsWith(Strip(line), "<tr") && !StartsWith(Strip(line), "</tr")
  }

  /** The row whose marker is line `i`, if lines `i + 1` and `i + 2` are its
      category and value cells; an empty value is taken from line `i + 3`. */
  function ReadRow(lines: seq<string>, i: nat): (r: Option<Row>)
    requires i < |lines|
    ensures r.Some? <==>
      && IsRowStart(lines[i])
      && i + 2 < |lines|
      && Contains(Strip(lines[i + 1]), CategoryCell)
      && Contains(Strip(lines[i + 2]), ValueCell)
    ensures r.Some? ==> r.value.category == CellText(lines[i + 1], CategoryCell)
    ensures r.Some? && CellText(lines[i + 2], ValueCell) != [] ==>
      r.value.value == CellText(lines[i + 2], ValueCell)
    ensures r.Some? && CellText(lines[i + 2], ValueCell) == [] ==>
      r.value.value ==
        if i + 3 < |lines| && IsContinuation(lines[i + 3])
        then Strip(Replace(Strip(lines[i + 3]), LineBreak, " "))
        else []
    ensures r.Some? ==> Strip(r.value.category) == r.value.category && Strip(r.value.value) == r.value.value
  {
    if !IsRowStart(lines[i]) || i + 2 >= |lines| then None
    else if !Contains(Strip(lines[i + 1]), CategoryCell) || !Contains(Strip(lines[i + 2]), ValueCell) then None
    else
      var category := CellText(lines[i + 1], CategoryCell);
      var value := CellText(lines[i + 2], ValueCell);
      if value == [] && i + 3 < |lines| && IsContinuation(lines[i + 3]) then
        var next := Replace(Strip(lines[i + 3]), LineBreak, " ");
        StripIdempotent(next);
        Some(Row(category, Strip(next)))
      else
        Some(Row(category, value))
  }

  // ---------------------------------------------------------------------
  // Decomposition of one value, category by category
  // ---------------------------------------------------------------------

  /** Personal qualities: the trimmed comma-separated pieces of the value. */
  function QualitySkills(value: string): (r: seq<string>)
    ensures |r| == |Split(value, ",")|
    ensures forall k :: 0 <= k < |r| ==> r[k] == Strip(Split(value, ",")[k])
    ensures forall s :: s in r ==> ',' !in s && Strip(s) == s
  {
    StripAllSplitChar(value, ',');
    StripAll(Split(value, ","))
  }

  /** One `;`-separated hobby entry: a plain hobby, or `label: a, b` giving
      the label and each listed item; an empty entry gives nothing. */
  function HobbyEntrySkills(piece: string): seq<string> {
    var hobby := Strip(piece);
    if hobby != [] && !Contains(hobby, ":") then [hobby]
    else if Contains(hobby, ":") then
      var (kind, items) := SplitOnce(hobby, ":");
      [Strip(kind)] + StripAll(Split(items, ","))
    else []
  }

  /** Hobbies: line breaks become `;`, and each `;` entry is decomposed. */
  function HobbySkills(value: string): seq<string> {
    FlatMap(HobbyEntrySkills, Split(Replace(value, LineBreak, ";"), ";"))
  }

  /** One `;`-separated language entry: `name - level` becomes `name (level)`,
      split at the first hyphen; any other entry is kept trimmed. */
  function LanguageEntry(piece: string): string {
    var lang := Strip(piece);
    if Contains(lang, "-") then
      var (name, level) := SplitOnce(lang, "-");
      Strip(name) + " (" + Strip(level) + ")"
    else lang
  }

  function LanguageEntrySkills(piece: string): seq<string> {
    [LanguageEntry(piece)]
  }

  /** Languages: one skill per `;` entry, empty entries included. */
  function LanguageSkills(value: string): seq<string> {
    FlatMap(LanguageEntrySkills, Split(value, ";"))
  }

  /** Whether the specialisation lookahead consumes a line. */
  predicate Continues(line: string) {
    || Contains(line, ValueCell)
    || Contains(line, LineBreak)
    || (Strip(line) != [] && !StartsWith(Strip(line), "<tr"))
  }

  /** What the lookahead keeps of a consumed line: the trimmed line, with the
      value-cell markers removed when it holds a value cell, unless that is
      empty or opens a row. */
  function KeptText(line: string): (r: seq<string>)
    ensures |r| <= 1
    ensures forall s :: s in r ==> s != [] && !StartsWith(s, "<tr")
    ensures !Contains(Strip(line), ValueCell) && Strip(line) != [] && !StartsWith(Strip(line), "<tr") ==>
      r == [Strip(line)]
  {
    var content := Strip(line);
    var content' := if Contains(content, ValueCell) then Replace(Replace(content, ValueCell, ""), CellEnd, "") else content;
    if content' != [] && !StartsWith(content', "<tr") then [content'] else []
  }

  /** The text the lookahead collects from line `j` on, up to the first line it does not consume. */
  function Lookahead(lines: seq<string>, j: nat): (r: seq<string>)
    ensures forall s :: s in r ==> s != [] && !StartsWith(s, "<tr")
    decreases |lines| - j
  {
    if j < |lines| && Continues(lines[j]) then KeptText(lines[j]) + Lookahead(lines, j + 1) else []
  }

  /** An enumerated section `N. text` loses everything up to its first `.`. */
  function DropNumbering(section: string): string {
    if Contains(section, ".") && section != [] && IsDigit(section[0]) then Strip(SplitOnce(section, ".").1)
    else section
  }

  /** `split_composite_skills`: text with a `:` keeps only the trimmed comma
      pieces after the first colon; other text is one skill. */
  function CompositeSkills(text: string): (r: seq<string>)
    ensures !Contains(text, ":") ==> r == [text]
    ensures Contains(text, ":") ==> forall s :: s in r ==> ',' !in s && Strip(s) == s
  {
    if Contains(text, ":") then
      var items := SplitOnce(text, ":").1;
      StripAllSplitChar(items, ',');
      StripAll(Split(items, ","))
    else [text]
  }

  /** One `<br>`-separated section of the specialisation text. */
  function SectionSkills(section: string): seq<string> {
    var s := Strip(section);
    if s == [] || IsBlank(s) then [] else CompositeSkills(DropNumbering(s))
  }

  /** Professional specialisation: the collected lines are joined with spaces,
      cut at `<br>`, and each section is decomposed. */
  function SpecialisationSkills(collected: seq<string>): seq<string> {
    FlatMap(SectionSkills, Split(Join(collected, " "), LineBreak))
  }

  // ---------------------------------------------------------------------
  // Routing rows to buckets and collecting the raw lists
  // ---------------------------------------------------------------------

  /** The skills row `i` adds to the soft and hard lists. */
  function RowSkills(lines: seq<string>, i: nat): (r: SkillLists)
    requires i < |lines|
    ensures ReadRow(lines, i).None? ==> r == SkillLists([], [])
    ensures r.soft != [] ==> ReadRow(lines, i).Some? && ReadRow(lines, i).value.category in {Qualities, Hobbies, Achievements}
    ensures r.hard != [] ==> ReadRow(lines, i).Some? && ReadRow(lines, i).value.category in {Languages, Specialisation}
  {
    match ReadRow(lines, i)
    case None => SkillLists([], [])
    case Some(row) =>
      if row.category == Qualities && row.value != [] then SkillLists(QualitySkills(row.value), [])
      else if row.category == Hobbies && row.value != [] then SkillLists(HobbySkills(row.value), [])
      else if row.category == Achievements && row.value != [] then SkillLists([row.value], [])
      else if row.category == Languages && row.value != [] then SkillLists([], LanguageSkills(row.value))
      else if row.category == Specialisation && row.value != [] then
        SkillLists([], SpecialisationSkills(Lookahead(lines, i + 2)))
      else SkillLists([], [])
  }

  /** The soft lists and the hard lists of `parts`, each concatenated in order. */
  function Concat(parts: seq<SkillLists>): SkillLists {
    if parts == [] then SkillLists([], [])
    else
      var before := Concat(parts[..|parts| - 1]);
      var last := parts[|parts| - 1];
      SkillLists(before.soft + last.soft, before.hard + last.hard)
  }

  /** What each line's row adds, line by line. */
  function RowsOf(lines: seq<string>): (r: seq<SkillLists>)
    ensures |r| == |lines|
  {
    seq(|lines|, i requires 0 <= i < |lines| => RowSkills(lines, i))
  }

  /** The soft and hard lists once every line has been scanned, before clean-up. */
  function RawSkills(lines: seq<string>): SkillLists {
    Concat(RowsOf(lines))
  }

  /** A skill is in a concatenated list exactly when one of the parts holds it. */
  lemma {:induction false} ConcatMember(parts: seq<SkillLists>, s: string)
    ensures s in Concat(parts).soft <==> exists i :: 0 <= i < |parts| && s in parts[i].soft
    ensures s in Concat(parts).hard <==> exists i :: 0 <= i < |parts| && s in parts[i].hard
    decreases |parts|
  {
    if parts != [] {
      var init := parts[..|parts| - 1];
      ConcatMember(init, s);
      assert forall i :: 0 <= i < |init| ==> init[i] == parts[i];
    }
  }

  // ---------------------------------------------------------------------
  // The extractor, as the source runs it
  // ---------------------------------------------------------------------

  /** The body of the hobby loop on one `;` entry. */
  method SplitHobby(piece: string) returns (skills: seq<string>)
    ensures skills == HobbyEntrySkills(piece)
  {
    var hobby := Strip(piece);
    if hobby != [] && !Contains(hobby, ":") {
      skills := [hobby];
    } else if Contains(hobby, ":") {
      var (hobbyType, hobbyList) := SplitOnce(hobby, ":");
      skills := [Strip(hobbyType)] + StripAll(Split(hobbyList, ","));
    } else {
      skills := [];
    }
  }

  /** The hobby loop: each `;` entry adds its hobby, or its label and items. */
  method SplitHobbies(value: string) returns (skills: seq<string>)
    ensures skills == HobbySkills(value)
  {
    var hobbies := Split(Replace(value, LineBreak, ";"), ";");
    skills := [];
    for k := 0 to |hobbies|
      invariant skills == FlatMap(HobbyEntrySkills, hobbies[..k])
    {
      var added := SplitHobby(hobbies[k]);
      FlatMapStep(HobbyEntrySkills, hobbies, k);
      skills := skills + added;
    }
    assert hobbies[..|hobbies|] == hobbies;
  }

  /** The body of the language loop on one `;` entry. */
  method SplitLanguage(piece: string) returns (skill: string)
    ensures skill == LanguageEntry(piece)
  {
    var lang := Strip(piece);
    if Contains(lang, "-") {
      var (langName, level) := SplitOnce(lang, "-");
      skill := Strip(langName) + " (" + Strip(level) + ")";
    } else {
      skill := lang;
    }
  }

  /** The language loop: one skill per `;` entry. */
  method SplitLanguages(value: string) returns (skills: seq<string>)
    ensures skills == LanguageSkills(value)
  {
    var languages := Split(value, ";");
    skills := [];
    for k := 0 to |languages|
      invariant skills == FlatMap(LanguageEntrySkills, languages[..k])
    {
      var skill := SplitLanguage(languages[k]);
      FlatMapStep(LanguageEntrySkills, languages, k);
      skills := skills + [skill];
    }
    assert languages[..|languages|] == languages;
  }

  /** Consuming line `j` moves its kept text from the remaining lookahead to what has been collected. */
  lemma LookaheadConsumes(lines: seq<string>, j: nat, collected: seq<string>)
    requires j < |lines| && Continues(lines[j])
    ensures collected + Lookahead(lines, j) == (collected + KeptText(lines[j])) + Lookahead(lines, j + 1)
  {
    assert Lookahead(lines, j) == KeptText(lines[j]) + Lookahead(lines, j + 1);
  }

  /** The first line from `j` on that the lookahead does not consume. */
  function StopLine(lines: seq<string>, j: nat): (r: nat)
    requires j <= |lines|
    ensures j <= r <= |lines|
    ensures r == |lines| || !Continues(lines[r])
    decreases |lines| - j
  {
    if j < |lines| && Continues(lines[j]) then StopLine(lines, j + 1) else j
  }

  /** Every line before the stop line is consumed. */
  lemma {:induction false} StopLineConsumes(lines: seq<string>, j: nat)
    requires j <= |lines|
    ensures forall k :: j <= k < StopLine(lines, j) ==> Continues(lines[k])
    decreases |lines| - j
  {
    if j < |lines| && Continues(lines[j]) {
      StopLineConsumes(lines, j + 1);
    }
  }

  /** The specialisation lookahead: from line `start`, consume lines while
      `Continues` holds, keeping their text; `stop` is the first line not consumed. */
  method CollectSpecialisation(lines: seq<string>, start: nat) returns (collected: seq<string>, stop: nat)
    requires start <= |lines|
    ensures start <= stop <= |lines|
    ensures forall k :: start <= k < stop ==> Continues(lines[k])
    ensures stop == |lines| || !Continues(lines[stop])
    ensures collected == Lookahead(lines, start)
    ensures stop == StopLine(lines, start)
  {
    collected := [];
    var j := start;
    while j < |lines| && Continues(lines[j])
      invariant start <= j <= |lines|
      invariant StopLine(lines, j) == StopLine(lines, start)
      invariant collected + Lookahead(lines, j) == Lookahead(lines, start)
      decreases |lines| - j
    {
      LookaheadConsumes(lines, j, collected);
      collected := collected + KeptText(lines[j]);
      j := j + 1;
    }
    stop := j;
    StopLineConsumes(lines, start);
  }

  /** The body of the section loop on one `<br>` section. */
  method SplitSection(piece: string) returns (skills: seq<string>)
    ensures skills == SectionSkills(piece)
  {
    skills := [];
    var section := Strip(piece);
    if section != [] && !IsBlank(section) {
      if Contains(section, ".") && IsDigit(section[0]) {
        section := Strip(SplitOnce(section, ".").1);
      }
      skills := CompositeSkills(section);
    }
  }

  /** The section loop: each non-blank `<br>` section, without its numbering, is split as a composite skill. */
  method SplitSections(collected: seq<string>) returns (skills: seq<string>)
    ensures skills == SpecialisationSkills(collected)
  {
    var fullText := Join(collected, " ");
    var sections := Split(fullText, LineBreak);
    skills := [];
    for k := 0 to |sections|
      invariant skills == FlatMap(SectionSkills, sections[..k])
    {
      var individual := SplitSection(sections[k]);
      FlatMapStep(SectionSkills, sections, k);
      skills := skills + individual;
    }
    assert sections[..|sections|] == sections;
  }

  /** One iteration of the line loop: the skills that the row opened at
      line `i` (if any) adds, by category, to the soft and hard lists. */
  method ScanRow(lines: seq<string>, i: nat) returns (added: SkillLists)
    requires i < |lines|
    ensures added == RowSkills(lines, i)
  {
    added := SkillLists([], []);
    var row := ReadRow(lines, i);
    if row.Some? {
      var category, value := row.value.category, row.value.value;
      if category == Qualities && value != [] {
        added := SkillLists(QualitySkills(value), []);
      } else if category == Hobbies && value != [] {
        var hobbies := SplitHobbies(value);
        added := SkillLists(hobbies, []);
      } else if category == Achievements && value != [] {
        added := SkillLists([value], []);
      } else if category == Languages && value != [] {
        var languages := SplitLanguages(value);
        added := SkillLists([], languages);
      } else if category == Specialisation && value != [] {
        var collected, _ := CollectSpecialisation(lines, i + 2);
        var professional := SplitSections(collected);
        added := SkillLists([], professional);
      }
    }
  }

  /** `extract_skills_from_resume` on the resume's lines: scan every line,
      decompose each recognised row, then drop empty, `br` and too-short
      entries and merge duplicates. */
  method ExtractSkills(lines: seq<string>) returns (soft: set<string>, hard: set<string>)
    ensures forall s :: s in soft <==> s in RawSkills(lines).soft && |s| > 1 && s != "br"
    ensures forall h :: h in hard <==> h in RawSkills(lines).hard && |h| > 2
  {
    var softList: seq<string> := [];
    var hardList: seq<string> := [];
    ghost var rows := RowsOf(lines);
    for i := 0 to |lines|
      invariant SkillLists(softList, hardList) == Concat(rows[..i])
    {
      var added := ScanRow(lines, i);
      assert rows[..i + 1][..i] == rows[..i];
      softList := softList + added.soft;
      hardList := hardList + added.hard;
    }
    assert rows[..|lines|] == rows;
    soft := set s | s in softList && s != [] && |s| > 1 && s != "br";
    hard := set h | h in hardList && h != [] && |h| > 1 && h != "br";
    hard := set h | h in hard && h != [] && |h| > 2;
    assert |"br"| == 2;
    assert forall h :: h in hard <==> h in hardList && |h| > 2;
  }
}

/** Properties of the resume extractor. */
module ResumeProperties {
  import opened Text
  import opened Resume

  /** A skill is in the raw lists exactly when the row of some line added it. */
  lemma RawSkillsMember(lines: seq<string>, s: string)
    ensures s in RawSkills(lines).soft <==> exists i :: 0 <= i < |lines| && s in RowsOf(lines)[i].soft
    ensures s in RawSkills(lines).hard <==> exists i :: 0 <= i < |lines| && s in RowsOf(lines)[i].hard
  {
    ConcatMember(RowsOf(lines), s);
  }

  // Worked example: personal qualities. Each step about a literal is a lemma
  // of its own; the example chains them.

  lemma QualitiesFirstCut()
    ensures Split("A, B, C", ",") == ["A"] + Split(" B, C", ",")
  {
    assert "A, B, C" == "A" + [','] + " B, C";
    SplitAtChar("A", ',', " B, C");
  }

  lemma QualitiesSecondCut()
    ensures Split(" B, C", ",") == [" B"] + Split(" C", ",")
  {
    assert " B, C" == " B" + [','] + " C";
    SplitAtChar(" B", ',', " C");
  }

  lemma QualitiesLastPiece()
    ensures Split(" C", ",") == [" C"]
  {
    SplitNoChar(" C", ',');
  }

  lemma SplitABC()
    ensures Split("A, B, C", ",") == ["A", " B", " C"]
  {
    QualitiesFirstCut();
    QualitiesSecondCut();
    QualitiesLastPiece();
  }

  lemma StripA() ensures Strip("A") == "A" { StripTrimmed("A"); }
  lemma StripB() ensures Strip(" B") == "B" { StripPadded("B"); assert " B" == [' '] + "B"; }
  lemma StripC() ensures Strip(" C") == "C" { StripPadded("C"); assert " C" == [' '] + "C"; }

  lemma StripABC()
    ensures StripAll(["A", " B", " C"]) == ["A", "B", "C"]
  {
    StripA();
    StripB();
    StripC();
  }

  /** `"A, B, C"` as personal qualities gives `A`, `B` and `C`. */
  lemma QualitiesExample()
    ensures QualitySkills("A, B, C") == ["A", "B", "C"]
  {
    SplitABC();
    StripABC();
  }

  /** A `FlatMap` over two inputs is their two images, in order. */
  lemma FlatMapPair<T>(f: T -> seq<string>, a: T, b: T)
    ensures FlatMap(f, [a, b]) == f(a) + f(b)
  {
    assert [a, b][..1] == [a];
    assert [a][..0] == [];
    assert FlatMap(f, [a]) == f(a);
  }

  // Hobbies

  /** A non-empty hobby entry without a colon is one skill, trimmed. */
  lemma HobbyEntryPlain(piece: string)
    requires Strip(piece) != [] && ':' !in piece
    ensures HobbyEntrySkills(piece) == [Strip(piece)]
  {
    StripChars(piece);
    ContainsChar(Strip(piece), ':');
  }

  /** A blank hobby entry gives nothing. */
  lemma HobbyEntryBlank(piece: string)
    requires forall k :: 0 <= k < |piece| ==> IsSpace(piece[k])
    ensures HobbyEntrySkills(piece) == []
  {
    StripEmpty(piece);
    TooLong(Strip(piece), ":");
  }

  /** `HobbyEntrySkills` trims first, so a padded entry reads as the trimmed one. */
  lemma HobbyEntryOfTrimmed(piece: string)
    ensures HobbyEntrySkills(piece) == HobbyEntrySkills(Strip(piece))
  {
    StripIdempotent(piece);
  }

  /** An entry that trims to `label:items`, the label free of colons, gives the
      trimmed label, then the trimmed comma pieces of the items. */
  lemma HobbyEntryLabelled(piece: string, kind: string, items: string)
    requires ':' !in kind
    requires Strip(piece) == kind + ":" + items
    ensures HobbyEntrySkills(piece) == [Strip(kind)] + StripAll(Split(items, ","))
  {
    SplitOnceAtChar(kind, ':', items);
  }

  // Worked example: hobbies.

  lemma HobbyNoBreak()
    ensures Replace("Art;Games: Go, Chess", LineBreak, ";") == "Art;Games: Go, Chess"
  {
    MissingChar("Art;Games: Go, Chess", LineBreak, 0);
  }

  lemma HobbyFirstCut()
    ensures Split("Art;Games: Go, Chess", ";") == ["Art"] + Split("Games: Go, Chess", ";")
  {
    assert "Art;Games: Go, Chess" == "Art" + [';'] + "Games: Go, Chess";
    SplitAtChar("Art", ';', "Games: Go, Chess");
  }

  lemma HobbyLastPiece()
    ensures Split("Games: Go, Chess", ";") == ["Games: Go, Chess"]
  {
    SplitNoChar("Games: Go, Chess", ';');
  }

  lemma HobbyPieces()
    ensures Split("Art;Games: Go, Chess", ";") == ["Art", "Games: Go, Chess"]
  {
    HobbyFirstCut();
    HobbyLastPiece();
  }

  lemma ArtEntry()
    ensures HobbyEntrySkills("Art") == ["Art"]
  {
    StripTrimmed("Art");
    HobbyEntryPlain("Art");
  }

  lemma GamesEntrySplit(entry: string)
    requires entry == "Games: Go, Chess"
    ensures HobbyEntrySkills(entry) == [Strip("Games")] + StripAll(Split(" Go, Chess", ","))
  {
    StripTrimmed(entry);
    assert entry == "Games" + ":" + " Go, Chess";
    HobbyEntryLabelled(entry, "Games", " Go, Chess");
  }

  lemma GamesItemsCut()
    ensures Split(" Go, Chess", ",") == [" Go"] + Split(" Chess", ",")
  {
    assert " Go, Chess" == " Go" + [','] + " Chess";
    SplitAtChar(" Go", ',', " Chess");
  }

  lemma GamesItems()
    ensures Split(" Go, Chess", ",") == [" Go", " Chess"]
  {
    GamesItemsCut();
    SplitNoChar(" Chess", ',');
  }

  lemma GoTrimmed() ensures Strip(" Go") == "Go" { StripPadded("Go"); assert " Go" == [' '] + "Go"; }
  lemma ChessTrimmed() ensures Strip(" Chess") == "Chess" { StripPadded("Chess"); assert " Chess" == [' '] + "Chess"; }
  lemma GamesKindTrimmed() ensures Strip("Games") == "Games" { StripTrimmed("Games"); }

  lemma GamesItemsTrimmed()
    ensures StripAll([" Go", " Chess"]) == ["Go", "Chess"]
  {
    GoTrimmed();
    ChessTrimmed();
  }

  lemma GamesEntry(entry: string)
    requires entry == "Games: Go, Chess"
    ensures HobbyEntrySkills(entry) == ["Games", "Go", "Chess"]
  {
    GamesEntrySplit(entry);
    GamesItems();
    GamesItemsTrimmed();
    GamesKindTrimmed();
  }

  lemma HobbyEntriesSplit()
    ensures FlatMap(HobbyEntrySkills, ["Art", "Games: Go, Chess"])
         == HobbyEntrySkills("Art") + HobbyEntrySkills("Games: Go, Chess")
  {
    FlatMapPair(HobbyEntrySkills, "Art", "Games: Go, Chess");
  }

  lemma HobbyEntriesExample(art: string, games: string)
    requires art == "Art" && games == "Games: Go, Chess"
    ensures HobbyEntrySkills(art) + HobbyEntrySkills(games) == ["Art", "Games", "Go", "Chess"]
  {
    ArtEntry();
    GamesEntry(games);
  }

  lemma HobbySkillsPieces()
    ensures HobbySkills("Art;Games: Go, Chess") == FlatMap(HobbyEntrySkills, ["Art", "Games: Go, Chess"])
  {
    HobbyNoBreak();
    HobbyPieces();
  }

  /** `"Art;Games: Go, Chess"` as hobbies gives `Art`, `Games`, `Go`, `Chess`: the
      label of a labelled entry is a skill of its own, before its items. */
  lemma HobbiesExample()
    ensures HobbySkills("Art;Games: Go, Chess") == ["Art", "Games", "Go", "Chess"]
  {
    HobbySkillsPieces();
    HobbyEntriesSplit();
    HobbyEntriesExample("Art", "Games: Go, Chess");
  }

  // Languages

  /** A trimmed entry `name-level` whose name has no hyphen becomes `name (level)`, both parts trimmed. */
  lemma LanguageEntryHyphen(name: string, level: string)
    requires '-' !in name
    requires Strip(name + "-" + level) == name + "-" + level
    ensures LanguageEntry(name + "-" + level) == Strip(name) + " (" + Strip(level) + ")"
  {
    SplitOnceAtChar(name, '-', level);
  }

  /** An entry without a hyphen passes through, trimmed. */
  lemma LanguageEntryPlain(piece: string)
    requires '-' !in piece
    ensures LanguageEntry(piece) == Strip(piece)
  {
    StripChars(piece);
    ContainsChar(Strip(piece), '-');
  }

  lemma LanguageEntries(pieces: seq<string>)
    ensures |FlatMap(LanguageEntrySkills, pieces)| == |pieces|
    ensures forall k :: 0 <= k < |pieces| ==> FlatMap(LanguageEntrySkills, pieces)[k] == LanguageEntry(pieces[k])
  {
    FlatMapSingletons(LanguageEntrySkills, pieces);
  }

  /** Languages give exactly one skill per `;` entry, in order, each the entry rebuilt. */
  lemma LanguageSkillsShape(value: string)
    ensures |LanguageSkills(value)| == |Split(value, ";")|
    ensures forall k :: 0 <= k < |Split(value, ";")| ==> LanguageSkills(value)[k] == LanguageEntry(Split(value, ";")[k])
  {
    LanguageEntries(Split(value, ";"));
  }

  // Worked example: languages.

  lemma LanguagePieces()
    ensures Split("EN - B2; DE - A1", ";") == ["EN - B2", " DE - A1"]
  {
    assert "EN - B2; DE - A1" == "EN - B2" + [';'] + " DE - A1";
    SplitAtChar("EN - B2", ';', " DE - A1");
    SplitNoChar(" DE - A1", ';');
  }

  lemma LanguageSkillsPieces()
    ensures LanguageSkills("EN - B2; DE - A1") == FlatMap(LanguageEntrySkills, ["EN - B2", " DE - A1"])
  {
    LanguagePieces();
  }

  lemma LanguageEntriesSplit()
    ensures FlatMap(LanguageEntrySkills, ["EN - B2", " DE - A1"])
         == [LanguageEntry("EN - B2"), LanguageEntry(" DE - A1")]
  {
    FlatMapPair(LanguageEntrySkills, "EN - B2", " DE - A1");
  }

  lemma NameTrimmed(name: string)
    requires name != [] && !IsSpace(name[0]) && !IsSpace(name[|name| - 1])
    ensures Strip(name + " ") == name
  {
    StripPadded(name);
    assert name + " " == name + [' '];
  }

  lemma LevelTrimmed(level: string)
    requires level != [] && !IsSpace(level[0]) && !IsSpace(level[|level| - 1])
    ensures Strip(" " + level) == level
  {
    StripPadded(level);
    assert " " + level == [' '] + level;
  }

  lemma EnglishEntrySplit(entry: string)
    requires entry == "EN - B2"
    ensures LanguageEntry(entry) == Strip("EN ") + " (" + Strip(" B2") + ")"
  {
    StripTrimmed(entry);
    assert entry == "EN " + "-" + " B2";
    LanguageEntryHyphen("EN ", " B2");
  }

  lemma EnglishParts()
    ensures Strip("EN ") == "EN" && Strip(" B2") == "B2"
  {
    NameTrimmed("EN");
    LevelTrimmed("B2");
  }

  lemma EnglishRebuilt() ensures "EN" + " (" + "B2" + ")" == "EN (B2)" { }

  lemma EnglishEntry(entry: string)
    requires entry == "EN - B2"
    ensures LanguageEntry(entry) == "EN (B2)"
  {
    EnglishEntrySplit(entry);
    EnglishParts();
    EnglishRebuilt();
  }

  lemma GermanEntryTrimmed(entry: string)
    requires entry == " DE - A1"
    ensures Strip(entry) == "DE - A1"
  {
    StripPadded("DE - A1");
    assert entry == [' '] + "DE - A1";
  }

  lemma GermanEntryHyphen(entry: string)
    requires entry == "DE - A1"
    ensures LanguageEntry(entry) == Strip("DE ") + " (" + Strip(" A1") + ")"
  {
    StripTrimmed(entry);
    assert entry == "DE " + "-" + " A1";
    LanguageEntryHyphen("DE ", " A1");
  }

  /** `LanguageEntry` trims first, so a padded entry reads as the trimmed one. */
  lemma LanguageEntryOfTrimmed(piece: string)
    ensures LanguageEntry(piece) == LanguageEntry(Strip(piece))
  {
    StripIdempotent(piece);
  }

  lemma GermanParts()
    ensures Strip("DE ") == "DE" && Strip(" A1") == "A1"
  {
    NameTrimmed("DE");
    LevelTrimmed("A1");
  }

  lemma GermanRebuilt() ensures "DE" + " (" + "A1" + ")" == "DE (A1)" { }

  lemma GermanEntry(entry: string)
    requires entry == " DE - A1"
    ensures LanguageEntry(entry) == "DE (A1)"
  {
    GermanEntryTrimmed(entry);
    LanguageEntryOfTrimmed(entry);
    GermanEntryHyphen("DE - A1");
    GermanParts();
    GermanRebuilt();
  }

  /** `"EN - B2; DE - A1"` as languages gives `EN (B2)` and `DE (A1)`. */
  lemma LanguagesExample()
    ensures LanguageSkills("EN - B2; DE - A1") == ["EN (B2)", "DE (A1)"]
  {
    LanguageSkillsPieces();
    LanguageEntriesSplit();
    EnglishEntry("EN - B2");
    GermanEntry(" DE - A1");
  }

  // Specialisation lookahead and sections

  /** A line whose trimmed text opens with `</` (such as `</tr>`) does not stop the lookahead. */
  lemma LookaheadConsumesClosingTag(line: string)
    requires StartsWith(Strip(line), "</")
    ensures Continues(line)
  {
    var t := Strip(line);
    assert t[1] == '/';
    assert !StartsWith(t, "<tr");
  }

  /** The lookahead, started at a row's value line, always consumes that line first. */
  lemma LookaheadTakesValueLine(lines: seq<string>, i: nat)
    requires i < |lines| && ReadRow(lines, i).Some?
    ensures Continues(lines[i + 2])
    ensures Lookahead(lines, i + 2) == KeptText(lines[i + 2]) + Lookahead(lines, i + 3)
  {
    ContainsStripped(lines[i + 2], ValueCell);
  }

  /** A closing row tag is consumed and kept as text. */
  lemma ClosingRowKept()
    ensures Continues("</tr>") && KeptText("</tr>") == ["</tr>"]
  {
    StripTrimmed("</tr>");
    LookaheadConsumesClosingTag("</tr>");
    assert |ValueCell| == 13;
    TooLong("</tr>", ValueCell);
    assert "</tr>"[1] != "<tr"[1];
  }

  /** A section `d.rest` starting with a digit, `d` free of `.`, becomes the trimmed `rest`. */
  lemma DropNumberingPrefix(d: string, rest: string)
    requires d != [] && IsDigit(d[0]) && '.' !in d
    ensures DropNumbering(d + "." + rest) == Strip(rest)
  {
    SplitOnceAtChar(d, '.', rest);
  }

  /** A section that does not start with a digit keeps its numbering-free text as it is. */
  lemma DropNumberingKeeps(section: string)
    requires section == [] || !IsDigit(section[0])
    ensures DropNumbering(section) == section
  {
  }

  /** Any digit-first section loses its text up to the first `.`, numbering or
      not: `"1С 8.3"` becomes `"3"`. */
  lemma DropNumberingVersion()
    ensures DropNumbering("1С 8.3") == "3"
  {
    assert "1С 8.3" == "1С 8" + "." + "3";
    DropNumberingPrefix("1С 8", "3");
    StripTrimmed("3");
  }

  /** With a colon, the label before the first colon is dropped and the
      trimmed comma pieces after it are the skills. */
  lemma CompositeLabelDiscarded(kind: string, items: string)
    requires ':' !in kind
    ensures CompositeSkills(kind + ":" + items) == StripAll(Split(items, ","))
  {
    SplitOnceAtChar(kind, ':', items);
  }

  /** A blank section gives no skills. */
  lemma SectionBlank(section: string)
    requires forall k :: 0 <= k < |section| ==> IsSpace(section[k])
    ensures SectionSkills(section) == []
  {
    StripEmpty(section);
  }

  /** A section with neither a leading digit nor a colon is one trimmed skill. */
  lemma SectionPlain(section: string)
    requires Strip(section) != [] && !IsDigit(Strip(section)[0]) && ':' !in section
    ensures SectionSkills(section) == [Strip(section)]
  {
    var s := Strip(section);
    StrippedNotBlank(section);
    StripChars(section);
    ContainsChar(s, ':');
  }
}
