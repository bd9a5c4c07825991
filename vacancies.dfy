/** Vacancy analysis (4/requests_testing.py and 4/4.1_testing.py): technology
    detection by keyword table, the average-salary rule and the per-vacancy
    loop of `exploratory_analysis` that gathers both. */
module Vacancies {
  import opened Wrappers
  import opened Text

  /** A technology label and the keywords that reveal it. */
  datatype Technology = Technology(name: string, keywords: seq<string>)

  /** `tech_keywords`, in its insertion order. */
  type Table = seq<Technology>

  /** The seventeen technologies after the first two, identical in both files. */
  const CommonTechnologies: Table := [
    Technology("JavaScript", ["javascript", "js", "node.js", "nodejs"]),
    Technology("React и др.", ["react", "vue", "angular"]),
    Technology("Java", ["java", "hibernate"]),
    Technology("Spring", ["spring"]),
    Technology("C++", ["c++", "cpp"]),
    Technology("C# & .NET", ["c#", "csharp", ".net"]),
    Technology("PHP", ["php", "laravel", "symfony"]),
    Technology("Go", ["go", "golang"]),
    Technology("Ruby", ["ruby", "rails"]),
    Technology("SQL", ["sql", "mysql", "postgresql", "oracle"]),
    Technology("NoSQL", ["mongodb", "redis", "cassandra"]),
    Technology("Docker", ["docker", "container"]),
    Technology("Kubernetes", ["kubernetes", "k8s"]),
    Technology("AWS", ["aws", "amazon web services"]),
    Technology("Azure", ["azure"]),
    Technology("Git", ["git", "github", "gitlab"]),
    Technology("Linux", ["linux", "unix"])
  ]

  const PythonLabel := "Python"
  const DjangoLabel := "Django и др."

  /** The first two technologies of 4/requests_testing.py: `fastapi` belongs to `Django и др.`. */
  const RequestsHead: Table := [Technology(PythonLabel, ["python"]), Technology(DjangoLabel, ["django", "flask", "fastapi"])]

  /** The first two technologies of 4/4.1_testing.py: `fastapi` belongs to `Python`. */
  const VariantHead: Table := [Technology(PythonLabel, ["python", "fastapi"]), Technology(DjangoLabel, ["django", "flask"])]

  /** The table of 4/requests_testing.py. */
  const RequestsTable: Table := RequestsHead + CommonTechnologies

  /** The table of 4/4.1_testing.py. */
  const VariantTable: Table := VariantHead + CommonTechnologies

  // ---------------------------------------------------------------------
  // Technology detection
  // ---------------------------------------------------------------------

  /** The text searched: the vacancy name, a space and the snippet, lower-cased. */
  function SearchText(name: string, snippet: string): (r: string)
    ensures |r| == |name| + 1 + |snippet|
    ensures r[|name|] == ' '
    ensures forall k :: 0 <= k < |name| ==> r[k] == LowerChar(name[k])
    ensures forall k :: 0 <= k < |snippet| ==> r[|name| + 1 + k] == LowerChar(snippet[k])
  {
    var joined := name + " " + snippet;
    assert forall k :: 0 <= k < |name| ==> joined[k] == name[k];
    assert forall k :: 0 <= k < |snippet| ==> joined[|name| + 1 + k] == snippet[k];
    Lower(joined)
  }

  /** Some keyword of `tech` occurs in `text` as a substring. */
  predicate Mentions(text: string, tech: Technology) {
    exists k :: 0 <= k < |tech.keywords| && Contains(text, tech.keywords[k])
  }

  /** The labels of the technologies of `table` that `text` mentions. */
  function Detected(table: Table, text: string): set<string> {
    if table == [] then {}
    else
      var last := table[|table| - 1];
      Detected(table[..|table| - 1], text) + if Mentions(text, last) then {last.name} else {}
  }

  /** `extract_technologies(name, snippet)` against `table`: for each
      technology, the keywords are tried in order and the first one found in
      the text adds the label. */
  method ExtractTechnologies(table: Table, name: string, snippet: string) returns (found: set<string>)
    ensures found == Detected(table, SearchText(name, snippet))
  {
    found := {};
    var text := Lower(name + " " + snippet);
    for i := 0 to |table|
      invariant found == Detected(table[..i], text)
    {
      assert table[..i + 1][..i] == table[..i];
      var tech := table[i];
      var j := 0;
      while j < |tech.keywords|
        invariant j <= |tech.keywords|
        invariant forall k :: 0 <= k < j ==> !Contains(text, tech.keywords[k])
        invariant found == Detected(table[..i], text)
      {
        if Contains(text, tech.keywords[j]) {
          found := found + {tech.name};
          break;
        }
        j := j + 1;
      }
    }
    assert table[..|table|] == table;
  }

  // ---------------------------------------------------------------------
  // Salary and snippet
  // ---------------------------------------------------------------------

  /** The `salary` object of a vacancy: its optional lower and upper bounds. */
  datatype Salary = Salary(lower: Option<int>, upper: Option<int>)

  /** A bound counts when it is given and non-zero (Python truthiness). */
  predicate Given(bound: Option<int>) {
    bound.Some? && bound.value != 0
  }

  /** The average salary: the mean of both bounds when both are given, the
      one given bound otherwise, and none without a salary or bounds. */
  function AverageSalary(salary: Option<Salary>): (r: Option<real>)
    ensures r.Some? <==> salary.Some? && (Given(salary.value.lower) || Given(salary.value.upper))
    ensures r.Some? && Given(salary.value.lower) && Given(salary.value.upper) ==>
      r.value * 2.0 == (salary.value.lower.value + salary.value.upper.value) as real
    ensures r.Some? && Given(salary.value.lower) && Given(salary.value.upper) ==>
      var (a, b) := (salary.value.lower.value as real, salary.value.upper.value as real);
      (a <= r.value <= b) || (b <= r.value <= a)
    ensures r.Some? && Given(salary.value.lower) && !Given(salary.value.upper) ==> r.value == salary.value.lower.value as real
    ensures r.Some? && !Given(salary.value.lower) && Given(salary.value.upper) ==> r.value == salary.value.upper.value as real
  {
    match salary
    case None => None
    case Some(s) =>
      if Given(s.lower) && Given(s.upper) then Some((s.lower.value + s.upper.value) as real / 2.0)
      else if Given(s.lower) then Some(s.lower.value as real)
      else if Given(s.upper) then Some(s.upper.value as real)
      else None
  }

  /** The `snippet` object of a vacancy: requirement and responsibility, each possibly missing or null. */
  datatype Snippet = Snippet(requirement: Option<string>, responsibility: Option<string>)

  /** A missing or null field reads as the empty string. */
  function OrEmpty(field: Option<string>): (r: string)
    ensures field.None? ==> r == []
    ensures field.Some? ==> r == field.value
  {
    match field
    case None => []
    case Some(text) => text
  }

  /** The snippet text searched for technologies: requirement, a space,
      responsibility; a missing snippet reads as an empty one. */
  function SnippetText(snippet: Option<Snippet>): (r: string)
    ensures snippet.None? ==> r == " "
    ensures snippet.Some? ==>
      var (requirement, responsibility) := (OrEmpty(snippet.value.requirement), OrEmpty(snippet.value.responsibility));
      && |r| == |requirement| + 1 + |responsibility|
      && r[|requirement|] == ' '
      && r[..|requirement|] == requirement
      && r[|requirement| + 1..] == responsibility
  {
    match snippet
    case None => " "
    case Some(s) => OrEmpty(s.requirement) + " " + OrEmpty(s.responsibility)
  }

  // ---------------------------------------------------------------------
  // The per-vacancy loop of exploratory_analysis
  // ---------------------------------------------------------------------

  /** The fields of a vacancy the analysis reads. */
  datatype Vacancy = Vacancy(name: string, salary: Option<Salary>, snippet: Option<Snippet>)

  /** One row of the analysis frame: the vacancy's name, its average salary
      and the technologies found in it. */
  datatype Summary = Summary(name: string, averageSalary: Option<real>, technologies: set<string>)

  /** The technologies found in one vacancy. */
  function VacancyTechnologies(table: Table, v: Vacancy): set<string> {
    Detected(table, SearchText(v.name, SnippetText(v.snippet)))
  }

  /** The row the analysis builds for one vacancy. */
  function Summarise(table: Table, v: Vacancy): Summary {
    Summary(v.name, AverageSalary(v.salary), VacancyTechnologies(table, v))
  }

  /** `all_technologies` as counted by `value_counts`: each label once per row that lists it. */
  function Tally(rows: seq<Summary>): multiset<string> {
    if rows == [] then multiset{}
    else Tally(rows[..|rows| - 1]) + multiset(rows[|rows| - 1].technologies)
  }

  /** One more row adds its technologies to the tally. */
  lemma TallyStep(rows: seq<Summary>, row: Summary)
    ensures Tally(rows + [row]) == Tally(rows) + multiset(row.technologies)
  {
    assert (rows + [row])[..|rows|] == rows;
  }

  /** Appending the summary of the next vacancy keeps the rows in step with the vacancies. */
  lemma SummarisedStep(table: Table, vacancies: seq<Vacancy>, rows: seq<Summary>, row: Summary)
    requires |rows| < |vacancies|
    requires forall k :: 0 <= k < |rows| ==> rows[k] == Summarise(table, vacancies[k])
    requires row == Summarise(table, vacancies[|rows|])
    ensures forall k :: 0 <= k < |rows| + 1 ==> (rows + [row])[k] == Summarise(table, vacancies[k])
  {
  }

  /** One pass of the vacancy loop: the average salary and the technologies of one vacancy. */
  method SummariseVacancy(table: Table, vac: Vacancy) returns (row: Summary)
    ensures row == Summarise(table, vac)
  {
    var averageSalary := AverageSalary(vac.salary);
    var snippet := SnippetText(vac.snippet);
    var technologies := ExtractTechnologies(table, vac.name, snippet);
    row := Summary(vac.name, averageSalary, technologies);
  }

  /** The vacancy loop: each vacancy gets its average salary and
      technologies, and every technology found is added to the tally. */
  method AnalyzeVacancies(table: Table, vacancies: seq<Vacancy>) returns (rows: seq<Summary>, counts: multiset<string>)
    ensures |rows| == |vacancies|
    ensures forall k :: 0 <= k < |vacancies| ==> rows[k] == Summarise(table, vacancies[k])
    ensures counts == Tally(rows)
  {
    rows := [];
    counts := multiset{};
    for i := 0 to |vacancies|
      invariant |rows| == i
      invariant forall k :: 0 <= k < i ==> rows[k] == Summarise(table, vacancies[k])
      invariant counts == Tally(rows)
    {
      var row := SummariseVacancy(table, vacancies[i]);
      SummarisedStep(table, vacancies, rows, row);
      TallyStep(rows, row);
      counts := counts + multiset(row.technologies);
      rows := rows + [row];
    }
  }
}

/** Properties of technology detection, the salary rule and the vacancy tally. */
module VacancyProperties {
  import opened Wrappers
  import opened Text
  import opened Vacancies

  /** A label is detected exactly when some technology of the table carries
      it and the text mentions one of that technology's keywords. */
  lemma {:induction false} DetectedMember(table: Table, text: string, name: string)
    ensures name in Detected(table, text) <==>
      exists i :: 0 <= i < |table| && table[i].name == name && Mentions(text, table[i])
  {
    if table != [] {
      var init := table[..|table| - 1];
      DetectedMember(init, text, name);
      assert forall i :: 0 <= i < |init| ==> init[i] == table[i];
    }
  }

  /** Every detected label is a label of the table. */
  lemma DetectedLabels(table: Table, text: string)
    ensures forall name :: name in Detected(table, text) ==> exists i :: 0 <= i < |table| && table[i].name == name
  {
    forall name | name in Detected(table, text) {
      DetectedMember(table, text, name);
    }
  }

  /** At most one label per technology of the table is reported. */
  lemma {:induction false} DetectedSize(table: Table, text: string)
    ensures |Detected(table, text)| <= |table|
  {
    if table != [] {
      DetectedSize(table[..|table| - 1], text);
    }
  }

  /** |RequestsTable| and |VariantTable| are both 19, so at most 19 labels are reported. */
  lemma DetectedAtMost19(text: string)
    ensures |Detected(RequestsTable, text)| <= 19
    ensures |Detected(VariantTable, text)| <= 19
  {
    DetectedSize(RequestsTable, text);
    DetectedSize(VariantTable, text);
  }

  /** Detection over two tables one after the other reports what each reports. */
  lemma {:induction false} DetectedAppend(first: Table, second: Table, text: string)
    ensures Detected(first + second, text) == Detected(first, text) + Detected(second, text)
    decreases |second|
  {
    if second == [] {
      assert first + second == first;
    } else {
      var init := second[..|second| - 1];
      DetectedAppend(first, init, text);
      assert (first + second)[..|first + second| - 1] == first + init;
    }
  }

  /** The technologies from `lo` up to `hi` have keywords that all start with
      a printable ASCII character other than a space. */
  predicate VisibleBetween(table: Table, lo: nat, hi: nat) {
    forall i, k :: lo <= i < hi && i < |table| && 0 <= k < |table[i].keywords| ==>
      table[i].keywords[k] != [] && '!' <= table[i].keywords[k][0] <= '~'
  }

  /** Every technology of `table` has such keywords. */
  predicate VisibleKeywords(table: Table) {
    VisibleBetween(table, 0, |table|)
  }

  /** A text of whitespace only mentions no keyword that starts with a visible character. */
  lemma BlankTextDetectsNothing(table: Table, text: string)
    requires VisibleKeywords(table)
    requires forall k :: 0 <= k < |text| ==> IsSpace(text[k])
    ensures Detected(table, text) == {}
  {
    forall name ensures name !in Detected(table, text) {
      DetectedMember(table, text, name);
    }
  }

  lemma VisibleAppend(first: Table, second: Table)
    requires VisibleKeywords(first) && VisibleKeywords(second)
    ensures VisibleKeywords(first + second)
  {
    forall i | |first| <= i < |first + second| ensures (first + second)[i] == second[i - |first|] {}
  }

  /** Both tables' keywords start with a visible character. */
  lemma TablesVisible()
    ensures VisibleKeywords(RequestsTable) && VisibleKeywords(VariantTable)
  {
    CommonVisible();
    assert VisibleKeywords(RequestsHead) && VisibleKeywords(VariantHead);
    VisibleAppend(RequestsHead, CommonTechnologies);
    VisibleAppend(VariantHead, CommonTechnologies);
  }

  /** The shared technologies' keywords start with a visible character; checked a few technologies at a time. */
  lemma CommonVisible()
    ensures VisibleKeywords(CommonTechnologies)
  {
    CommonVisibleFirst();
    CommonVisibleSecond();
    CommonVisibleThird();
    CommonVisibleLast();
  }

  lemma CommonVisibleFirst() ensures VisibleBetween(CommonTechnologies, 0, 4) { }
  lemma CommonVisibleSecond() ensures VisibleBetween(CommonTechnologies, 4, 8) { }
  lemma CommonVisibleThird() ensures VisibleBetween(CommonTechnologies, 8, 12) { }
  lemma CommonVisibleLast() ensures VisibleBetween(CommonTechnologies, 12, 17) { }

  /** An empty name with an empty snippet, or with a missing snippet, yields no technology. */
  lemma EmptyVacancyDetectsNothing(table: Table)
    requires table == RequestsTable || table == VariantTable
    ensures Detected(table, SearchText("", "")) == {}
    ensures Detected(table, SearchText("", SnippetText(None))) == {}
  {
    TablesVisible();
    BlankTextDetectsNothing(table, SearchText("", ""));
    BlankTextDetectsNothing(table, SearchText("", SnippetText(None)));
  }

  /** The technology at `i` of `table` is detected when the text holds its keyword `k`. */
  lemma DetectedBy(table: Table, text: string, i: nat, k: nat)
    requires i < |table| && k < |table[i].keywords| && Contains(text, table[i].keywords[k])
    ensures table[i].name in Detected(table, text)
  {
    DetectedMember(table, text, table[i].name);
  }

  /** Matching is by substring: a text with `django` also reports `Go`. */
  lemma DjangoAlsoGo(table: Table, text: string)
    requires table == RequestsTable || table == VariantTable
    requires Contains(text, "django")
    ensures DjangoLabel in Detected(table, text) && "Go" in Detected(table, text)
  {
    ContainsInside(text, "django", "go", 4);
    DetectedBy(table, text, 1, 0);
    DetectedBy(table, text, 9, 0);
  }

  /** Matching is by substring: a text with `javascript` also reports `Java`. */
  lemma JavaScriptAlsoJava(table: Table, text: string)
    requires table == RequestsTable || table == VariantTable
    requires Contains(text, "javascript")
    ensures "JavaScript" in Detected(table, text) && "Java" in Detected(table, text)
  {
    ContainsInside(text, "javascript", "java", 0);
    DetectedBy(table, text, 2, 0);
    DetectedBy(table, text, 4, 0);
  }

  /** A keyword that does not occur in the text changes nothing about whether a technology is mentioned. */
  lemma MentionsWithAbsent(text: string, name: string, keywords: seq<string>, extra: string)
    requires !Contains(text, extra)
    ensures Mentions(text, Technology(name, keywords + [extra])) <==> Mentions(text, Technology(name, keywords))
  {
    var all := keywords + [extra];
    if Mentions(text, Technology(name, all)) {
      var k :| 0 <= k < |all| && Contains(text, all[k]);
      assert k < |keywords| && all[k] == keywords[k];
    }
    if Mentions(text, Technology(name, keywords)) {
      var k :| 0 <= k < |keywords| && Contains(text, keywords[k]);
      assert all[k] == keywords[k];
    }
  }

  /** The two tables report the same labels for every text without `fastapi`. */
  lemma TablesAgreeWithoutFastapi(text: string)
    requires !Contains(text, "fastapi")
    ensures Detected(RequestsTable, text) == Detected(VariantTable, text)
  {
    var requestsHead, variantHead := RequestsHead, VariantHead;
    DetectedAppend(requestsHead, CommonTechnologies, text);
    DetectedAppend(variantHead, CommonTechnologies, text);
    assert requestsHead[..1] == [requestsHead[0]] && [requestsHead[0]][..0] == [];
    assert variantHead[..1] == [variantHead[0]] && [variantHead[0]][..0] == [];
    assert ["python", "fastapi"] == ["python"] + ["fastapi"];
    assert ["django", "flask", "fastapi"] == ["django", "flask"] + ["fastapi"];
    MentionsWithAbsent(text, PythonLabel, ["python"], "fastapi");
    MentionsWithAbsent(text, DjangoLabel, ["django", "flask"], "fastapi");
  }

  /** With `fastapi` in the text, 4/4.1_testing.py reports `Python` and
      4/requests_testing.py reports `Django и др.`. */
  lemma FastapiLabels(text: string)
    requires Contains(text, "fastapi")
    ensures PythonLabel in Detected(VariantTable, text)
    ensures DjangoLabel in Detected(RequestsTable, text)
  {
    DetectedBy(VariantTable, text, 0, 1);
    DetectedBy(RequestsTable, text, 1, 2);
  }

  /** Detection over a two-technology table. */
  lemma DetectedPair(first: Technology, second: Technology, text: string)
    ensures Detected([first, second], text) ==
      (if Mentions(text, first) then {first.name} else {}) + (if Mentions(text, second) then {second.name} else {})
  {
    assert [first, second][..1] == [first];
    assert [first][..0] == [];
    assert Detected([first], text) == Detected([], text) + if Mentions(text, first) then {first.name} else {};
  }

  /** A technology none of whose two keywords occurs is not mentioned. */
  lemma NeitherKeyword(text: string, name: string, a: string, b: string)
    requires !Contains(text, a) && !Contains(text, b)
    ensures !Mentions(text, Technology(name, [a, b]))
  {
  }

  /** The text `fastapi` holds its own keyword and none of `python`, `django` and `flask`. */
  lemma FastapiKeywords()
    ensures Contains("fastapi", "fastapi")
    ensures !Contains("fastapi", "python") && !Contains("fastapi", "django") && !Contains("fastapi", "flask")
  {
    FastapiHasFastapi();
    FastapiLacksPython();
    FastapiLacksDjango();
    FastapiLacksFlask();
  }

  lemma FastapiHasFastapi() ensures Contains("fastapi", "fastapi") { ContainsAt("fastapi", "fastapi", 0); }
  lemma FastapiLacksPython() ensures !Contains("fastapi", "python") { MissingChar("fastapi", "python", 1); }
  lemma FastapiLacksDjango() ensures !Contains("fastapi", "django") { MissingChar("fastapi", "django", 0); }
  lemma FastapiLacksFlask() ensures !Contains("fastapi", "flask") { MissingChar("fastapi", "flask", 1); }

  /** A text with `fastapi` but none of the other head keywords: 4/4.1_testing.py's head gives `Python` alone. */
  lemma FastapiOnlyVariantHead(text: string)
    requires Contains(text, "fastapi")
    requires !Contains(text, "python") && !Contains(text, "django") && !Contains(text, "flask")
    ensures Detected(VariantHead, text) == {PythonLabel}
  {
    DetectedPair(Technology(PythonLabel, ["python", "fastapi"]), Technology(DjangoLabel, ["django", "flask"]), text);
    assert ["python", "fastapi"][1] == "fastapi";
    NeitherKeyword(text, DjangoLabel, "django", "flask");
  }

  /** A text with `fastapi` but none of the other head keywords: 4/requests_testing.py's head gives `Django и др.` alone. */
  lemma FastapiOnlyRequestsHead(text: string)
    requires Contains(text, "fastapi")
    requires !Contains(text, "python") && !Contains(text, "django") && !Contains(text, "flask")
    ensures Detected(RequestsHead, text) == {DjangoLabel}
  {
    DetectedPair(Technology(PythonLabel, ["python"]), Technology(DjangoLabel, ["django", "flask", "fastapi"]), text);
    assert ["django", "flask", "fastapi"][2] == "fastapi";
  }

  /** Neither `Python` nor `Django и др.` is a label of the seventeen shared technologies. */
  lemma CommonLabelsDistinct(text: string)
    ensures PythonLabel !in Detected(CommonTechnologies, text) && DjangoLabel !in Detected(CommonTechnologies, text)
  {
    DetectedLabels(CommonTechnologies, text);
    assert forall i :: 0 <= i < |CommonTechnologies| ==> CommonTechnologies[i].name != PythonLabel && CommonTechnologies[i].name != DjangoLabel;
  }

  /** On the text `fastapi` the tables differ exactly in the first two labels:
      4/4.1_testing.py reports `Python` where 4/requests_testing.py reports
      `Django и др.`, and both report the same among the other seventeen. */
  lemma FastapiExample()
    ensures Detected(VariantTable, "fastapi") == {PythonLabel} + Detected(CommonTechnologies, "fastapi")
    ensures Detected(RequestsTable, "fastapi") == {DjangoLabel} + Detected(CommonTechnologies, "fastapi")
    ensures PythonLabel !in Detected(RequestsTable, "fastapi") && DjangoLabel !in Detected(VariantTable, "fastapi")
  {
    DetectedAppend(RequestsHead, CommonTechnologies, "fastapi");
    DetectedAppend(VariantHead, CommonTechnologies, "fastapi");
    FastapiKeywords();
    FastapiOnlyVariantHead("fastapi");
    FastapiOnlyRequestsHead("fastapi");
    CommonLabelsDistinct("fastapi");
  }

  // Snippet

  /** A missing snippet, and a snippet whose two fields are each missing, null
      or empty, all read as the same text: a single space. */
  lemma BlankSnippets(requirement: Option<string>, responsibility: Option<string>)
    requires requirement == None || requirement == Some("")
    requires responsibility == None || responsibility == Some("")
    ensures SnippetText(Some(Snippet(requirement, responsibility))) == SnippetText(None) == " "
  {
  }

  /** An occurrence of `pat` in the name is an occurrence of its lower-cased
      form, at the same place, in the searched text. */
  lemma NameOccurrenceLowered(name: string, snippet: string, pat: string, k: nat)
    requires k <= |name| && pat <= name[k..]
    ensures Lower(pat) <= SearchText(name, snippet)[k..]
  {
    var r := SearchText(name, snippet);
    assert forall j :: 0 <= j < |pat| ==> name[k..][j] == pat[j] && r[k..][j] == r[k + j];
  }

  lemma LowerPython() ensures Lower("Python") == "python" { }

  /** Matching ignores case: a name that says `Python` is detected as `Python`. */
  lemma CapitalisedNameDetected(table: Table, name: string, snippet: string)
    requires table == RequestsTable || table == VariantTable
    requires Contains(name, "Python")
    ensures PythonLabel in Detected(table, SearchText(name, snippet))
  {
    var text := SearchText(name, snippet);
    var k := Find(name, "Python").value;
    NameOccurrenceLowered(name, snippet, "Python", k);
    LowerPython();
    ContainsAt(text, "python", k);
    assert table[0].keywords[0] == "python";
    DetectedBy(table, text, 0, 0);
  }

  // Salary

  /** A zero bound is treated as a missing one. */
  lemma ZeroBoundIsMissing(lower: Option<int>, upper: Option<int>)
    ensures AverageSalary(Some(Salary(Some(0), upper))) == AverageSalary(Some(Salary(None, upper)))
    ensures AverageSalary(Some(Salary(lower, Some(0)))) == AverageSalary(Some(Salary(lower, None)))
  {
  }

  // The technology tally

  /** A label is tallied exactly when some row lists it. */
  lemma {:induction false} TallyMember(rows: seq<Summary>, name: string)
    ensures name in Tally(rows) <==> exists k :: 0 <= k < |rows| && name in rows[k].technologies
  {
    if rows != [] {
      var init := rows[..|rows| - 1];
      TallyMember(init, name);
      assert forall k :: 0 <= k < |init| ==> init[k] == rows[k];
    }
  }

  /** A label is counted at most once per row. */
  lemma {:induction false} TallyBound(rows: seq<Summary>, name: string)
    ensures Tally(rows)[name] <= |rows|
  {
    if rows != [] {
      TallyBound(rows[..|rows| - 1], name);
    }
  }

  /** Every label tallied by the vacancy loop is a label of the table. */
  lemma {:induction false} TalliedLabelFromTable(table: Table, vacancies: seq<Vacancy>, rows: seq<Summary>, name: string)
    requires |rows| == |vacancies|
    requires forall k :: 0 <= k < |vacancies| ==> rows[k] == Summarise(table, vacancies[k])
    requires name in Tally(rows)
    ensures exists i :: 0 <= i < |table| && table[i].name == name
  {
    TallyMember(rows, name);
    var k :| 0 <= k < |rows| && name in rows[k].technologies;
    var v := vacancies[k];
    DetectedMember(table, SearchText(v.name, SnippetText(v.snippet)), name);
  }
}
