# Skill extraction and vacancy technology analysis, in Dafny

This project models the text-processing core of a small job-market analysis
repository. It has two parts:

- **Resume skill extraction** (`3/3.2.py`, `extract_skills_from_resume`). A
  resume saved as an HTML table is read line by line. Each table row is a
  row marker, a category cell and a value cell. Five known categories are
  decomposed into *soft* skills (personal qualities, hobbies, personal
  achievements) and *hard* skills (languages, professional specialisation).
  The specialisation value is collected by a lookahead over the following
  lines and split at `<br>` into numbered sections and `label: a, b`
  composites. Both lists are then filtered (no empty strings, no `br`, no
  strings that are too short) and de-duplicated.
- **Vacancy analysis** (`4/requests_testing.py` and `4/4.1_testing.py`,
  `extract_technologies` and the per-vacancy loop of `exploratory_analysis`).
  A vacancy's name and snippet are lower-cased and searched for the keywords
  of a technology table. The average salary is taken from the salary's
  bounds. The labels found in all vacancies are counted.

  The two files differ only in where the keyword `fastapi` sits in the
  table. `4/requests_testing.py` lists it under `Django и др.`, and
  `4/4.1_testing.py` lists it under `Python`. The table is therefore a
  parameter of the model, and both tables are constants
  (`Vacancies.RequestsTable` and `Vacancies.VariantTable`).

Files:

- `wrappers.dfy`: module `Wrappers`, which defines `Option`.
- `text.dfy`: module `Text`. It defines the Python `str` operations the
  extractors use, each once, with the facts the proofs need:
  - `strip()` with Python's whitespace set;
  - `in` and `find`;
  - `replace`;
  - `split(sep)` and `split(sep, 1)`;
  - `join`;
  - `lower()`;
  - `isdigit()`;
  - the list `extend` loop, as `FlatMap`.
- `resume.dfy`:
  - module `Resume` holds the specification functions (`ReadRow`, `RowSkills`,
    `HobbySkills`, `LanguageSkills`, `Lookahead`, `SpecialisationSkills`,
    `RawSkills`) and the imperative extractor. The extractor's methods follow
    the loops of the source (`ExtractSkills`, `ScanRow`, `SplitHobbies`,
    `SplitLanguages`, `CollectSpecialisation`, `SplitSections`), and each is
    proved equal to its specification function.
  - module `ResumeProperties` holds the lemmas.
- `vacancies.dfy`:
  - module `Vacancies` holds the tables, the detection function `Detected`,
    the salary and snippet rules, and the imperative loops
    `ExtractTechnologies` and `AnalyzeVacancies`. The technology counts are
    kept as a multiset.
  - module `VacancyProperties` holds the lemmas.

Behaviour of the source worth knowing, which the model keeps:

- The specialisation lookahead does not stop only at the next row marker.
  It also stops at a blank line. It consumes lines such as `</tr>` and keeps
  them as text (`ResumeProperties.ClosingRowKept`).
- The outer line loop does not skip the lines the lookahead consumed. Every
  line is still examined as a possible row start (`Resume.ExtractSkills`
  scans every index).
- A row is read only when its marker has two more lines after it. The
  category is read from line `i + 1` and the value from line `i + 2`. An
  empty value is taken from line `i + 3` only when that line neither opens
  nor closes a row.
- A section that starts with a digit loses everything up to its first `.`,
  whether or not it is numbered. For example, `1С 8.3` becomes `3`
  (`ResumeProperties.DropNumberingVersion`).

## Model

| member | source | states |
|---|---|---|
| Resume.CellText | 3/3.2.py:53-54 | A cell's text, once its opening marker and `</td>` are removed, is already trimmed. |
| Resume.ReadRow | 3/3.2.py:45-60 | A row is read at line `i` exactly when line `i` holds a row marker, two more lines follow, and lines `i + 1` and `i + 2` hold the category and value cell markers. The category is the cleaned cell `i + 1`. The value is the cleaned cell `i + 2`. When that value is empty, the value is line `i + 3` with `<br>` turned into spaces, provided that line neither opens nor closes a row; otherwise it stays empty. Both parts come out trimmed. |
| Resume.QualitySkills | 3/3.2.py:63-64 | Personal qualities give one skill per comma piece of the value, in order: skill `k` is comma piece `k`, trimmed. Each skill holds no comma. |
| ResumeProperties.QualitiesExample | 3/3.2.py:63-64 | `A, B, C` gives exactly `A`, `B`, `C`, in that order. |
| Resume.SplitHobby | 3/3.2.py:69-78 | One pass of the hobby loop adds exactly the skills `HobbyEntrySkills` assigns to the entry. |
| Resume.SplitHobbies | 3/3.2.py:66-78 | The hobby loop produces `HobbySkills(value)`: `<br>` is read as `;`, and the skills of the `;` entries are concatenated in order. |
| ResumeProperties.HobbyEntryPlain | 3/3.2.py:70-72 | A non-blank entry without a colon is one skill, the trimmed entry. |
| ResumeProperties.HobbyEntryBlank | 3/3.2.py:70-73 | A blank entry adds nothing. |
| ResumeProperties.HobbyEntryOfTrimmed | 3/3.2.py:69-70 | An entry is trimmed before it is examined, so surrounding whitespace (as in the entry after `; `) never changes its skills. |
| ResumeProperties.HobbyEntryLabelled | 3/3.2.py:70-78 | An entry that trims to `label:items`, padded or not, adds the trimmed label, then each trimmed comma piece of the items. |
| ResumeProperties.HobbiesExample | 3/3.2.py:66-78 | `Art;Games: Go, Chess` gives `Art`, `Games`, `Go`, `Chess`, in that order. |
| Resume.SplitLanguage | 3/3.2.py:87-92 | One pass of the language loop adds exactly `LanguageEntry(piece)`. |
| Resume.SplitLanguages | 3/3.2.py:84-92 | The language loop produces `LanguageSkills(value)`, one skill per `;` entry. |
| ResumeProperties.LanguageEntryHyphen | 3/3.2.py:88-90 | A trimmed entry `name-level` whose name has no hyphen becomes `name (level)`, with both parts trimmed. |
| ResumeProperties.LanguageEntryPlain | 3/3.2.py:91-92 | An entry without a hyphen is kept, trimmed. |
| ResumeProperties.LanguageEntryOfTrimmed | 3/3.2.py:87 | An entry is trimmed before it is examined, so surrounding whitespace never changes its skill. |
| ResumeProperties.LanguageEntries | 3/3.2.py:86-92 | The loop adds exactly one skill per entry: the `k`-th skill is the `k`-th entry rebuilt. |
| ResumeProperties.LanguageSkillsShape | 3/3.2.py:85-92 | Languages give as many skills as there are `;` entries, empty entries included. Skill `k` is entry `k` rebuilt. |
| ResumeProperties.LanguagesExample | 3/3.2.py:84-92 | `EN - B2; DE - A1` gives `EN (B2)` and `DE (A1)`. |
| Resume.KeptText | 3/3.2.py:100-104 | A consumed line contributes at most one piece of text. That piece is non-empty and does not open a row. A line without `<td class=c2>` whose trimmed text is non-empty and does not open a row is kept exactly as that trimmed text: markers are removed only from value-cell lines. |
| Resume.Lookahead | 3/3.2.py:97-105 | Everything the lookahead collects is non-empty and does not open a row. |
| Resume.LookaheadConsumes | 3/3.2.py:98-105 | Consuming line `j` moves that line's kept text from what is still ahead to what has been collected. |
| Resume.CollectSpecialisation | 3/3.2.py:96-105 | The lookahead loop consumes every line from `start` to its stop line, stops at the end of the lines or at the first line that fails the loop condition, and collects exactly `Lookahead(lines, start)`; the line where it stops is `StopLine(lines, start)`. |
| Resume.StopLine | 3/3.2.py:98-99 | The first line from `j` on that the lookahead does not consume: it is the end of the lines or a line that fails the loop condition. |
| Resume.StopLineConsumes | 3/3.2.py:98-105 | Every line from `j` up to the stop line is consumed. |
| ResumeProperties.LookaheadConsumesClosingTag | 3/3.2.py:98-99 | A line whose trimmed text starts with `</` is consumed: the loop does not stop at a closing row tag. |
| ResumeProperties.LookaheadTakesValueLine | 3/3.2.py:97-99 | Started at a row's value line, the lookahead always consumes that line first. |
| ResumeProperties.ClosingRowKept | 3/3.2.py:98-104 | `</tr>` is consumed and kept as the text `</tr>`. |
| Resume.CompositeSkills | 3/3.2.py:23-37 | Text without a colon is one skill, unchanged. Text with a colon gives trimmed, comma-free pieces. |
| ResumeProperties.CompositeLabelDiscarded | 3/3.2.py:28-33 | For `label:items`, the label is dropped and the skills are the trimmed comma pieces of the items. |
| Resume.SplitSection | 3/3.2.py:110-118 | One pass of the section loop adds exactly `SectionSkills(section)`. |
| Resume.SplitSections | 3/3.2.py:107-118 | The section loop produces `SpecialisationSkills(collected)`: the collected text is joined with spaces and cut at `<br>`, and the skills of the sections are concatenated in order. |
| ResumeProperties.DropNumberingPrefix | 3/3.2.py:113-114 | A section `d.rest` whose first character is a digit, with no `.` in `d`, becomes the trimmed `rest`. |
| ResumeProperties.DropNumberingKeeps | 3/3.2.py:113 | A section that does not start with a digit keeps its text. |
| ResumeProperties.DropNumberingVersion | 3/3.2.py:113-114 | `1С 8.3` loses everything up to its first `.` and becomes `3`. |
| ResumeProperties.SectionBlank | 3/3.2.py:111-112 | A blank section gives no skill. |
| ResumeProperties.SectionPlain | 3/3.2.py:111-118 | A section with no leading digit and no colon is one skill, the trimmed section. |
| Resume.RowSkills | 3/3.2.py:62-118 | Without a row, nothing is added. Soft skills come only from the qualities, hobbies and achievements categories. Hard skills come only from the languages and specialisation categories. |
| Resume.ScanRow | 3/3.2.py:42-118 | One pass of the line loop adds exactly `RowSkills(lines, i)`, category by category, with the specialisation text taken from the lookahead at line `i + 2`. |
| Resume.ConcatMember | 3/3.2.py:64-118 | A skill is in the concatenated lists exactly when one of the parts holds it, in both directions. |
| ResumeProperties.RawSkillsMember | 3/3.2.py:41-118 | A skill is in the raw soft or hard list exactly when the row at some line added it. |
| Resume.ExtractSkills | 3/3.2.py:16-131 | The final soft skills are exactly the raw soft skills longer than one character other than `br`. The final hard skills are exactly the raw hard skills longer than two characters. Both are de-duplicated, as sets. |
| Vacancies.SearchText | 4/requests_testing.py:169 | The searched text is the name, a space and the snippet, lower-cased: it has their total length, the space right after the name, each name character lower-cased at its own index, and each snippet character lower-cased after the space. |
| VacancyProperties.NameOccurrenceLowered | 4/requests_testing.py:169 | Any occurrence of a string in the name appears, lower-cased, at the same position of the searched text. |
| VacancyProperties.CapitalisedNameDetected | 4/requests_testing.py:169-175 | Matching ignores case: a vacancy whose name contains `Python` is reported as `Python` under either table. |
| Vacancies.ExtractTechnologies | 4/requests_testing.py:168-177 | The nested keyword loop with its `break` reports exactly the labels `Detected` gives for the lower-cased text. |
| VacancyProperties.DetectedMember | 4/requests_testing.py:171-175 | A label is reported exactly when some technology of the table carries it and the text holds one of that technology's keywords as a substring. |
| VacancyProperties.DetectedLabels | 4/requests_testing.py:171-177 | Every reported label is a label of the table. |
| VacancyProperties.DetectedSize | 4/requests_testing.py:168-177 | No more labels are reported than the table has technologies. |
| VacancyProperties.DetectedAtMost19 | 4/requests_testing.py:146-166 | Both tables have 19 technologies, so at most 19 labels are reported. |
| VacancyProperties.DetectedAppend | 4/requests_testing.py:171-175 | Detection over two tables in sequence reports the union of what each reports. |
| VacancyProperties.DetectedBy | 4/requests_testing.py:172-174 | A technology is reported as soon as one of its keywords occurs. |
| VacancyProperties.BlankTextDetectsNothing | 4/requests_testing.py:169-175 | A text of whitespace only reports nothing when every keyword starts with a visible character. |
| VacancyProperties.CommonVisible | 4/requests_testing.py:149-165 | Every keyword of the seventeen shared technologies starts with a visible ASCII character. |
| VacancyProperties.TablesVisible | 4/requests_testing.py:146-166 | Every keyword of both tables starts with a visible ASCII character. |
| VacancyProperties.EmptyVacancyDetectsNothing | 4/requests_testing.py:213-218 | A vacancy with an empty name and an empty or missing snippet reports no technology, under either table. |
| VacancyProperties.DjangoAlsoGo | 4/requests_testing.py:148-175 | Matching is by substring: a text with `django` reports both `Django и др.` and `Go`. |
| VacancyProperties.JavaScriptAlsoJava | 4/requests_testing.py:149-175 | Matching is by substring: a text with `javascript` reports both `JavaScript` and `Java`. |
| VacancyProperties.MentionsWithAbsent | 4/requests_testing.py:172-175 | Adding a keyword that does not occur in the text does not change whether a technology is found. |
| VacancyProperties.TablesAgreeWithoutFastapi | 4/4.1_testing.py:128-148 | The two tables report the same labels for every text that does not contain `fastapi`. |
| VacancyProperties.FastapiLabels | 4/4.1_testing.py:129 | A text containing `fastapi` reports `Python` under the table of `4/4.1_testing.py` and `Django и др.` under the table of `4/requests_testing.py`. |
| VacancyProperties.FastapiOnlyVariantHead | 4/4.1_testing.py:129-130 | With `fastapi` but none of `python`, `django`, `flask`, the first two technologies of `4/4.1_testing.py` report `Python` alone. |
| VacancyProperties.FastapiOnlyRequestsHead | 4/requests_testing.py:147-148 | With `fastapi` but none of `python`, `django`, `flask`, the first two technologies of `4/requests_testing.py` report `Django и др.` alone. |
| VacancyProperties.CommonLabelsDistinct | 4/requests_testing.py:149-165 | Neither `Python` nor `Django и др.` is a label of the seventeen shared technologies. |
| VacancyProperties.FastapiExample | 4/4.1_testing.py:128-157 | On the text `fastapi` the two tables differ exactly in the first two labels. One reports `Python` where the other reports `Django и др.`, and they agree on the rest. |
| Vacancies.AverageSalary | 4/requests_testing.py:192-204 | There is an average exactly when a salary exists and at least one bound is non-zero. With both bounds, the average is their mean and lies between them. With one bound, the average is that bound. |
| VacancyProperties.ZeroBoundIsMissing | 4/requests_testing.py:197-202 | A zero bound counts as a missing one (Python truthiness). |
| Vacancies.SnippetText | 4/requests_testing.py:213-216 | The snippet text has the length of requirement and responsibility plus one, the requirement before the space (at the index equal to the requirement's length), and the responsibility after it; a missing or null field counts as empty. A missing snippet reads as a single space. |
| VacancyProperties.BlankSnippets | 4/requests_testing.py:213-216 | A missing snippet and a snippet whose fields are each missing, null or empty all read as the same text, a single space. |
| Vacancies.SummariseVacancy | 4/requests_testing.py:190-230 | One pass of the vacancy loop builds exactly the vacancy's name, average salary and detected technologies. |
| Vacancies.TallyStep | 4/requests_testing.py:219 | Extending the label list with one vacancy's technologies adds each of them once to the counts. |
| Vacancies.AnalyzeVacancies | 4/requests_testing.py:188-235 | The loop builds one row per vacancy, in order, each that vacancy's summary. The counts are the labels of all rows, each counted once per row that lists it. |
| VacancyProperties.TallyMember | 4/requests_testing.py:234-235 | A label is counted exactly when some row lists it. |
| VacancyProperties.TallyBound | 4/requests_testing.py:219 | A label's count never exceeds the number of vacancies. |
| VacancyProperties.TalliedLabelFromTable | 4/requests_testing.py:218-235 | Every label the vacancy loop counts is a label of the table it used. |

## Left out

- Reading the resume file and the vacancy JSON: the resume is given as its list of lines (split at `\n`), and the vacancies as a sequence of records.
- Everything after extraction is not part of this model: semantic similarity, ranking, data frames, plots, exports, load testing, memory measurement, and the HTTP and browser collectors. None of it is in the extraction core.
- Vacancy fields the analysis only copies are not modelled: id, experience, employment, area and publication date.
- Python's Unicode tables are approximated:
  - `isspace()` uses Python's whitespace characters;
  - `isdigit()` accepts only ASCII digits;
  - `lower()` folds only ASCII and basic Cyrillic letters.
- Salaries are `real`, without floating-point rounding.
- Result order is not modelled:
  - `extract_technologies` returns `list(set(...))`, whose order Python leaves unspecified, so the model returns a set;
  - the de-duplicated skill lists are also sets;
  - `value_counts` becomes a multiset, without its sort by frequency.
- Vacancies.AnalyzeVacancies: assumes every record is well-formed and always builds one row per vacancy. In the source one malformed record stops the whole analysis with an exception:
  - a record without `name` raises at `4/requests_testing.py:218`;
  - a record without `id`, `area` or `published_at` raises at lines 222, 227 and 228;
  - a null `experience` or `employment` raises at lines 207 and 210;
  - a snippet that is present but null raises at line 214.
- VacancyProperties.FastapiExample: names the two labels that differ but does not enumerate which of the seventeen shared labels the text `fastapi` also reports; both tables agree on them.
- Resume.CollectSpecialisation: also returns the index where the lookahead stopped; the source discards it, because the outer loop does not skip consumed lines.
