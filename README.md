# Task migrator: the suggestion builder of the "migrate a task" picker

This project models `OptionsModal.getSuggestions` of the task-migrator note-editor
plugin. The picker calls it with the text the user has typed. It returns the
ordered list of strings shown as choices. It works in three steps:

1. **Day-word normaliser.** The query as typed is tested against ten
   three-letter prefixes (`tod`, `tom`, `yes`, `mon` … `sun`). If the query
   starts with one of them, the word of that prefix (`today`, `tomorrow`,
   `yesterday`, `monday` … `sunday`) becomes the phrase handed to the date
   parser. Otherwise the query itself is handed over.
2. **Filter.** The vault's markdown paths are kept, in vault order, when their
   lower-cased form includes the lower-cased query, or includes the ISO date
   the parser recognised.
3. **Create entry.** When a date `d` was recognised and `Daily Logs/d.md`
   does not resolve to a file, the entry
   `Create new daily note: Daily Logs/d.md` is pushed onto the end of the list.

Files:

- `js_strings.dfy`, module `JsStrings`: the JavaScript string operations the
  builder uses. `StartsWith` models `startsWith`. `Includes` models `includes`,
  and is proved to be exactly the substring relation. `Lower` models
  `toLowerCase` on ASCII.
- `options_modal.dfy`, module `OptionsModal`:
  - the prefix table;
  - the normaliser twice over: `NormaliseDateQuery`, the source's chain of ten
    overwriting `if`s as a method, and `DateQuery`, a first-match scan of the
    table as a function, proved equal;
  - the filter `FilterPaths`;
  - the specification function `Suggestions`;
  - the method `GetSuggestions`, which follows the source step by step and is
    proved equal to `Suggestions`;
  - lemmas for soundness, completeness, order, the empty query, the create
    entry and the length bound.

The host is passed in explicitly:

- the vault's markdown paths (`getMarkdownFiles().map(path)`) are a
  `seq<string>` in enumeration order;
- the date parser together with the ISO formatting
  (`chrono.parseDate`, then `toISOString().split('T')[0]`) is a parameter
  `parse: string -> Option<string>`, where `None` means that no date was
  recognised;
- the paths for which `getAbstractFileByPath` returns a file or
  folder are a `set<string>`.

The model follows what main.ts does. Some points are easy to misread:

- The comment above `getSuggestions` (main.ts:51-52) says a recognised date
  is added "as a first suggestion", and that otherwise the filtered files are
  returned. The code does something else. It always filters the vault, and it
  pushes the create entry at the END of the list (main.ts:100). The model
  follows the code: `CreateEntryIffMissing` and `ScenarioToday` state the
  entry's place at the end.
- The prefix test runs on the query as typed, before lower-casing
  (main.ts:56 against main.ts:87). So `"Tod"` is not normalised, and
  `CapitalisedPrefixNotNormalised` states this. The filter still compares
  lower-cased text, so it is case-insensitive.
- The filter also admits paths that include the recognised date (main.ts:93).
- The folder is the literal `Daily Logs/` (main.ts:97). The entries are plain
  strings.
- `date && …` in the filter is JavaScript truthiness, so an empty date string
  admits nothing on its own. `Matches` writes that out as `date.value != ""`.

## Model

| member | source | states |
|---|---|---|
| JsStrings.StartsWith | main.ts:56-83 | `s.startsWith(p)`: p is no longer than s and equals the start of s of the same length |
| JsStrings.Includes | main.ts:93 | `s.includes(t)`: t is a prefix of s or of one of its suffixes (by `IncludesIffOccurs`, t occurs at some position of s) |
| JsStrings.IncludesIffOccurs | main.ts:93 | `includes` holds exactly when the query occurs at some position of the path |
| JsStrings.IncludesEmpty | main.ts:93 | every string includes the empty string |
| JsStrings.IncludesLonger | main.ts:93 | no string includes a longer string |
| JsStrings.Lower | main.ts:87 | lower-casing keeps the length, leaves no upper-case letter, moves each of `A`–`Z` to its lower-case letter and keeps every other character |
| JsStrings.LowerIdempotent | main.ts:87 | lower-casing twice gives the same as lower-casing once |
| JsStrings.LowerOfLower | main.ts:87 | a string with no upper-case letter is its own lower-case form |
| OptionsModal.TableWellFormed | main.ts:56-85 | ten prefixes and ten words; every prefix has three characters; no two prefixes are equal; every word is lower-case |
| OptionsModal.PrefixesExclusive | main.ts:56-85 | no query starts with two different prefixes of the table, so at most one branch of the chain fires |
| OptionsModal.MatchFrom | main.ts:56-85 | scanning the table from a given entry gives the word of any matching prefix at or after it, and the query itself when no such prefix matches |
| OptionsModal.DateQuery | main.ts:55-85 | the date phrase is the word of the prefix the raw query starts with, and the query unchanged when it starts with none |
| OptionsModal.NormaliseDateQuery | main.ts:55-85 | the ten overwriting `if`s give the same phrase as `DateQuery`, so the order of the chain does not affect the result |
| OptionsModal.DateQueryIgnoresRest | main.ts:56-85 | a prefix followed by any text is normalised to that prefix's word |
| OptionsModal.CapitalisedPrefixNotNormalised | main.ts:56-87 | the prefix test is case-sensitive: `"Tod"` and `"MONDAY"` go to the parser unchanged |
| OptionsModal.Matches | main.ts:93 | the filter callback: the lower-cased path includes the lower-cased query, or a date was recognised, is non-empty and is included in the lower-cased path |
| OptionsModal.FilterPaths | main.ts:91-93 | a path is in the result exactly when it is in the vault and matches; each matching path is kept as many times as the vault holds it, and each other path is dropped |
| OptionsModal.FilterIsSubsequence | main.ts:91-93 | the filtered list is a subsequence of the vault, so the vault's order is kept |
| OptionsModal.FilterAppend | main.ts:91-93 | filtering two runs of the vault one after the other gives the matches of the first run followed by those of the second |
| OptionsModal.FilterEmptyQuery | main.ts:93 | with an empty query the filter returns the whole vault unchanged |
| OptionsModal.DailyLogPath | main.ts:97 | the daily note of date d is `Daily Logs/` + d + `.md` |
| OptionsModal.CreateEntry | main.ts:100 | the synthetic entry is `Create new daily note: ` followed by the daily note's path |
| OptionsModal.Trailer | main.ts:96-101 | what follows the filtered paths: one create entry when a date was recognised and its daily note does not exist, nothing otherwise |
| OptionsModal.Suggestions | main.ts:53-106 | the list for a query: the vault filtered by `Matches` with the lower-cased query and the date parsed from `DateQuery`, followed by `Trailer`; the lemmas below state its properties |
| OptionsModal.GetSuggestions | main.ts:53-106 | the step-by-step builder returns exactly the list `Suggestions` specifies |
| OptionsModal.SuggestionsSound | main.ts:87-101 | every entry is a vault path that includes the lower-cased query or the date, except a final create entry for a recognised date whose note is missing |
| OptionsModal.SuggestionsComplete | main.ts:91-101 | the list starts with the filtered vault; that part keeps vault order; every matching vault path appears in the list |
| OptionsModal.EmptyQueryListsVault | main.ts:87-101 | an empty query lists the whole vault first, in vault order |
| OptionsModal.NoDateNoEntry | main.ts:89-96 | with no recognised date there is no create entry, and the list is the vault filtered by the query alone |
| OptionsModal.CreateEntryIffMissing | main.ts:96-101 | with recognised date `d`, the list is the filtered vault plus exactly one trailing `Create new daily note: Daily Logs/d.md` if and only if that path does not exist; otherwise it is the filtered vault alone |
| OptionsModal.SuggestionsLength | main.ts:91-101 | the list has at most one more entry than the vault |
| OptionsModal.NothingMatchesEmpty | main.ts:87-101 | with no recognised date, and no vault path that includes the query, the list is empty |
| OptionsModal.ScenarioEmptyQuery | main.ts:87-101 | query `""` on the vault `["A.md", "B.md"]`, with no date, gives `["A.md", "B.md"]` |
| OptionsModal.ScenarioToday | main.ts:55-101 | query `"tod"` on `["Todo.md", "B.md"]`, with "today" parsed as 2024-03-01 and no daily note, gives `["Todo.md", "Create new daily note: Daily Logs/2024-03-01.md"]` |

## Left out

- `chrono.parseDate` and `Date.toISOString` (main.ts:88-89) belong to an external
  natural-language date library and to time-zone conversion. They are the
  parameter `parse`, which may return any string. The model does not require
  the `YYYY-MM-DD` shape, and it does not model `toISOString` throwing on an
  invalid date.
- `getMarkdownFiles` and `getAbstractFileByPath` (main.ts:91, 98) are host
  calls. They are the `vault` sequence and the `existing` set.
- `toLowerCase` beyond ASCII: Unicode case mapping is not modelled. Only `A`–`Z`
  are lower-cased.
- JavaScript strings are sequences of UTF-16 code units; a Dafny `string` is a
  sequence of Unicode scalar values. For well-formed text, `startsWith` and
  `includes` give the same answers in both. Strings with lone surrogates
  cannot be written in the model at all.
- The `Promise` wrapper (main.ts:54, 104) is asynchronous plumbing with no
  logic of its own. So is the possible race between overlapping calls.
- `renderSuggestion` and `onChooseSuggestion` (main.ts:107-112) are UI
  rendering and logging. The constructor's empty-state text (main.ts:46-49)
  is UI text.
- Plugin start-up, command registration, settings loading and saving, and the
  settings tab (main.ts:14-42, 115-142) are persistence and UI glue.
- Task-line rewriting and inserting into the target document are not in
  main.ts, so they are not part of this model.
