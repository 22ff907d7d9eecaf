/** The suggestion builder of the "migrate a task" picker (`OptionsModal` in
    main.ts). A free-text query becomes the ordered list of strings the picker
    shows: the vault's markdown paths that match the query (or the date the
    query names), followed, when a date was recognised and its daily note does
    not exist yet, by one synthetic "Create new daily note" entry.

    The host is passed in explicitly: the vault's markdown paths as a sequence
    in enumeration order, the natural-language date parser (already composed
    with the ISO `YYYY-MM-DD` formatting) as a function, and the paths that
    resolve to an existing file or folder as a set. */
module OptionsModal {
  import opened JsStrings

  datatype Option<T> = None | Some(value: T)

  /** The ten three-letter prefixes the picker recognises, in the order they are
      tested, and the word each is replaced by before date parsing. */
  const DayPrefixes: seq<string> :=
    ["tod", "tom", "yes", "mon", "tue", "wed", "thu", "fri", "sat", "sun"]
  const DayWords: seq<string> :=
    ["today", "tomorrow", "yesterday", "monday", "tuesday", "wednesday",
     "thursday", "friday", "saturday", "sunday"]

  const DailyLogsFolder: string := "Daily Logs/"
  const CreateLabel: string := "Create new daily note: "

  /** The table is well formed: as many words as prefixes, every prefix three
      characters long, no prefix twice, every word lower-case. */
  lemma TableWellFormed()
    ensures |DayPrefixes| == |DayWords| == 10
    ensures forall k :: 0 <= k < |DayPrefixes| ==> |DayPrefixes[k]| == 3
    ensures forall i, j :: 0 <= i < j < |DayPrefixes| ==> DayPrefixes[i] != DayPrefixes[j]
    ensures forall k :: 0 <= k < |DayWords| ==>
              forall i :: 0 <= i < |DayWords[k]| ==> !IsUpper(DayWords[k][i])
  {
  }

  /** At most one prefix of the table matches any query, because all prefixes
      have the same length and are pairwise distinct. */
  lemma PrefixesExclusive(query: string, i: nat, j: nat)
    requires i < |DayPrefixes| && j < |DayPrefixes|
    requires StartsWith(query, DayPrefixes[i]) && StartsWith(query, DayPrefixes[j])
    ensures i == j
  {
    TableWellFormed();
    assert DayPrefixes[i] == query[..3] == DayPrefixes[j];
  }

  /** Replacement chosen by scanning the table from entry k on and stopping at
      the first matching prefix. */
  function MatchFrom(query: string, k: nat): (r: string)
    requires k <= |DayPrefixes|
    ensures forall j :: k <= j < |DayPrefixes| && StartsWith(query, DayPrefixes[j]) ==>
              r == DayWords[j]
    ensures (forall j :: k <= j < |DayPrefixes| ==> !StartsWith(query, DayPrefixes[j])) ==>
              r == query
    decreases |DayPrefixes| - k
  {
    if k == |DayPrefixes| then query
    else if StartsWith(query, DayPrefixes[k]) then
      (forall j | k <= j < |DayPrefixes| && StartsWith(query, DayPrefixes[j])
         ensures j == k
       {
         PrefixesExclusive(query, j, k);
       }
       DayWords[k])
    else MatchFrom(query, k + 1)
  }

  /** The phrase handed to the date parser: the word of the prefix the raw
      query starts with, or the query itself when it starts with none. The
      test is case-sensitive, on the query as typed. */
  function DateQuery(query: string): (r: string)
    ensures forall k :: 0 <= k < |DayPrefixes| && StartsWith(query, DayPrefixes[k]) ==>
              r == DayWords[k]
    ensures (forall k :: 0 <= k < |DayPrefixes| ==> !StartsWith(query, DayPrefixes[k])) ==>
              r == query
  {
    MatchFrom(query, 0)
  }

  /** The source's chain of ten `if`s, each overwriting the date query when its
      prefix matches. Because at most one prefix matches, the overwriting order
      gives the same phrase as the first-match scan of DateQuery. */
  method NormaliseDateQuery(query: string) returns (dateQuery: string)
    ensures dateQuery == DateQuery(query)
  {
    dateQuery := query;
    if StartsWith(query, "tod") {
      dateQuery := "today";
    }
    if StartsWith(query, "tom") {
      dateQuery := "tomorrow";
    }
    if StartsWith(query, "yes") {
      dateQuery := "yesterday";
    }
    if StartsWith(query, "mon") {
      dateQuery := "monday";
    }
    if StartsWith(query, "tue") {
      dateQuery := "tuesday";
    }
    if StartsWith(query, "wed") {
      dateQuery := "wednesday";
    }
    if StartsWith(query, "thu") {
      dateQuery := "thursday";
    }
    if StartsWith(query, "fri") {
      dateQuery := "friday";
    }
    if StartsWith(query, "sat") {
      dateQuery := "saturday";
    }
    if StartsWith(query, "sun") {
      dateQuery := "sunday";
    }
  }

  /** A query made of a table prefix followed by anything is normalised to that
      prefix's word, whatever the rest is. */
  lemma DateQueryIgnoresRest(k: nat, rest: string)
    requires k < |DayPrefixes|
    ensures DateQuery(DayPrefixes[k] + rest) == DayWords[k]
  {
    assert (DayPrefixes[k] + rest)[..|DayPrefixes[k]|] == DayPrefixes[k];
  }

  /** The prefix test runs before lower-casing: a capitalised prefix is not
      recognised and the query goes to the parser as typed. */
  lemma CapitalisedPrefixNotNormalised()
    ensures DateQuery("Tod") == "Tod"
    ensures DateQuery("MONDAY") == "MONDAY"
  {
    assert "Tod" !in DayPrefixes && "MON" !in DayPrefixes;
    assert "Tod"[..3] == "Tod" && "MONDAY"[..3] == "MON";
  }

  /** The filter's predicate: the lower-cased path includes the lower-cased
      query, or includes the recognised date (a JavaScript empty string is
      falsy, so an empty date admits nothing by itself). */
  predicate Matches(path: string, loweredQuery: string, date: Option<string>) {
    Includes(Lower(path), loweredQuery)
    || (date.Some? && date.value != "" && Includes(Lower(path), date.value))
  }

  /** `paths.filter(Matches)`: the matching paths, each kept as often as it
      occurs in the vault, the others dropped. */
  function FilterPaths(paths: seq<string>, loweredQuery: string, date: Option<string>): (r: seq<string>)
    ensures |r| <= |paths|
    ensures forall x :: multiset(r)[x] ==
              if Matches(x, loweredQuery, date) then multiset(paths)[x] else 0
    ensures forall x :: x in r <==> x in paths && Matches(x, loweredQuery, date)
  {
    if paths == [] then []
    else
      assert paths == [paths[0]] + paths[1..];
      (if Matches(paths[0], loweredQuery, date) then [paths[0]] else [])
      + FilterPaths(paths[1..], loweredQuery, date)
  }

  /** r can be obtained from s by deleting elements. */
  predicate IsSubsequence(r: seq<string>, s: seq<string>)
    decreases |s|
  {
    if r == [] then true
    else if s == [] then false
    else if r[0] == s[0] then IsSubsequence(r[1..], s[1..])
    else IsSubsequence(r, s[1..])
  }

  /** Putting an element in front of s keeps every subsequence of s. */
  lemma {:induction false} SubsequenceOfTail(r: seq<string>, x: string, s: seq<string>)
    requires IsSubsequence(r, s)
    ensures IsSubsequence(r, [x] + s)
    decreases |s|, 1
  {
    assert ([x] + s)[1..] == s;
    if r != [] && r[0] == x {
      SubsequenceDropHead(r, s);
    }
  }

  /** Dropping the first element of a subsequence keeps it a subsequence. */
  lemma {:induction false} SubsequenceDropHead(r: seq<string>, s: seq<string>)
    requires r != [] && IsSubsequence(r, s)
    ensures IsSubsequence(r[1..], s)
    decreases |s|, 0
  {
    assert [s[0]] + s[1..] == s;
    if r[0] != s[0] {
      SubsequenceDropHead(r, s[1..]);
    }
    SubsequenceOfTail(r[1..], s[0], s[1..]);
  }

  /** The filter keeps the vault's enumeration order. */
  lemma {:induction false} FilterIsSubsequence(paths: seq<string>, loweredQuery: string, date: Option<string>)
    ensures IsSubsequence(FilterPaths(paths, loweredQuery, date), paths)
  {
    if paths != [] {
      var tail := FilterPaths(paths[1..], loweredQuery, date);
      FilterIsSubsequence(paths[1..], loweredQuery, date);
      if Matches(paths[0], loweredQuery, date) {
        var r := [paths[0]] + tail;
        assert FilterPaths(paths, loweredQuery, date) == r;
        assert r[0] == paths[0] && r[1..] == tail;
      } else {
        assert FilterPaths(paths, loweredQuery, date) == [] + tail == tail;
        SubsequenceOfTail(tail, paths[0], paths[1..]);
        assert [paths[0]] + paths[1..] == paths;
      }
    }
  }

  /** Filtering distributes over concatenation: the matches of the first part of
      the vault come before the matches of the second part. */
  lemma {:induction false} FilterAppend(a: seq<string>, b: seq<string>, loweredQuery: string, date: Option<string>)
    ensures FilterPaths(a + b, loweredQuery, date)
            == FilterPaths(a, loweredQuery, date) + FilterPaths(b, loweredQuery, date)
  {
    if a == [] {
      assert a + b == b;
    } else {
      assert (a + b)[0] == a[0];
      assert (a + b)[1..] == a[1..] + b;
      FilterAppend(a[1..], b, loweredQuery, date);
    }
  }

  /** An empty query keeps every vault path, in order. */
  lemma {:induction false} FilterEmptyQuery(paths: seq<string>, date: Option<string>)
    ensures FilterPaths(paths, "", date) == paths
  {
    if paths != [] {
      IncludesEmpty(Lower(paths[0]));
      FilterEmptyQuery(paths[1..], date);
      assert [paths[0]] + paths[1..] == paths;
    }
  }

  /** The path of the daily note for an ISO date. */
  function DailyLogPath(date: string): string {
    DailyLogsFolder + date + ".md"
  }

  /** The synthetic entry offered when that daily note is missing. */
  function CreateEntry(date: string): string {
    CreateLabel + DailyLogPath(date)
  }

  /** What is appended after the filtered paths: the create entry, exactly when
      a date was recognised and its daily note does not exist. */
  function Trailer(date: Option<string>, existing: set<string>): seq<string> {
    if date.Some? && DailyLogPath(date.value) !in existing then [CreateEntry(date.value)] else []
  }

  /** The list the picker shows for a query. */
  function Suggestions(query: string, vault: seq<string>, parse: string -> Option<string>,
                       existing: set<string>): seq<string>
  {
    var date := parse(DateQuery(query));
    FilterPaths(vault, Lower(query), date) + Trailer(date, existing)
  }

  /** `getSuggestions`: normalise the date query, lower-case the query, parse the
      date, filter the vault, and push the create entry when it is due. */
  method GetSuggestions(query: string, vault: seq<string>, parse: string -> Option<string>,
                        existing: set<string>) returns (files: seq<string>)
    ensures files == Suggestions(query, vault, parse, existing)
  {
    var dateQuery := NormaliseDateQuery(query);
    var loweredQuery := Lower(query);
    var date := parse(dateQuery);
    files := FilterPaths(vault, loweredQuery, date);
    if date.Some? {
      var path := DailyLogsFolder + date.value + ".md";
      if path !in existing {
        files := files + [CreateLabel + path];
      }
    }
  }

  /** Soundness: every entry is a matching vault path, except a final create
      entry for the recognised date whose daily note is missing. */
  lemma SuggestionsSound(query: string, vault: seq<string>, parse: string -> Option<string>,
                         existing: set<string>)
    ensures var out := Suggestions(query, vault, parse, existing);
            var date := parse(DateQuery(query));
            forall i :: 0 <= i < |out| ==>
              (out[i] in vault && Matches(out[i], Lower(query), date))
              || (i == |out| - 1 && date.Some? && DailyLogPath(date.value) !in existing
                  && out[i] == CreateEntry(date.value))
  {
    var date := parse(DateQuery(query));
    var base := FilterPaths(vault, Lower(query), date);
    var out := Suggestions(query, vault, parse, existing);
    forall i | 0 <= i < |out|
      ensures (out[i] in vault && Matches(out[i], Lower(query), date))
              || (i == |out| - 1 && date.Some? && DailyLogPath(date.value) !in existing
                  && out[i] == CreateEntry(date.value))
    {
      if i < |base| {
        assert out[i] == base[i];
        assert base[i] in base;
      }
    }
  }

  /** Completeness and order: the entries before the trailer are exactly the
      matching vault paths, in vault order and with their multiplicities. */
  lemma SuggestionsComplete(query: string, vault: seq<string>, parse: string -> Option<string>,
                            existing: set<string>)
    ensures var out := Suggestions(query, vault, parse, existing);
            var date := parse(DateQuery(query));
            var base := FilterPaths(vault, Lower(query), date);
            && |base| <= |out|
            && out[..|base|] == base
            && IsSubsequence(base, vault)
            && (forall p :: p in vault && Matches(p, Lower(query), date) ==> p in out)
  {
    var date := parse(DateQuery(query));
    var base := FilterPaths(vault, Lower(query), date);
    FilterIsSubsequence(vault, Lower(query), date);
    assert (base + Trailer(date, existing))[..|base|] == base;
  }

  /** An empty query lists the whole vault first, in order. */
  lemma EmptyQueryListsVault(vault: seq<string>, parse: string -> Option<string>,
                             existing: set<string>)
    ensures var out := Suggestions("", vault, parse, existing);
            |vault| <= |out| && out[..|vault|] == vault
  {
    var date := parse(DateQuery(""));
    FilterEmptyQuery(vault, date);
    assert Lower("") == "";
    assert (vault + Trailer(date, existing))[..|vault|] == vault;
  }

  /** Without a recognised date there is no create entry and the list is the
      query-filtered vault. */
  lemma NoDateNoEntry(query: string, vault: seq<string>, parse: string -> Option<string>,
                      existing: set<string>)
    requires parse(DateQuery(query)).None?
    ensures Suggestions(query, vault, parse, existing) == FilterPaths(vault, Lower(query), None)
  {
    assert FilterPaths(vault, Lower(query), None) + [] == FilterPaths(vault, Lower(query), None);
  }

  /** With a recognised date d, the list is the filtered vault followed by
      exactly one create entry for d if and only if d's daily note is missing;
      otherwise it is the filtered vault alone. */
  lemma CreateEntryIffMissing(query: string, vault: seq<string>, parse: string -> Option<string>,
                              existing: set<string>, d: string)
    requires parse(DateQuery(query)) == Some(d)
    ensures var out := Suggestions(query, vault, parse, existing);
            var base := FilterPaths(vault, Lower(query), Some(d));
            && (out == base + [CreateEntry(d)] <==> DailyLogPath(d) !in existing)
            && (DailyLogPath(d) in existing ==> out == base)
  {
    var base := FilterPaths(vault, Lower(query), Some(d));
    if DailyLogPath(d) in existing {
      assert base + [] == base;
      assert |base| != |base + [CreateEntry(d)]|;
    }
  }

  /** The list holds at most one entry more than the vault. */
  lemma SuggestionsLength(query: string, vault: seq<string>, parse: string -> Option<string>,
                          existing: set<string>)
    ensures |Suggestions(query, vault, parse, existing)| <= |vault| + 1
  {
  }

  /** A query that matches no path and names no date gives an empty list. */
  lemma NothingMatchesEmpty(query: string, vault: seq<string>, parse: string -> Option<string>,
                            existing: set<string>)
    requires parse(DateQuery(query)).None?
    requires forall p :: p in vault ==> !Includes(Lower(p), Lower(query))
    ensures Suggestions(query, vault, parse, existing) == []
  {
  }

  /** An empty query with no date recognised lists the vault as it is. */
  lemma ScenarioEmptyQuery()
    ensures Suggestions("", ["A.md", "B.md"], _ => None, {}) == ["A.md", "B.md"]
  {
    EmptyQueryListsVault(["A.md", "B.md"], _ => None, {});
  }

  /** "Todo.md" includes "tod" once lower-cased. */
  lemma TodoMatches()
    ensures Matches("Todo.md", "tod", Some("2024-03-01"))
  {
    assert Lower("Todo.md") == "todo.md";
    assert "todo.md"[..3] == "tod";
  }

  /** "b.md" includes neither "tod" nor the date 2024-03-01. */
  lemma OtherDoesNotMatch()
    ensures !Matches("B.md", "tod", Some("2024-03-01"))
  {
    assert Lower("B.md") == "b.md";
    assert "b.md"[0] != "tod"[0];
    assert "b.md"[1..] == ".md" && ".md"[0] != "tod"[0];
    assert ".md"[1..] == "md";
    IncludesLonger("md", "tod");
    IncludesLonger("b.md", "2024-03-01");
  }

  /** Of "Todo.md" and "B.md", only the first survives the filter for "tod". */
  lemma TodayFilter()
    ensures FilterPaths(["Todo.md", "B.md"], "tod", Some("2024-03-01")) == ["Todo.md"]
  {
    TodoMatches();
    OtherDoesNotMatch();
    var vault := ["Todo.md", "B.md"];
    assert vault[1..] == ["B.md"] && vault[1..][1..] == [];
  }

  /** "tod" is read as "today" and is already lower-case. */
  lemma TodQuery()
    ensures DateQuery("tod") == "today" && Lower("tod") == "tod"
  {
    DateQueryIgnoresRest(0, "");
    assert "tod" == DayPrefixes[0] + "";
  }

  /** The create entry for 2024-03-01, written out. */
  lemma CreateEntryText()
    ensures CreateEntry("2024-03-01") == "Create new daily note: Daily Logs/2024-03-01.md"
  {
  }

  /** "tod" is read as "today"; with a parser that dates "today" 2024-03-01, a
      path including the query is kept, another is dropped, and the missing
      daily note is offered last. */
  lemma ScenarioToday(parse: string -> Option<string>)
    requires parse("today") == Some("2024-03-01")
    ensures Suggestions("tod", ["Todo.md", "B.md"], parse, {})
            == ["Todo.md", "Create new daily note: Daily Logs/2024-03-01.md"]
  {
    assert Suggestions("tod", ["Todo.md", "B.md"], parse, {})
           == ["Todo.md", CreateEntry("2024-03-01")] by {
      TodQuery();
      TodayFilter();
    }
    CreateEntryText();
  }
}
