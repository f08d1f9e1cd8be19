/**
 * Title-level company detection: the reference table of company names
 * loaded from a CSV file, and the fuzzy pre-filter that finds reference
 * companies among the noun chunks of a video title.
 */
module CompanyDetection {
  import opened Base
  import opened Text

  /** A best match must score at least this much (on a 0..100 scale). */
  const SIMILARITY_THRESHOLD: int := 85

  const NAME_COLUMN: string := "Company Name"

  /** Words dropped from a noun chunk before it is scored. */
  const FINANCIAL_STOP_WORDS: set<string> := {
    "earnings", "report", "call", "guidance", "analysis", "stock", "stocks",
    "market", "quarter", "investing", "finance", "inc", "company", "corporation",
    "ltd", "limited", "industries"
  }

  /**
   * What reading the CSV file gives: no file at all, or the table's columns
   * by header, each a list of cells where None is a missing value.
   */
  datatype CsvFile = FileNotFound | Table(columns: map<string, seq<Option<string>>>)

  /**
   * The reference data: every company name lower-cased, in file order, and
   * the map from a lower-cased name back to the name as written in the file.
   */
  datatype CompanyData = CompanyData(namesLower: seq<string>, nameMap: map<string, string>)

  /** Every lower-cased name is a key of the map. */
  predicate Consistent(data: CompanyData) {
    forall i :: 0 <= i < |data.namesLower| ==> data.namesLower[i] in data.nameMap
  }

  /** The map sends every lower-cased name back to a spelling that lower-cases to it. */
  predicate LowerKeyed(data: CompanyData) {
    forall k :: k in data.nameMap ==> Lower(data.nameMap[k]) == k
  }

  /** The non-missing cells of a column, in order (`dropna().tolist()`). */
  function DropMissing(cells: seq<Option<string>>): (names: seq<string>)
    ensures forall n :: n in names <==> Some(n) in cells
  {
    if cells == [] then []
    else
      var init := DropMissing(cells[..|cells| - 1]);
      assert cells == cells[..|cells| - 1] + [cells[|cells| - 1]];
      match cells[|cells| - 1]
      case None => init
      case Some(n) => init + [n]
  }

  /** A single cell gives its name when present and nothing when missing. */
  lemma DropMissingOne(cell: Option<string>)
    ensures DropMissing([cell]) == (if cell.Some? then [cell.value] else [])
  {
    assert [cell][..0] == [];
  }

  /**
   * Dropping missing cells keeps file order and one entry per present
   * cell: the names of two runs of cells are those of each, one after the
   * other.
   */
  lemma {:induction false} DropMissingAppend(a: seq<Option<string>>, b: seq<Option<string>>)
    ensures DropMissing(a + b) == DropMissing(a) + DropMissing(b)
    decreases |b|
  {
    if b == [] {
      assert a + b == a;
    } else {
      var n := |b| - 1;
      DropMissingAppend(a, b[..n]);
      assert (a + b)[..|a + b| - 1] == a + b[..n];
      assert (a + b)[|a + b| - 1] == b[n];
      assert b[..n] + [b[n]] == b;
    }
  }

  function LowerAll(names: seq<string>): (r: seq<string>)
    ensures |r| == |names|
    ensures forall i :: 0 <= i < |names| ==> r[i] == Lower(names[i])
  {
    seq(|names|, i requires 0 <= i < |names| => Lower(names[i]))
  }

  /**
   * `dict(zip(keys, values))`: the pairs are inserted in order, so a key
   * that occurs twice ends up with the value paired with its last occurrence.
   */
  function ZipToMap(keys: seq<string>, values: seq<string>): (m: map<string, string>)
    requires |keys| == |values|
    ensures forall k :: k in m <==> k in keys
  {
    if keys == [] then map[]
    else
      var n := |keys| - 1;
      assert keys == keys[..n] + [keys[n]];
      ZipToMap(keys[..n], values[..n])[keys[n] := values[n]]
  }

  /**
   * `load_company_data`: a missing file or a missing "Company Name" column
   * gives empty data; otherwise the non-missing names, lower-cased in order,
   * and a map keyed by lower-cased name whose every value lower-cases to
   * its key.
   */
  function LoadCompanyData(csv: CsvFile): (d: CompanyData)
    ensures csv.FileNotFound? || NAME_COLUMN !in csv.columns ==> d == CompanyData([], map[])
    ensures csv.Table? && NAME_COLUMN in csv.columns ==>
              d.namesLower == LowerAll(DropMissing(csv.columns[NAME_COLUMN]))
    ensures Consistent(d)
    ensures forall k :: k in d.nameMap <==> k in d.namesLower
    ensures LowerKeyed(d)
  {
    if csv.FileNotFound? || NAME_COLUMN !in csv.columns then CompanyData([], map[])
    else
      var names := DropMissing(csv.columns[NAME_COLUMN]);
      var lower := LowerAll(names);
      var m := ZipToMap(lower, names);
      forall k | k in m ensures Lower(m[k]) == k {
        ZipPicksLast(lower, names, k);
        assert lower[LastIndexOf(lower, k)] == k;
      }
      CompanyData(lower, m)
  }

  /** The position of the last occurrence of `k` in `keys`. */
  function LastIndexOf(keys: seq<string>, k: string): (i: nat)
    requires k in keys
    ensures i < |keys| && keys[i] == k
    ensures forall j :: i < j < |keys| ==> keys[j] != k
  {
    var n := |keys| - 1;
    if keys[n] == k then n
    else
      assert k in keys[..n] by {
        var i :| 0 <= i < |keys| && keys[i] == k;
        assert keys[..n][i] == k;
      }
      var i := LastIndexOf(keys[..n], k);
      assert keys[..n][i] == keys[i];
      i
  }

  /**
   * The value a key maps to is the one paired with the key's last
   * occurrence.
   */
  lemma {:induction false} ZipPicksLast(keys: seq<string>, values: seq<string>, k: string)
    requires |keys| == |values| && k in keys
    ensures ZipToMap(keys, values)[k] == values[LastIndexOf(keys, k)]
  {
    var n := |keys| - 1;
    if keys[n] != k {
      assert k in keys[..n] by {
        var i :| 0 <= i < |keys| && keys[i] == k;
        assert keys[..n][i] == k;
      }
      ZipPicksLast(keys[..n], values[..n], k);
    }
  }

  /**
   * A name whose lower-cased form does not occur again later in the column
   * is the one the map keeps: among names that collide after lower-casing,
   * the last wins.
   */
  lemma {:induction false} CollidingNamesLastWins(csv: CsvFile, i: nat)
    requires csv.Table? && NAME_COLUMN in csv.columns
    requires i < |DropMissing(csv.columns[NAME_COLUMN])|
    requires forall j :: i < j < |DropMissing(csv.columns[NAME_COLUMN])| ==>
               Lower(DropMissing(csv.columns[NAME_COLUMN])[j]) != Lower(DropMissing(csv.columns[NAME_COLUMN])[i])
    ensures Lower(DropMissing(csv.columns[NAME_COLUMN])[i]) in LoadCompanyData(csv).nameMap
    ensures LoadCompanyData(csv).nameMap[Lower(DropMissing(csv.columns[NAME_COLUMN])[i])]
            == DropMissing(csv.columns[NAME_COLUMN])[i]
  {
    var names := DropMissing(csv.columns[NAME_COLUMN]);
    var lower := LowerAll(names);
    ZipPicksLast(lower, names, lower[i]);
    assert LastIndexOf(lower, lower[i]) == i;
  }

  /** The fuzzy scorer's answer: the best of the choices and its score. */
  datatype Match = Match(choice: string, score: int)

  /**
   * What the code relies on from `process.extractOne(query, choices)`: any
   * answer is one of the choices, with a score between 0 and 100.
   */
  ghost predicate ScorerContract(extractOne: (string, seq<string>) -> Option<Match>, choices: seq<string>) {
    forall q :: extractOne(q, choices).Some? ==>
      extractOne(q, choices).value.choice in choices && 0 <= extractOne(q, choices).value.score <= 100
  }

  /** `[w for w in words if w not in FINANCIAL_STOP_WORDS]` */
  function RemoveStopWords(words: seq<string>): (r: seq<string>)
    ensures forall w :: w in r <==> w in words && w !in FINANCIAL_STOP_WORDS
  {
    if words == [] then []
    else
      var n := |words| - 1;
      assert words == words[..n] + [words[n]];
      RemoveStopWords(words[..n]) + (if words[n] in FINANCIAL_STOP_WORDS then [] else [words[n]])
  }

  lemma {:induction false} RemoveStopWordsKeepsWords(words: seq<string>)
    requires forall i :: 0 <= i < |words| ==> words[i] != "" && NoSpace(words[i])
    ensures forall i :: 0 <= i < |RemoveStopWords(words)| ==>
              RemoveStopWords(words)[i] != "" && NoSpace(RemoveStopWords(words)[i])
  {
    if words != [] {
      RemoveStopWordsKeepsWords(words[..|words| - 1]);
    }
  }

  /**
   * The text handed to the scorer for one noun chunk, or None when the
   * chunk is skipped: more than five words, fewer than three characters, or
   * nothing left once the stop words are dropped. The text consists of the
   * chunk's lower-cased words that are not stop words, in order.
   */
  function Query(chunk: string): (q: Option<string>)
    ensures q.None? <==>
              |Words(Lower(chunk))| > 5 || |chunk| < 3 || RemoveStopWords(Words(Lower(chunk))) == []
    ensures q.Some? ==> q.value != "" && Words(q.value) == RemoveStopWords(Words(Lower(chunk)))
    ensures q.Some? ==> forall w :: w in Words(q.value) ==>
                          w in Words(Lower(chunk)) && w !in FINANCIAL_STOP_WORDS
  {
    var lower := Lower(chunk);
    var words := Words(lower);
    if |words| > 5 || |lower| < 3 then None
    else
      var parts := RemoveStopWords(words);
      if parts == [] then None
      else
        RemoveStopWordsKeepsWords(words);
        WordsOfJoin(parts);
        Some(Join(" ", parts))
  }

  /**
   * The reference company one noun chunk contributes: the original spelling
   * of the scorer's best choice, when that choice scores at least the
   * threshold.
   */
  function Contribution(chunk: string, data: CompanyData, extractOne: (string, seq<string>) -> Option<Match>)
    : (r: Option<string>)
    requires Consistent(data) && ScorerContract(extractOne, data.namesLower)
    ensures r.Some? <==>
              Query(chunk).Some? && extractOne(Query(chunk).value, data.namesLower).Some?
              && extractOne(Query(chunk).value, data.namesLower).value.score >= SIMILARITY_THRESHOLD
    ensures r.Some? ==> r.value in data.nameMap.Values
    ensures r.Some? ==>
              var best := extractOne(Query(chunk).value, data.namesLower).value;
              r.value == data.nameMap[best.choice]
  {
    match Query(chunk)
    case None => None
    case Some(q) =>
      match extractOne(q, data.namesLower)
      case None => None
      case Some(best) =>
        if best.score >= SIMILARITY_THRESHOLD then Some(data.nameMap[best.choice]) else None
  }

  /**
   * The reported name is the one whose lower-cased form the scorer chose:
   * the map sends every lower-cased name back to its original spelling.
   */
  lemma ContributionIsChoice(chunk: string, data: CompanyData, extractOne: (string, seq<string>) -> Option<Match>)
    requires Consistent(data) && ScorerContract(extractOne, data.namesLower) && LowerKeyed(data)
    ensures var r := Contribution(chunk, data, extractOne);
            r.Some? ==> Lower(r.value) == extractOne(Query(chunk).value, data.namesLower).value.choice
  {
  }

  /**
   * The companies detected among the given noun chunks: exactly the
   * contributions of the chunks, all of them names from the reference map.
   */
  function Detected(chunks: seq<string>, data: CompanyData, extractOne: (string, seq<string>) -> Option<Match>)
    : set<string>
    requires Consistent(data) && ScorerContract(extractOne, data.namesLower)
  {
    Collected(Contributions(chunks, data, extractOne))
  }

  /** The contribution of every chunk, position for position. */
  function Contributions(chunks: seq<string>, data: CompanyData, extractOne: (string, seq<string>) -> Option<Match>)
    : (cs: seq<Option<string>>)
    requires Consistent(data) && ScorerContract(extractOne, data.namesLower)
    ensures |cs| == |chunks|
    ensures forall i :: 0 <= i < |chunks| ==> cs[i] == Contribution(chunks[i], data, extractOne)
  {
    if chunks == [] then []
    else
      var n := |chunks| - 1;
      var init := Contributions(chunks[..n], data, extractOne);
      assert forall i :: 0 <= i < n ==> chunks[..n][i] == chunks[i];
      init + [Contribution(chunks[n], data, extractOne)]
  }

  /** The set of the names present among optional names (the `found_companies.add` calls). */
  function Collected(cs: seq<Option<string>>): set<string> {
    if cs == [] then {}
    else
      var n := |cs| - 1;
      Collected(cs[..n]) + (if cs[n].Some? then {cs[n].value} else {})
  }

  lemma {:induction false} CollectedWitness(cs: seq<Option<string>>, name: string) returns (i: nat)
    requires name in Collected(cs)
    ensures i < |cs| && cs[i] == Some(name)
  {
    var n := |cs| - 1;
    if cs[n] == Some(name) {
      i := n;
    } else {
      i := CollectedWitness(cs[..n], name);
    }
  }

  lemma {:induction false} CollectedHas(cs: seq<Option<string>>, i: nat)
    requires i < |cs| && cs[i].Some?
    ensures cs[i].value in Collected(cs)
  {
    var n := |cs| - 1;
    if i < n {
      assert cs[..n][i] == cs[i];
      CollectedHas(cs[..n], i);
    }
  }

  /** Every detected company is a name from the reference map. */
  lemma DetectedAreReferenceNames(
    chunks: seq<string>, data: CompanyData, extractOne: (string, seq<string>) -> Option<Match>)
    requires Consistent(data) && ScorerContract(extractOne, data.namesLower)
    ensures Detected(chunks, data, extractOne) <= data.nameMap.Values
  {
    forall name | name in Detected(chunks, data, extractOne)
      ensures name in data.nameMap.Values
    {
      var i := DetectedComesFromChunk(chunks, data, extractOne, name);
    }
  }

  /** Every detected name is contributed by some noun chunk, found here. */
  lemma DetectedComesFromChunk(
    chunks: seq<string>, data: CompanyData, extractOne: (string, seq<string>) -> Option<Match>, name: string)
    returns (i: nat)
    requires Consistent(data) && ScorerContract(extractOne, data.namesLower)
    requires name in Detected(chunks, data, extractOne)
    ensures i < |chunks| && Contribution(chunks[i], data, extractOne) == Some(name)
  {
    i := CollectedWitness(Contributions(chunks, data, extractOne), name);
  }

  /** Every contribution of a noun chunk is detected. */
  lemma ContributionIsDetected(
    chunks: seq<string>, data: CompanyData, extractOne: (string, seq<string>) -> Option<Match>, i: nat, name: string)
    requires Consistent(data) && ScorerContract(extractOne, data.namesLower)
    requires i < |chunks| && Contribution(chunks[i], data, extractOne) == Some(name)
    ensures name in Detected(chunks, data, extractOne)
  {
    CollectedHas(Contributions(chunks, data, extractOne), i);
  }

  /** Appending a chunk adds its contribution, if any. */
  lemma DetectedStep(
    chunks: seq<string>, data: CompanyData, extractOne: (string, seq<string>) -> Option<Match>, i: nat)
    requires Consistent(data) && ScorerContract(extractOne, data.namesLower)
    requires i < |chunks|
    ensures var c := Contribution(chunks[i], data, extractOne);
            Detected(chunks[..i + 1], data, extractOne)
            == Detected(chunks[..i], data, extractOne) + (if c.Some? then {c.value} else {})
  {
    var cs := Contributions(chunks[..i + 1], data, extractOne);
    assert cs[..i] == Contributions(chunks[..i], data, extractOne);
  }

  /** The values `f` gives on the elements, in order, where it gives one. */
  function Somes<T>(xs: seq<T>, f: T -> Option<string>): seq<string> {
    if xs == [] then []
    else
      var n := |xs| - 1;
      Somes(xs[..n], f) + (if f(xs[n]).Some? then [f(xs[n]).value] else [])
  }

  /** How many elements `f` gives a value on. */
  function SomeCount<T>(xs: seq<T>, f: T -> Option<string>): nat {
    if xs == [] then 0 else SomeCount(xs[..|xs| - 1], f) + (if f(xs[|xs| - 1]).Some? then 1 else 0)
  }

  /** `Somes` holds one value per element that gives one. */
  lemma {:induction false} SomesCount<T>(xs: seq<T>, f: T -> Option<string>)
    ensures |Somes(xs, f)| == SomeCount(xs, f) <= |xs|
  {
    if xs != [] {
      SomesCount(xs[..|xs| - 1], f);
    }
  }

  /** Each value in `Somes` is the value of some element. */
  lemma {:induction false} SomesFrom<T>(xs: seq<T>, f: T -> Option<string>)
    ensures forall j :: 0 <= j < |Somes(xs, f)| ==> exists i :: 0 <= i < |xs| && f(xs[i]) == Some(Somes(xs, f)[j])
  {
    if xs != [] {
      var n := |xs| - 1;
      var init := xs[..n];
      SomesFrom(init, f);
      assert forall i :: 0 <= i < n ==> init[i] == xs[i];
      assert f(xs[n]).Some? ==> Somes(xs, f)[|Somes(xs, f)| - 1] == f(xs[n]).value;
    } else {
      assert Somes(xs, f) == [];
    }
  }

  /** The value of every element that gives one is in `Somes`. */
  lemma {:induction false} SomesHas<T>(xs: seq<T>, f: T -> Option<string>)
    ensures forall i :: 0 <= i < |xs| && f(xs[i]).Some? ==> f(xs[i]).value in Somes(xs, f)
  {
    if xs != [] {
      var n := |xs| - 1;
      var init := xs[..n];
      SomesHas(init, f);
      assert forall i :: 0 <= i < n ==> init[i] == xs[i];
    }
  }

  /** The value of element `i` comes right after those of the elements before it. */
  lemma {:induction false} SomesInOrder<T>(xs: seq<T>, f: T -> Option<string>, i: nat)
    requires i < |xs| && f(xs[i]).Some?
    ensures SomeCount(xs[..i], f) < |Somes(xs, f)|
    ensures Somes(xs, f)[SomeCount(xs[..i], f)] == f(xs[i]).value
  {
    var n := |xs| - 1;
    var init := xs[..n];
    SomesCount(xs, f);
    SomesCount(xs[..i], f);
    if i < n {
      SomesInOrder(init, f, i);
      assert init[..i] == xs[..i] && init[i] == xs[i];
    } else {
      assert xs[..i] == init;
    }
  }

  /** How many chunks survive the filters. */
  function Survivors(chunks: seq<string>): nat {
    SomeCount(chunks, Query)
  }

  /**
   * The texts handed to the scorer: one per chunk that survives the
   * filters, every surviving chunk's query, and nothing else.
   */
  function Queries(chunks: seq<string>): (qs: seq<string>)
    ensures |qs| == Survivors(chunks) <= |chunks|
    ensures forall j :: 0 <= j < |qs| ==> exists i :: 0 <= i < |chunks| && Query(chunks[i]) == Some(qs[j])
    ensures forall i :: 0 <= i < |chunks| && Query(chunks[i]).Some? ==> Query(chunks[i]).value in qs
  {
    SomesCount(chunks, Query);
    SomesFrom(chunks, Query);
    SomesHas(chunks, Query);
    Somes(chunks, Query)
  }

  /**
   * The chunks are scored in order: a surviving chunk's query comes after
   * the queries of the chunks that survived before it.
   */
  lemma QueriesInOrder(chunks: seq<string>, i: nat)
    requires i < |chunks| && Query(chunks[i]).Some?
    ensures Survivors(chunks[..i]) < |Queries(chunks)|
    ensures Queries(chunks)[Survivors(chunks[..i])] == Query(chunks[i]).value
  {
    SomesInOrder(chunks, Query, i);
  }

  /**
   * `list(found)`: an oracle that lists a set, each element once; Python
   * fixes no order.
   */
  ghost predicate ListsSets(listOrder: set<string> -> seq<string>) {
    forall s: set<string> :: NoDuplicates(listOrder(s)) && forall x :: x in listOrder(s) <==> x in s
  }

  /** The companies `extract_company_names` returns, listed by `listOrder`. */
  function CompanyList(
    title: string, data: CompanyData, nounChunks: string -> seq<string>,
    extractOne: (string, seq<string>) -> Option<Match>, listOrder: set<string> -> seq<string>)
    : (companies: seq<string>)
    requires Consistent(data) && ScorerContract(extractOne, data.namesLower) && ListsSets(listOrder)
    ensures data.namesLower == [] ==> companies == []
    ensures data.namesLower != [] ==> forall n :: n in companies <==> n in Detected(nounChunks(title), data, extractOne)
    ensures NoDuplicates(companies)
    ensures forall n :: n in companies ==> n in data.nameMap.Values
  {
    if data.namesLower == [] then []
    else
      DetectedAreReferenceNames(nounChunks(title), data, extractOne);
      listOrder(Detected(nounChunks(title), data, extractOne))
  }

  /**
   * `extract_company_names`: with no reference names nothing is scored and
   * nothing found; otherwise the noun chunks of the title are filtered and
   * scored one by one, and the result lists, each once, the reference
   * companies they contribute.
   */
  method ExtractCompanyNames(
    title: string, data: CompanyData,
    nounChunks: string -> seq<string>, extractOne: (string, seq<string>) -> Option<Match>,
    listOrder: set<string> -> seq<string>)
    returns (companies: seq<string>, scored: seq<string>)
    requires Consistent(data) && ScorerContract(extractOne, data.namesLower) && ListsSets(listOrder)
    ensures companies == CompanyList(title, data, nounChunks, extractOne, listOrder)
    ensures data.namesLower == [] ==> scored == []
    ensures data.namesLower != [] ==> scored == Queries(nounChunks(title))
  {
    if |data.namesLower| == 0 {
      return [], [];
    }
    var found: set<string> := {};
    scored := [];
    var candidates := nounChunks(title);
    for i := 0 to |candidates|
      invariant found == Detected(candidates[..i], data, extractOne)
      invariant scored == Somes(candidates[..i], Query)
    {
      assert candidates[..i + 1][..i] == candidates[..i];
      var query, name := ScoreChunk(candidates[i], data, extractOne);
      DetectedStep(candidates, data, extractOne, i);
      if query.Some? {
        scored := scored + [query.value];
      }
      if name.Some? {
        found := found + {name.value};
      }
    }
    assert candidates[..|candidates|] == candidates;
    companies := listOrder(found);
  }

  /**
   * One pass of the loop body: the size filter, the stop-word filter, the
   * scorer call and the threshold test for one noun chunk.
   */
  method ScoreChunk(chunk: string, data: CompanyData, extractOne: (string, seq<string>) -> Option<Match>)
    returns (query: Option<string>, name: Option<string>)
    requires Consistent(data) && ScorerContract(extractOne, data.namesLower)
    ensures query == Query(chunk)
    ensures name == Contribution(chunk, data, extractOne)
  {
    var lower := Lower(chunk);
    var words := Words(lower);
    if |words| > 5 || |lower| < 3 {
      return None, None;
    }
    var parts := RemoveStopWords(words);
    if parts == [] {
      return None, None;
    }
    query := Some(Join(" ", parts));
    var best := extractOne(query.value, data.namesLower);
    if best.Some? && best.value.score >= SIMILARITY_THRESHOLD {
      name := Some(data.nameMap[best.value.choice]);
    } else {
      name := None;
    }
  }
}
