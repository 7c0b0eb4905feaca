/**
 * The recommendation back end: the `Recommendation` object built from a
 * comma-separated symptom string, its 0/1 input vector, the cleaning of
 * table cells into lists of strings, the five per-disease lookups, and the
 * checks the `/predict` handler makes on a request.
 *
 * The trained model with its label encoder, difflib's close-match search and
 * `ast.literal_eval` are given as functions; the CSV tables are sequences of
 * rows whose first column is the disease.
 */
module Backend {
  import opened Wrappers
  import opened Text

  /** The Python exceptions the modelled code can raise; each ends in a 500 response. */
  datatype PyError =
    | IndexError      // `np.where(...)[0][0]` for a match that is not a column
    | TypeError       // `in` or `[]` on a value that does not support it: `"," in None`, `data["symptoms"]` on a list
    | AttributeError  // `split` / `replace` called on a list or dictionary given as symptoms
    | BadRequest      // a JSON body that does not parse

  // ---------------------------------------------------------------------
  // Symptom parsing and matching
  // ---------------------------------------------------------------------

  /** `__init__`: a string with a comma is split at every comma, any other is one symptom. */
  function ParseSymptoms(input: string): (r: seq<string>)
    ensures r == Split(input, ',')
    ensures Join(r, ",") == input
  {
    JoinSplit(input, ',');
    if ',' in input then Split(input, ',') else [input]
  }

  /** `symptom.replace('_', ' ')`. */
  function ReplaceUnderscores(s: string): (r: string)
    ensures |r| == |s|
    ensures forall k :: 0 <= k < |s| ==> r[k] == if s[k] == '_' then ' ' else s[k]
    decreases |s|
  {
    if s == [] then []
    else [if s[0] == '_' then ' ' else s[0]] + ReplaceUnderscores(s[1..])
  }

  /** `find_closest_symptom`: the matcher is asked about the symptom with underscores made spaces. */
  function FindClosestSymptom(symptom: string, columns: seq<string>,
                              closeMatch: (string, seq<string>) -> Option<string>): (r: Option<string>)
    ensures MatchesAreCandidates(closeMatch) && r.Some? ==> r.value in columns
  {
    closeMatch(ReplaceUnderscores(symptom), columns)
  }

  /** difflib's guarantee: a close match is always one of the candidates it was given. */
  ghost predicate MatchesAreCandidates(closeMatch: (string, seq<string>) -> Option<string>)
  {
    forall w, cols :: closeMatch(w, cols).Some? ==> closeMatch(w, cols).value in cols
  }

  /** Two symptom names that differ only in writing `_` or a space get the same match. */
  lemma UnderscoreIsSpace(a: string, b: string, columns: seq<string>,
                          closeMatch: (string, seq<string>) -> Option<string>)
    requires |a| == |b|
    requires forall k :: 0 <= k < |a| ==> a[k] == b[k] || (a[k] in "_ " && b[k] in "_ ")
    ensures FindClosestSymptom(a, columns, closeMatch) == FindClosestSymptom(b, columns, closeMatch)
  {
    var ra, rb := ReplaceUnderscores(a), ReplaceUnderscores(b);
    forall k | 0 <= k < |a| ensures ra[k] == rb[k] {
      if a[k] != b[k] {
        assert a[k] in "_ " && b[k] in "_ ";
      }
    }
    assert ra == rb;
  }

  /** `if matched_symptom:`: a match counts only when present and non-empty. */
  predicate Truthy(m: Option<string>)
    ensures Truthy(m) <==> m != None && m != Some("")
  {
    m.Some? && m.value != ""
  }

  /** Index of the first column equal to `x`, as `np.where(columns == x)[0][0]` picks it. */
  function FirstIndex(columns: seq<string>, x: string): (r: Option<nat>)
    ensures r.None? <==> x !in columns
    ensures r.Some? ==> r.value < |columns| && columns[r.value] == x && x !in columns[..r.value]
    decreases |columns|
  {
    if columns == [] then None
    else if columns[0] == x then Some(0)
    else match FirstIndex(columns[1..], x)
      case None => None
      case Some(i) => Some(i + 1)
  }

  function Zeros(n: nat): (r: seq<int>)
    ensures |r| == n && forall j :: 0 <= j < n ==> r[j] == 0
  {
    seq(n, j => 0)
  }

  /** One pass of the loop body in `predict`. */
  function MarkMatch(v: seq<int>, columns: seq<string>, m: Option<string>): (r: Result<seq<int>, PyError>)
    requires |v| == |columns|
    ensures r.Failure? <==> Truthy(m) && m.value !in columns
    ensures r.Failure? ==> r.error == IndexError
    ensures r.Success? ==> |r.value| == |v|
    ensures r.Success? ==> forall j :: 0 <= j < |v| ==>
      r.value[j] == if Truthy(m) && FirstIndex(columns, m.value) == Some(j) then 1 else v[j]
  {
    if !Truthy(m) then Success(v)
    else match FirstIndex(columns, m.value)
      case None => Failure(IndexError)
      case Some(i) => Success(v[i := 1])
  }

  /** The input vector after the loop in `predict` has handled every symptom in turn. */
  function InputVector(symptoms: seq<string>, columns: seq<string>,
                       closeMatch: (string, seq<string>) -> Option<string>): (r: Result<seq<int>, PyError>)
    ensures r.Success? ==> |r.value| == |columns|
    ensures r.Failure? ==> r.error == IndexError
    decreases |symptoms|
  {
    if symptoms == [] then Success(Zeros(|columns|))
    else
      match InputVector(symptoms[..|symptoms| - 1], columns, closeMatch)
      case Failure(e) => Failure(e)
      case Success(v) =>
        MarkMatch(v, columns, FindClosestSymptom(symptoms[|symptoms| - 1], columns, closeMatch))
  }

  /** Symptom `s` sets entry `j`. */
  predicate Hits(s: string, columns: seq<string>, closeMatch: (string, seq<string>) -> Option<string>, j: nat)
  {
    var m := FindClosestSymptom(s, columns, closeMatch);
    Truthy(m) && FirstIndex(columns, m.value) == Some(j)
  }

  /** Symptom `s` is matched to a name that is not a column. */
  predicate Strays(s: string, columns: seq<string>, closeMatch: (string, seq<string>) -> Option<string>)
  {
    var m := FindClosestSymptom(s, columns, closeMatch);
    Truthy(m) && m.value !in columns
  }

  /**
   * The vector has one entry per column, each 0 or 1, and an entry is 1
   * exactly when its column is the first one equal to some symptom's match.
   */
  lemma {:induction false} InputVectorEntries(symptoms: seq<string>, columns: seq<string>,
                                              closeMatch: (string, seq<string>) -> Option<string>)
    requires InputVector(symptoms, columns, closeMatch).Success?
    ensures var v := InputVector(symptoms, columns, closeMatch).value;
      && |v| == |columns|
      && (forall j :: 0 <= j < |v| ==> v[j] == 0 || v[j] == 1)
      && (forall j :: 0 <= j < |v| ==>
            (v[j] == 1 <==> exists k :: 0 <= k < |symptoms| && Hits(symptoms[k], columns, closeMatch, j)))
    decreases |symptoms|
  {
    if symptoms != [] {
      var init := symptoms[..|symptoms| - 1];
      var last := symptoms[|symptoms| - 1];
      InputVectorEntries(init, columns, closeMatch);
      var v := InputVector(symptoms, columns, closeMatch).value;
      forall j | 0 <= j < |v|
        ensures v[j] == 1 <==> exists k :: 0 <= k < |symptoms| && Hits(symptoms[k], columns, closeMatch, j)
      {
        if v[j] == 1 && !Hits(last, columns, closeMatch, j) {
          var k :| 0 <= k < |init| && Hits(init[k], columns, closeMatch, j);
          assert symptoms[k] == init[k];
        }
        if k :| 0 <= k < |symptoms| && Hits(symptoms[k], columns, closeMatch, j) {
          if k < |init| {
            assert init[k] == symptoms[k];
          }
        }
      }
    }
  }

  /** The loop raises exactly when some symptom's match is not a column. */
  lemma {:induction false} InputVectorFails(symptoms: seq<string>, columns: seq<string>,
                                            closeMatch: (string, seq<string>) -> Option<string>)
    ensures InputVector(symptoms, columns, closeMatch).Failure? <==>
      exists k :: 0 <= k < |symptoms| && Strays(symptoms[k], columns, closeMatch)
    decreases |symptoms|
  {
    if symptoms != [] {
      var init := symptoms[..|symptoms| - 1];
      InputVectorFails(init, columns, closeMatch);
      if k :| 0 <= k < |init| && Strays(init[k], columns, closeMatch) {
        assert symptoms[k] == init[k];
      }
      if k :| 0 <= k < |symptoms| && Strays(symptoms[k], columns, closeMatch) {
        if k < |init| {
          assert init[k] == symptoms[k];
        }
      }
    }
  }

  /** With difflib's guarantee the vector is always built. */
  lemma CandidateMatchesNeverFail(symptoms: seq<string>, columns: seq<string>,
                                  closeMatch: (string, seq<string>) -> Option<string>)
    requires MatchesAreCandidates(closeMatch)
    ensures InputVector(symptoms, columns, closeMatch).Success?
  {
    InputVectorFails(symptoms, columns, closeMatch);
  }

  /** A symptom without a match leaves the vector as it was. */
  lemma UnmatchedLeavesVector(symptoms: seq<string>, s: string, columns: seq<string>,
                              closeMatch: (string, seq<string>) -> Option<string>)
    requires !Truthy(FindClosestSymptom(s, columns, closeMatch))
    ensures InputVector(symptoms + [s], columns, closeMatch) == InputVector(symptoms, columns, closeMatch)
  {
    assert (symptoms + [s])[..|symptoms|] == symptoms;
  }

  /** Once a prefix of the symptoms raises, the whole loop raises the same error. */
  lemma {:induction false} FailurePersists(symptoms: seq<string>, n: nat, columns: seq<string>,
                                           closeMatch: (string, seq<string>) -> Option<string>)
    requires n <= |symptoms| && InputVector(symptoms[..n], columns, closeMatch).Failure?
    ensures InputVector(symptoms, columns, closeMatch) == InputVector(symptoms[..n], columns, closeMatch)
    decreases |symptoms| - n
  {
    if n < |symptoms| {
      assert symptoms[..n + 1][..n] == symptoms[..n];
      FailurePersists(symptoms, n + 1, columns, closeMatch);
    } else {
      assert symptoms[..n] == symptoms;
    }
  }

  /** The loop of `predict` over a zero-filled array, proved to compute `InputVector`. */
  method BuildInputVector(symptoms: seq<string>, columns: seq<string>,
                          closeMatch: (string, seq<string>) -> Option<string>)
    returns (r: Result<seq<int>, PyError>)
    ensures r == InputVector(symptoms, columns, closeMatch)
  {
    var vector := new int[|columns|](j => 0);
    assert symptoms[..0] == [] && vector[..] == Zeros(|columns|);
    var k := 0;
    while k < |symptoms|
      invariant 0 <= k <= |symptoms|
      invariant InputVector(symptoms[..k], columns, closeMatch) == Success(vector[..])
    {
      assert symptoms[..k + 1][..k] == symptoms[..k];
      var matched := FindClosestSymptom(symptoms[k], columns, closeMatch);
      if Truthy(matched) {
        var index := FirstIndex(columns, matched.value);
        if index.None? {
          FailurePersists(symptoms, k + 1, columns, closeMatch);
          return Failure(IndexError);
        }
        vector[index.value] := 1;
      }
      k := k + 1;
    }
    assert symptoms[..k] == symptoms;
    return Success(vector[..]);
  }

  // ---------------------------------------------------------------------
  // Cell cleaning
  // ---------------------------------------------------------------------

  /** A Python object found in a table cell or in a parsed list. */
  datatype Scalar =
    | NoneValue
    | StrValue(s: string)
    | OtherValue(text: string)  // any other object (a float such as NaN, a number), by its `str()` form

  /** Python's `str(x)`. */
  function Str(x: Scalar): (r: string)
    ensures x.StrValue? ==> r == x.s
    ensures x.NoneValue? ==> r == "None"
  {
    match x
    case NoneValue => "None"
    case StrValue(s) => s
    case OtherValue(text) => text
  }

  /** What `clean_list_data` is given: a list or array, a string, or anything else. */
  datatype Data = ListData(items: seq<Scalar>) | StrData(s: string) | OtherData

  /** What `ast.literal_eval` produced: a list, or another kind of value. */
  datatype Parsed = ParsedList(items: seq<Scalar>) | ParsedOther

  /** The filter of the list branch: not None and not the text "nan" in any case. */
  predicate KeptFromList(x: Scalar)
    ensures KeptFromList(x) <==>
      (!x.NoneValue? &&
       !(|Str(x)| == 3 && Str(x)[0] in {'n', 'N'} && Str(x)[1] in {'a', 'A'} && Str(x)[2] in {'n', 'N'}))
  {
    IsNanTextCases(Str(x));
    !x.NoneValue? && !IsNanText(Str(x))
  }

  /** `[y for x in items for y in f(x)]`: each item's results, concatenated in order. */
  function FlatMap<T>(items: seq<T>, f: T -> seq<string>): (r: seq<string>)
    ensures items == [] ==> r == []
    ensures items != [] ==> f(items[0]) <= r
    decreases |items|
  {
    if items == [] then [] else f(items[0]) + FlatMap(items[1..], f)
  }

  lemma {:induction false} FlatMapConcat<T>(a: seq<T>, b: seq<T>, f: T -> seq<string>)
    ensures FlatMap(a + b, f) == FlatMap(a, f) + FlatMap(b, f)
    decreases |a|
  {
    if a == [] {
      assert a + b == b;
    } else {
      assert (a + b)[0] == a[0] && (a + b)[1..] == a[1..] + b;
      FlatMapConcat(a[1..], b, f);
    }
  }

  /** A string is in the result exactly when some item produced it. */
  lemma {:induction false} FlatMapMembers<T>(items: seq<T>, f: T -> seq<string>, y: string)
    ensures y in FlatMap(items, f) <==> exists k :: 0 <= k < |items| && y in f(items[k])
    decreases |items|
  {
    if items != [] {
      FlatMapMembers(items[1..], f, y);
      if y in FlatMap(items[1..], f) {
        var k :| 0 <= k < |items[1..]| && y in f(items[1..][k]);
        assert items[k + 1] == items[1..][k];
      }
      if exists k :: 0 <= k < |items| && y in f(items[k]) {
        var k :| 0 <= k < |items| && y in f(items[k]);
        if k > 0 {
          assert items[1..][k - 1] == items[k];
        }
      }
    }
  }

  /** Items yielding at most one string each give at most one string per item. */
  lemma {:induction false} FlatMapShort<T>(items: seq<T>, f: T -> seq<string>)
    requires forall x :: |f(x)| <= 1
    ensures |FlatMap(items, f)| <= |items|
    decreases |items|
  {
    if items != [] {
      FlatMapShort(items[1..], f);
    }
  }

  /** One item of the list branch: its stripped text if it passes the filter, else nothing. */
  function CleanItem(x: Scalar): (r: seq<string>)
    ensures |r| <= 1
    ensures forall y :: y in r <==> KeptFromList(x) && y == Strip(Str(x))
  {
    if KeptFromList(x) then [Strip(Str(x))] else []
  }

  /** The list branch: kept items, as stripped strings, in order. */
  function CleanItems(items: seq<Scalar>): (r: seq<string>)
    ensures |r| <= |items|
    ensures forall y :: y in r ==> IsStripped(y)
  {
    FlatMapShort(items, CleanItem);
    forall y | y in FlatMap(items, CleanItem) ensures IsStripped(y) {
      FlatMapMembers(items, CleanItem, y);
    }
    FlatMap(items, CleanItem)
  }

  /** One item of the parsed-list branch: only None is dropped. */
  function CleanParsedItem(x: Scalar): (r: seq<string>)
    ensures |r| <= 1
    ensures forall y :: y in r <==> !x.NoneValue? && y == Strip(Str(x))
  {
    if x.NoneValue? then [] else [Strip(Str(x))]
  }

  /** The parsed-list branch: every item but None, as stripped strings, in order. */
  function CleanParsedItems(items: seq<Scalar>): (r: seq<string>)
    ensures |r| <= |items|
    ensures forall y :: y in r ==> IsStripped(y)
  {
    FlatMapShort(items, CleanParsedItem);
    forall y | y in FlatMap(items, CleanParsedItem) ensures IsStripped(y) {
      FlatMapMembers(items, CleanParsedItem, y);
    }
    FlatMap(items, CleanParsedItem)
  }

  /** A string is in the parsed-list result exactly when some item other than None strips to it. */
  lemma CleanParsedItemsMembers(items: seq<Scalar>, y: string)
    ensures y in CleanParsedItems(items) <==>
      exists k :: 0 <= k < |items| && !items[k].NoneValue? && y == Strip(Str(items[k]))
  {
    FlatMapMembers(items, CleanParsedItem, y);
    if exists k :: 0 <= k < |items| && y in CleanParsedItem(items[k]) {
      var k :| 0 <= k < |items| && y in CleanParsedItem(items[k]);
      assert !items[k].NoneValue? && y == Strip(Str(items[k]));
    }
    if exists k :: 0 <= k < |items| && !items[k].NoneValue? && y == Strip(Str(items[k])) {
      var k :| 0 <= k < |items| && !items[k].NoneValue? && y == Strip(Str(items[k]));
      assert y in CleanParsedItem(items[k]);
    }
  }

  /** The parsed-list branch keeps order: over a concatenation it concatenates the results. */
  lemma CleanParsedItemsConcat(a: seq<Scalar>, b: seq<Scalar>)
    ensures CleanParsedItems(a + b) == CleanParsedItems(a) + CleanParsedItems(b)
  {
    FlatMapConcat(a, b, CleanParsedItem);
  }

  /** `data.startswith('[') and data.endswith(']')`. */
  predicate Bracketed(s: string)
    ensures Bracketed(s) ==> |s| >= 2
  {
    |s| > 0 && s[0] == '[' && s[|s| - 1] == ']'
  }

  /** `clean_list_data`; a failing `literal_eval` is `None`, as the bare `except` swallows it. */
  function CleanListData(data: Data, literalEval: string -> Option<Parsed>): (r: seq<string>)
    ensures forall y :: y in r ==> IsStripped(y)
    ensures data.ListData? ==> |r| <= |data.items|
    ensures data.OtherData? ==> r == []
    ensures data.ListData? ==> r == CleanItems(data.items)
    ensures (data.StrData? && Bracketed(data.s) && literalEval(data.s).Some? &&
             literalEval(data.s).value.ParsedList?)
      ==> r == CleanParsedItems(literalEval(data.s).value.items)
    ensures data.StrData? ==>
      (!(Bracketed(data.s) && literalEval(data.s).Some? && literalEval(data.s).value.ParsedList?)
       ==> r == [Strip(data.s)])
  {
    match data
    case ListData(items) => CleanItems(items)
    case StrData(s) =>
      if Bracketed(s) && literalEval(s).Some? && literalEval(s).value.ParsedList? then
        CleanParsedItems(literalEval(s).value.items)
      else [Strip(s)]
    case OtherData => []
  }

  /** Cleaning a list keeps order: cleaning a concatenation concatenates the results. */
  lemma CleanItemsConcat(a: seq<Scalar>, b: seq<Scalar>)
    ensures CleanItems(a + b) == CleanItems(a) + CleanItems(b)
  {
    FlatMapConcat(a, b, CleanItem);
  }

  /** A string is in the result exactly when some item passes the filter and strips to it. */
  lemma CleanItemsMembers(items: seq<Scalar>, y: string)
    ensures y in CleanItems(items) <==>
      exists k :: 0 <= k < |items| && KeptFromList(items[k]) && y == Strip(Str(items[k]))
  {
    FlatMapMembers(items, CleanItem, y);
    if exists k :: 0 <= k < |items| && y in CleanItem(items[k]) {
      var k :| 0 <= k < |items| && y in CleanItem(items[k]);
      assert KeptFromList(items[k]) && y == Strip(Str(items[k]));
    }
    if exists k :: 0 <= k < |items| && KeptFromList(items[k]) && y == Strip(Str(items[k])) {
      var k :| 0 <= k < |items| && KeptFromList(items[k]) && y == Strip(Str(items[k]));
      assert y in CleanItem(items[k]);
    }
  }

  /**
   * The text "nan" is dropped from a list cell but kept when it comes out of
   * a bracketed string, where only None is filtered.
   */
  lemma NanKeptOnlyInParsedStrings(nan: string, cell: string, literalEval: string -> Option<Parsed>)
    requires IsNanText(nan)
    requires Bracketed(cell) && literalEval(cell) == Some(ParsedList([StrValue(nan)]))
    ensures CleanListData(ListData([StrValue(nan)]), literalEval) == []
    ensures CleanListData(StrData(cell), literalEval) == [nan]
  {
    NanDroppedFromList(nan);
    NanKeptFromParsed(nan);
  }

  lemma NanDroppedFromList(nan: string)
    requires IsNanText(nan)
    ensures CleanItems([StrValue(nan)]) == []
  {
    var items := [StrValue(nan)];
    assert items[1..] == [];
    assert CleanItem(items[0]) == [];
    assert FlatMap(items, CleanItem) == CleanItem(items[0]) + FlatMap(items[1..], CleanItem);
  }

  lemma NanKeptFromParsed(nan: string)
    requires IsNanText(nan)
    ensures CleanParsedItems([StrValue(nan)]) == [nan]
  {
    assert [StrValue(nan)][1..] == [];
    NanIsStripped(nan);
    StrippedIsFixed(nan);
    assert CleanParsedItem(StrValue(nan)) == [nan];
  }

  lemma NanIsStripped(s: string)
    requires IsNanText(s)
    ensures IsStripped(s)
  {
    IsNanTextCases(s);
  }

  // ---------------------------------------------------------------------
  // Per-disease lookups
  // ---------------------------------------------------------------------

  /** A table row: the disease column, then the columns after it (at least one). */
  datatype Row = Row(disease: string, first: Scalar, others: seq<Scalar>)

  /** Row `i` is the first row for `disease`. */
  predicate FirstRowFor(table: seq<Row>, disease: string, i: nat)
  {
    i < |table| && table[i].disease == disease &&
    forall j :: 0 <= j < i ==> table[j].disease != disease
  }

  /** The row that `df[df["Disease"] == disease].iloc[...].values[0]` reads: the first match. */
  function FindRow(table: seq<Row>, disease: string): (r: Option<nat>)
    ensures r.None? <==> forall i :: 0 <= i < |table| ==> table[i].disease != disease
    ensures forall i: nat :: FirstRowFor(table, disease, i) <==> r == Some(i)
    decreases |table|
  {
    if table == [] then None
    else if table[0].disease == disease then Some(0)
    else
      var r := FindRow(table[1..], disease);
      assert forall i: nat :: FirstRowFor(table, disease, i + 1) <==> FirstRowFor(table[1..], disease, i);
      match r
      case None => None
      case Some(i) => Some(i + 1)
  }

  /** The first cell after the disease column, as `clean_list_data` sees it. */
  function CellData(x: Scalar): (r: Data)
    ensures !r.ListData?
    ensures r.StrData? <==> x.StrValue?
    ensures r.StrData? ==> r.s == Str(x)
  {
    if x.StrValue? then StrData(x.s) else OtherData
  }

  /** A cell that is not a string (a NaN, a number, None) cleans to the empty list. */
  lemma NonStringCellIsEmpty(x: Scalar, literalEval: string -> Option<Parsed>)
    requires !x.StrValue?
    ensures CleanListData(CellData(x), literalEval) == []
  {
  }

  /** Everything the recommendation needs besides the symptoms: model, matcher, parser, tables. */
  datatype Engine = Engine(
    columns: seq<string>,
    closeMatch: (string, seq<string>) -> Option<string>,  // difflib.get_close_matches(n=1, cutoff=0.6)
    classify: seq<int> -> string,                         // model.predict, then le.inverse_transform
    literalEval: string -> Option<Parsed>,                // ast.literal_eval; None when it raises
    diets: seq<Row>,
    descriptions: seq<Row>,
    medications: seq<Row>,
    precautions: seq<Row>,
    workouts: seq<Row>)

  /** A constructed `Recommendation` object. */
  datatype Recommendation = Recommendation(inputSymptoms: seq<string>, engine: Engine, disease: string)

  function GetDiet(rec: Recommendation): (r: seq<string>)
    ensures forall y :: y in r ==> IsStripped(y)
    ensures FindRow(rec.engine.diets, rec.disease).None? ==> r == ["No diet info found"]
    ensures forall i: nat :: FirstRowFor(rec.engine.diets, rec.disease, i) ==>
      r == CleanListData(CellData(rec.engine.diets[i].first), rec.engine.literalEval)
  {
    match FindRow(rec.engine.diets, rec.disease)
    case None => ["No diet info found"]
    case Some(i) => CleanListData(CellData(rec.engine.diets[i].first), rec.engine.literalEval)
  }

  function GetDescription(rec: Recommendation): (r: string)
    ensures FindRow(rec.engine.descriptions, rec.disease).None? ==> r == "No description found"
    ensures forall i: nat :: FirstRowFor(rec.engine.descriptions, rec.disease, i) ==>
      r == Str(rec.engine.descriptions[i].first)
  {
    match FindRow(rec.engine.descriptions, rec.disease)
    case None => "No description found"
    case Some(i) => Str(rec.engine.descriptions[i].first)
  }

  function GetMedication(rec: Recommendation): (r: seq<string>)
    ensures forall y :: y in r ==> IsStripped(y)
    ensures FindRow(rec.engine.medications, rec.disease).None? ==> r == ["No medication info found"]
    ensures forall i: nat :: FirstRowFor(rec.engine.medications, rec.disease, i) ==>
      r == CleanListData(CellData(rec.engine.medications[i].first), rec.engine.literalEval)
  {
    match FindRow(rec.engine.medications, rec.disease)
    case None => ["No medication info found"]
    case Some(i) => CleanListData(CellData(rec.engine.medications[i].first), rec.engine.literalEval)
  }

  /** The precautions use the whole row after the disease column as one list. */
  function GetPrecautions(rec: Recommendation): (r: seq<string>)
    ensures forall y :: y in r ==> IsStripped(y)
    ensures FindRow(rec.engine.precautions, rec.disease).None? ==> r == ["No precautions found"]
    ensures forall i: nat :: FirstRowFor(rec.engine.precautions, rec.disease, i) ==>
      var row := rec.engine.precautions[i];
      r == CleanItems([row.first] + row.others) && |r| <= 1 + |row.others|
  {
    match FindRow(rec.engine.precautions, rec.disease)
    case None => ["No precautions found"]
    case Some(i) =>
      var row := rec.engine.precautions[i];
      CleanListData(ListData([row.first] + row.others), rec.engine.literalEval)
  }

  function GetWorkout(rec: Recommendation): (r: seq<string>)
    ensures forall y :: y in r ==> IsStripped(y)
    ensures FindRow(rec.engine.workouts, rec.disease).None? ==> r == ["No workout info found"]
    ensures forall i: nat :: FirstRowFor(rec.engine.workouts, rec.disease, i) ==>
      r == CleanListData(CellData(rec.engine.workouts[i].first), rec.engine.literalEval)
  {
    match FindRow(rec.engine.workouts, rec.disease)
    case None => ["No workout info found"]
    case Some(i) => CleanListData(CellData(rec.engine.workouts[i].first), rec.engine.literalEval)
  }

  // ---------------------------------------------------------------------
  // Building a recommendation
  // ---------------------------------------------------------------------

  /** `predict`: the input vector, then the classifier's label for it. */
  method Predict(symptoms: seq<string>, engine: Engine) returns (r: Result<string, PyError>)
    ensures r.Failure? <==> exists k :: 0 <= k < |symptoms| && Strays(symptoms[k], engine.columns, engine.closeMatch)
    ensures r.Failure? ==> r.error == IndexError
    ensures r.Success? <==> InputVector(symptoms, engine.columns, engine.closeMatch).Success?
    ensures r.Success? ==>
      (InputVector(symptoms, engine.columns, engine.closeMatch).Success? &&
       r.value == engine.classify(InputVector(symptoms, engine.columns, engine.closeMatch).value))
  {
    InputVectorFails(symptoms, engine.columns, engine.closeMatch);
    var vector := BuildInputVector(symptoms, engine.columns, engine.closeMatch);
    match vector
    case Failure(e) => r := Failure(e);
    case Success(v) => r := Success(engine.classify(v));
  }

  /** `Recommendation(input_symptoms)`: parse, then predict the disease. */
  method NewRecommendation(input: string, engine: Engine) returns (r: Result<Recommendation, PyError>)
    ensures r.Success? <==> InputVector(Split(input, ','), engine.columns, engine.closeMatch).Success?
    ensures r.Failure? ==> r.error == IndexError
    ensures r.Success? ==> r.value.inputSymptoms == Split(input, ',') && r.value.engine == engine
    ensures r.Success? ==>
      (InputVector(Split(input, ','), engine.columns, engine.closeMatch).Success? &&
       r.value.disease == engine.classify(InputVector(Split(input, ','), engine.columns, engine.closeMatch).value))
    ensures MatchesAreCandidates(engine.closeMatch) ==> r.Success?
  {
    var symptoms := ParseSymptoms(input);
    var disease := Predict(symptoms, engine);
    if MatchesAreCandidates(engine.closeMatch) {
      CandidateMatchesNeverFail(symptoms, engine.columns, engine.closeMatch);
    }
    match disease
    case Failure(e) => r := Failure(e);
    case Success(d) => r := Success(Recommendation(symptoms, engine, d));
  }

  // ---------------------------------------------------------------------
  // The /predict handler
  // ---------------------------------------------------------------------

  /** A parsed JSON value. */
  datatype Json =
    | JNull
    | JBool(b: bool)
    | JNumber(n: real)
    | JString(s: string)
    | JArray(items: seq<Json>)
    | JObject(fields: map<string, Json>)

  /** An incoming request: whether its content type is JSON, and its body if it parses. */
  datatype Request = Request(isJson: bool, body: Option<Json>)

  datatype Field = One(text: string) | Many(texts: seq<string>)

  datatype Body =
    | ErrorMessage(message: string)           // {"error": message}
    | ErrorFromException(exception: PyError)  // {"error": str(e)}
    | Payload(fields: map<string, Field>)

  datatype Response = Response(status: nat, body: Body)

  /** The keys of a successful response. */
  const ResponseKeys: set<string> :=
    {"predicted_disease", "description", "medications", "diet", "precautions", "workout"}

  /** Python truthiness of a JSON value (`not data`). */
  predicate JsonTruthy(j: Json)
    ensures !JsonTruthy(j) <==>
      j in {JNull, JBool(false), JNumber(0.0), JString(""), JArray([]), JObject(map[])}
  {
    match j
    case JNull => false
    case JBool(b) => b
    case JNumber(n) => n != 0.0
    case JString(s) => s != ""
    case JArray(items) => |items| > 0
    case JObject(fields) => |fields| > 0
  }

  /** `t` occurs in `s` as a substring. */
  predicate Substring(t: string, s: string)
  {
    exists i :: 0 <= i <= |s| && t <= s[i..]
  }

  /** `key in data`: a dictionary key, a list element or a substring; other values raise. */
  function Contains(data: Json, key: string): (r: Result<bool, PyError>)
    ensures r.Failure? <==> data.JNull? || data.JBool? || data.JNumber?
    ensures r.Failure? ==> r.error == TypeError
    ensures data.JObject? ==> r == Success(key in data.fields)
    ensures data.JArray? ==> r == Success(exists k :: 0 <= k < |data.items| && data.items[k] == JString(key))
  {
    match data
    case JObject(fields) => Success(key in fields)
    case JArray(items) => Success(JString(key) in items)
    case JString(s) => Success(Substring(key, s))
    case _ => Failure(TypeError)
  }

  /**
   * The exception a `symptoms` value that is not a string raises: `"," in v`
   * (line 16) raises TypeError for None, a boolean or a number; a list or a
   * dictionary supports `in`, and then `.split` (line 17) or `.replace`
   * (line 47) raises AttributeError.
   */
  function NotAStringError(v: Json): (e: PyError)
    requires !v.JString?
    ensures e == TypeError <==> v.JNull? || v.JBool? || v.JNumber?
    ensures e == AttributeError <==> v.JArray? || v.JObject?
  {
    if v.JArray? || v.JObject? then AttributeError else TypeError
  }

  /** The outcome of the checks the handler makes before building a recommendation. */
  datatype Checked = Reject(response: Response) | Proceed(symptoms: string)

  /**
   * Lines 121-135 and the use of `symptoms` as a string: not JSON gives 415; a
   * body that does not parse raises; an empty body or one without
   * `symptoms` gives 400; a body that does not support `in` or `[]`, or a
   * symptoms value that is not a string, raises.
   */
  function CheckRequest(req: Request): (r: Checked)
    ensures r.Reject? && r.response.status == 415 <==> !req.isJson
    ensures r.Reject? && r.response.status == 400 <==>
      req.isJson && req.body.Some? &&
      (!JsonTruthy(req.body.value) || Contains(req.body.value, "symptoms") == Success(false))
    ensures r.Reject? ==> r.response.status in {400, 415, 500}
    ensures r.Proceed? <==>
      (req.isJson && req.body.Some? && req.body.value.JObject? &&
       "symptoms" in req.body.value.fields && req.body.value.fields["symptoms"].JString?)
    ensures r.Proceed? ==> r.symptoms == req.body.value.fields["symptoms"].s
    ensures req.isJson && req.body.None? ==> r == Reject(Response(500, ErrorFromException(BadRequest)))
    ensures (req.isJson && req.body.Some? && JsonTruthy(req.body.value) && !req.body.value.JObject? &&
             Contains(req.body.value, "symptoms") != Success(false))
      ==> r == Reject(Response(500, ErrorFromException(TypeError)))
    ensures (req.isJson && req.body.Some? && req.body.value.JObject? &&
             "symptoms" in req.body.value.fields && !req.body.value.fields["symptoms"].JString?)
      ==> r == Reject(Response(500, ErrorFromException(NotAStringError(req.body.value.fields["symptoms"]))))
  {
    if !req.isJson then
      Reject(Response(415, ErrorMessage("Content-Type must be application/json")))
    else if req.body.None? then
      Reject(Response(500, ErrorFromException(BadRequest)))
    else
      var data := req.body.value;
      if !JsonTruthy(data) then
        Reject(Response(400, ErrorMessage("No symptoms provided")))
      else
        match Contains(data, "symptoms")
        case Failure(e) => Reject(Response(500, ErrorFromException(e)))
        case Success(false) => Reject(Response(400, ErrorMessage("No symptoms provided")))
        case Success(true) =>
          if !data.JObject? then
            Reject(Response(500, ErrorFromException(TypeError)))
          else if !data.fields["symptoms"].JString? then
            Reject(Response(500, ErrorFromException(NotAStringError(data.fields["symptoms"]))))
          else
            Proceed(data.fields["symptoms"].s)
  }

  /** The response body built from a recommendation. */
  function ResponseFields(rec: Recommendation): (m: map<string, Field>)
    ensures m.Keys == ResponseKeys
  {
    map["predicted_disease" := One(rec.disease),
        "description" := One(GetDescription(rec)),
        "medications" := Many(GetMedication(rec)),
        "diet" := Many(GetDiet(rec)),
        "precautions" := Many(GetPrecautions(rec)),
        "workout" := Many(GetWorkout(rec))]
  }

  /** The `/predict` route. */
  method HandlePredict(req: Request, engine: Engine) returns (resp: Response)
    ensures CheckRequest(req).Reject? ==> resp == CheckRequest(req).response
    ensures resp.status == 200 <==>
      (CheckRequest(req).Proceed? &&
       InputVector(Split(CheckRequest(req).symptoms, ','), engine.columns, engine.closeMatch).Success?)
    ensures resp.status == 200 ==> resp.body.Payload? && resp.body.fields.Keys == ResponseKeys
    ensures resp.status == 200 ==>
      var symptoms := Split(CheckRequest(req).symptoms, ',');
      var disease := engine.classify(InputVector(symptoms, engine.columns, engine.closeMatch).value);
      resp.body.fields == ResponseFields(Recommendation(symptoms, engine, disease))
    ensures (CheckRequest(req).Proceed? &&
             InputVector(Split(CheckRequest(req).symptoms, ','), engine.columns, engine.closeMatch).Failure?)
      ==> resp == Response(500, ErrorFromException(IndexError))
    ensures resp.status in {200, 400, 415, 500}
  {
    var checked := CheckRequest(req);
    if checked.Reject? {
      return checked.response;
    }
    InputVectorFails(Split(checked.symptoms, ','), engine.columns, engine.closeMatch);
    var rec := NewRecommendation(checked.symptoms, engine);
    match rec
    case Failure(e) => resp := Response(500, ErrorFromException(e));
    case Success(r) => resp := Response(200, Payload(ResponseFields(r)));
  }
}
