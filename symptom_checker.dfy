/**
 * The symptom-checker page: the selected symptom ids, the free-text notes,
 * the submit gate of the "Get Recommendation" button, the three analysis
 * stages advanced one by one, and the mock prediction text shown at the end.
 * Timer delays become plain steps and `Math.random()` becomes a parameter.
 */
module SymptomChecker {
  import opened Wrappers
  import opened Text

  // ---------------------------------------------------------------------
  // Symptom selection
  // ---------------------------------------------------------------------

  /** `s.filter(y => y !== x)`: `s` with every occurrence of `x` removed, order kept. */
  function Without(s: seq<string>, x: string): (r: seq<string>)
    ensures x !in r
    ensures |r| <= |s|
    ensures forall y :: y != x ==> (y in r <==> y in s)
    decreases |s|
  {
    if s == [] then []
    else (if s[0] == x then [] else [s[0]]) + Without(s[1..], x)
  }

  /** The toggle updater: an absent id is appended at the end, a present one removed everywhere. */
  function Toggle(prev: seq<string>, id: string): (r: seq<string>)
    ensures id in r <==> id !in prev
    ensures forall y :: y != id ==> (y in r <==> y in prev)
    ensures id !in prev ==> r == prev + [id]
  {
    if id in prev then Without(prev, id) else prev + [id]
  }

  /** Removing zeroes the count of `x` and keeps the count of every other element. */
  lemma {:induction false} WithoutMembers(s: seq<string>, x: string)
    ensures multiset(Without(s, x)) == multiset(s)[x := 0]
    decreases |s|
  {
    if s != [] {
      WithoutMembers(s[1..], x);
      var head := if s[0] == x then [] else [s[0]];
      assert Without(s, x) == head + Without(s[1..], x);
      assert multiset(Without(s, x)) == multiset(head) + multiset(Without(s[1..], x));
      assert s == [s[0]] + s[1..];
      assert multiset(s) == multiset([s[0]]) + multiset(s[1..]);
    }
  }

  /** Filtering distributes over concatenation, which is what "order kept" means. */
  lemma {:induction false} WithoutConcat(a: seq<string>, b: seq<string>, x: string)
    ensures Without(a + b, x) == Without(a, x) + Without(b, x)
    decreases |a|
  {
    if a == [] {
      assert a + b == b;
    } else {
      var head := if a[0] == x then [] else [a[0]];
      assert (a + b)[0] == a[0] && (a + b)[1..] == a[1..] + b;
      assert Without(a + b, x) == head + Without(a[1..] + b, x);
      WithoutConcat(a[1..], b, x);
      assert Without(a, x) == head + Without(a[1..], x);
    }
  }

  /** Removing an absent element changes nothing. */
  lemma {:induction false} WithoutAbsent(s: seq<string>, x: string)
    requires x !in s
    ensures Without(s, x) == s
    decreases |s|
  {
    if s != [] {
      WithoutAbsent(s[1..], x);
    }
  }

  /** A selection without repeated ids. */
  predicate Distinct(s: seq<string>)
  {
    forall i, j :: 0 <= i < j < |s| ==> s[i] != s[j]
  }

  lemma {:induction false} WithoutDistinct(s: seq<string>, x: string)
    requires Distinct(s)
    ensures Distinct(Without(s, x))
    decreases |s|
  {
    if s != [] {
      WithoutDistinct(s[1..], x);
      var rest := Without(s[1..], x);
      assert s[0] !in s[1..] by {
        forall k | 0 <= k < |s[1..]| ensures s[1..][k] != s[0] {
          assert s[1..][k] == s[k + 1];
        }
      }
      assert s[0] !in rest;
    }
  }

  /** Toggling never introduces a repeated id. */
  lemma ToggleKeepsDistinct(s: seq<string>, id: string)
    requires Distinct(s)
    ensures Distinct(Toggle(s, id))
  {
    if id in s {
      WithoutDistinct(s, id);
    }
  }

  /** Toggling an absent id twice restores the exact selection. */
  lemma ToggleTwiceAbsent(s: seq<string>, id: string)
    requires id !in s
    ensures Toggle(Toggle(s, id), id) == s
  {
    WithoutConcat(s, [id], id);
    WithoutAbsent(s, id);
  }

  /**
   * Toggling a present id twice restores the selection as a set; the id now
   * comes last and its other occurrences are gone.
   */
  lemma TogglePresentTwice(s: seq<string>, id: string)
    requires id in s
    ensures Toggle(Toggle(s, id), id) == Without(s, id) + [id]
    ensures forall y :: y in Toggle(Toggle(s, id), id) <==> y in s
    ensures multiset(Toggle(s, id)) == multiset(s)[id := 0]
  {
    WithoutMembers(s, id);
  }

  // ---------------------------------------------------------------------
  // Analysis stages
  // ---------------------------------------------------------------------

  datatype Status = Pending | Complete

  datatype Analysis = Analysis(title: string, description: string, status: Status)

  /** The stage list the page starts with. */
  function InitialAnalyses(): (r: seq<Analysis>)
    ensures |r| == 3
    ensures forall j :: 0 <= j < |r| ==> r[j].status == Pending
  {
    [ Analysis("Symptom Analysis", "Analyzing reported symptoms", Pending),
      Analysis("Pattern Recognition", "Identifying potential conditions", Pending),
      Analysis("Treatment Recommendation", "Generating personalized advice", Pending) ]
  }

  /** Same length, titles and descriptions; statuses may differ. */
  predicate SameLabels(a: seq<Analysis>, b: seq<Analysis>)
  {
    |a| == |b| &&
    forall j :: 0 <= j < |a| ==> a[j].title == b[j].title && a[j].description == b[j].description
  }

  /** The stages as they are after `done` steps: stages `0..done-1` complete, the rest pending. */
  function WithProgress(stages: seq<Analysis>, done: nat): (r: seq<Analysis>)
    ensures SameLabels(r, stages)
    ensures forall j :: 0 <= j < |r| ==> (r[j].status == Complete <==> j < done)
  {
    seq(|stages|, j requires 0 <= j < |stages| =>
      stages[j].(status := if j < done then Complete else Pending))
  }

  /** A step overwrites every status, so it does not matter what the statuses were before. */
  lemma WithProgressAgain(s: seq<Analysis>, a: nat, b: nat)
    ensures WithProgress(WithProgress(s, a), b) == WithProgress(s, b)
  {
  }

  /** The snapshots after each step of one run: after step `k` (counting from 0), stages `0..k` are complete. */
  function Progression(stages: seq<Analysis>): (r: seq<seq<Analysis>>)
    ensures |r| == |stages|
  {
    seq(|stages|, k requires 0 <= k < |stages| => WithProgress(stages, k + 1))
  }

  /** Number of complete stages. */
  function CompleteCount(stages: seq<Analysis>): nat
  {
    if stages == [] then 0
    else (if stages[0].status == Complete then 1 else 0) + CompleteCount(stages[1..])
  }

  /** Stages `0..k-1` complete and the rest pending means exactly `min(k, n)` are complete. */
  lemma {:induction false} CompleteCountPrefix(stages: seq<Analysis>, k: nat)
    requires forall j :: 0 <= j < |stages| ==> (stages[j].status == Complete <==> j < k)
    ensures CompleteCount(stages) == if k < |stages| then k else |stages|
    decreases |stages|
  {
    if stages != [] {
      if k == 0 {
        CompleteCountPrefix(stages[1..], 0);
      } else {
        CompleteCountPrefix(stages[1..], k - 1);
      }
    }
  }

  /**
   * Within a run, each step completes exactly one more stage, the next one
   * from the left: snapshot `k` differs from snapshot `k-1` only at index `k`,
   * which goes from pending to complete, and has `k+1` complete stages.
   */
  lemma ProgressionStepwise(stages: seq<Analysis>, k: nat)
    requires 0 < k < |stages|
    ensures var before, after := Progression(stages)[k - 1], Progression(stages)[k];
      && before[k].status == Pending && after[k].status == Complete
      && (forall j :: 0 <= j < |stages| && j != k ==> after[j] == before[j])
      && CompleteCount(after) == CompleteCount(before) + 1
  {
    var before, after := Progression(stages)[k - 1], Progression(stages)[k];
    CompleteCountPrefix(before, k);
    CompleteCountPrefix(after, k + 1);
  }

  // ---------------------------------------------------------------------
  // Mock prediction
  // ---------------------------------------------------------------------

  datatype MockPrediction = MockPrediction(
    condition: string, medications: seq<string>, advice: string, warning: string)

  const ColdMedications: seq<string> := ["Acetaminophen (500mg every 6 hours)", "Decongestant nasal spray"]
  const AllergyMedications: seq<string> := ["Cetirizine (10mg once daily)", "Nasal corticosteroid spray"]
  const FluMedications: seq<string> := ["Ibuprofen (400mg every 6 hours)", "Oseltamivir if within 48 hours of symptoms"]

  /** The three fixed records one of which is shown at random. */
  const Cold: MockPrediction := MockPrediction(
    "Common Cold",
    ColdMedications,
    "Rest well and stay hydrated. Avoid strenuous activities for 2-3 days.",
    "Seek medical attention if symptoms worsen or fever persists for more than 3 days.")

  const Allergy: MockPrediction := MockPrediction(
    "Seasonal Allergies",
    AllergyMedications,
    "Avoid known allergens and keep windows closed during high pollen counts.",
    "If breathing becomes difficult, seek immediate medical attention.")

  const Flu: MockPrediction := MockPrediction(
    "Influenza",
    FluMedications,
    "Get plenty of rest and fluids. Keep warm and avoid contact with others.",
    "Contact your healthcare provider if you experience severe chest pain or difficulty breathing.")

  function MockPredictions(): seq<MockPrediction>
  {
    [Cold, Allergy, Flu]
  }

  /** `Math.floor(random * n)` for `random` drawn from `[0, 1)`: always a valid index. */
  function PickIndex(random: real, n: nat): (k: nat)
    requires 0.0 <= random < 1.0 && n > 0
    ensures k < n
    ensures k as real <= random * n as real < k as real + 1.0
  {
    ScaledBelow(random, n as real);
    FloorBelow(random * n as real, n);
    (random * n as real).Floor as nat
  }

  /** The floor of a real in `[0, m)` is an index below `m`. */
  lemma FloorBelow(x: real, m: nat)
    requires 0.0 <= x < m as real
    ensures 0 <= x.Floor < m
    ensures x.Floor as real <= x < x.Floor as real + 1.0
  {
  }

  /** Scaling by a fraction in `[0, 1)` stays within `[0, m)`. */
  lemma ScaledBelow(r: real, m: real)
    requires 0.0 <= r < 1.0 && m > 0.0
    ensures 0.0 <= r * m < m
  {
    assert m - r * m == (1.0 - r) * m;
  }

  /** The fixed opening of every recommendation text. */
  const Opening: string := "Based on your symptoms, you might have "

  /** The recommendation text built from a record. */
  function PredictionText(p: MockPrediction): (r: string)
    ensures Opening + p.condition <= r
  {
    Opening + p.condition + ".\n\n" +
    "Recommended medications:\n" + Join(p.medications, "\n") + "\n\n" +
    "Advice: " + p.advice + "\n\n" +
    "Important: " + p.warning
  }

  /**
   * The text is made of the condition, the medications joined by newlines,
   * the advice and the warning, in that order, each behind its fixed heading.
   */
  lemma PredictionTextSections(p: MockPrediction)
    ensures var t := PredictionText(p);
      var i1 := |Opening| + |p.condition| + 3 + 25;
      var meds := Join(p.medications, "\n");
      var i2 := i1 + |meds| + 2 + 8;
      var i3 := i2 + |p.advice| + 2 + 11;
      && t[..|Opening|] == Opening
      && t[|Opening|..|Opening| + |p.condition|] == p.condition
      && t[i1..i1 + |meds|] == meds
      && t[i2..i2 + |p.advice|] == p.advice
      && t[i3..] == p.warning
  {
  }

  /**
   * The medications section is lossless: splitting it at the newlines gives
   * back the chosen record's medication list, because no medication line
   * contains a newline.
   */
  lemma MedicationsRecoverable(k: nat)
    requires k < |MockPredictions()|
    ensures Split(Join(MockPredictions()[k].medications, "\n"), '\n') == MockPredictions()[k].medications
  {
    MedicationsSingleLine(k);
    SplitJoin(MockPredictions()[k].medications, '\n');
  }

  /** Every record lists its medications one per line: no medication contains a newline. */
  lemma MedicationsSingleLine(k: nat)
    requires k < |MockPredictions()|
    ensures |MockPredictions()[k].medications| >= 1
    ensures forall j :: 0 <= j < |MockPredictions()[k].medications| ==>
      '\n' !in MockPredictions()[k].medications[j]
  {
    if k == 0 {
      ColdSingleLine();
    } else if k == 1 {
      AllergySingleLine();
    } else {
      FluSingleLine();
    }
  }

  lemma ColdSingleLine()
    ensures |ColdMedications| == 2 && '\n' !in ColdMedications[0] && '\n' !in ColdMedications[1]
  {
  }

  lemma AllergySingleLine()
    ensures |AllergyMedications| == 2 && '\n' !in AllergyMedications[0] && '\n' !in AllergyMedications[1]
  {
  }

  lemma FluSingleLine()
    ensures |FluMedications| == 2 && '\n' !in FluMedications[0] && '\n' !in FluMedications[1]
  {
  }

  // ---------------------------------------------------------------------
  // The page state
  // ---------------------------------------------------------------------

  class PredictionPage {
    var selected: seq<string>
    var notes: string
    var isAnalyzing: bool
    var analyses: array<Analysis>
    var prediction: Option<string>
    /** The records `handlePredict` picks from. */
    const records: seq<MockPrediction>
    /** Every stage list the page has shown, one snapshot per step. */
    ghost var stageTrace: seq<seq<Analysis>>

    /** Three stages and three records to pick from. */
    ghost predicate Valid()
      reads this
    {
      analyses.Length == 3 && |records| == 3
    }

    constructor ()
      ensures Valid() && fresh(analyses)
      ensures selected == [] && notes == "" && !isAnalyzing && prediction == None
      ensures analyses[..] == InitialAnalyses() && stageTrace == []
      ensures records == MockPredictions()
    {
      selected := [];
      notes := "";
      isAnalyzing := false;
      prediction := None;
      records := MockPredictions();
      analyses := new Analysis[3](j requires 0 <= j < 3 => InitialAnalyses()[j]);
      stageTrace := [];
    }

    /** The button's `disabled` expression; the notes play no part in it. */
    predicate SubmitDisabled()
      reads this
      ensures !SubmitDisabled() ==> |selected| > 0 && !isAnalyzing
      ensures |selected| == 0 || isAnalyzing ==> SubmitDisabled()
    {
      |selected| == 0 || isAnalyzing
    }

    method ToggleSymptom(id: string)
      modifies this`selected
      ensures selected == Toggle(old(selected), id)
      ensures Distinct(old(selected)) ==> Distinct(selected)
    {
      if Distinct(selected) {
        ToggleKeepsDistinct(selected, id);
      }
      selected := Toggle(selected, id);
    }

    method SetNotes(text: string)
      modifies this`notes
      ensures notes == text
      ensures SubmitDisabled() == old(SubmitDisabled())
    {
      notes := text;
    }

    /** The opening of a run: analysing, and no prediction shown. */
    method BeginAnalysis()
      modifies this`isAnalyzing, this`prediction
      ensures isAnalyzing && prediction == None
    {
      isAnalyzing := true;
      prediction := None;
    }

    /** Loop step `i`: every stage at index `<= i` complete, every other pending. */
    method AdvanceStage(i: nat)
      requires i < analyses.Length
      modifies this`stageTrace, analyses
      ensures analyses[..] == WithProgress(old(analyses[..]), i + 1)
      ensures stageTrace == old(stageTrace) + [analyses[..]]
    {
      var j := 0;
      while j < analyses.Length
        invariant 0 <= j <= analyses.Length
        invariant forall k :: 0 <= k < j ==>
          analyses[k] == old(analyses[k]).(status := if k <= i then Complete else Pending)
        invariant forall k :: j <= k < analyses.Length ==> analyses[k] == old(analyses[k])
        invariant stageTrace == old(stageTrace)
      {
        analyses[j] := analyses[j].(status := if j <= i then Complete else Pending);
        j := j + 1;
      }
      stageTrace := stageTrace + [analyses[..]];
    }

    /** The delayed ending of a run: the chosen record's text is shown and analysing stops. */
    method FinishAnalysis(random: real)
      requires Valid() && 0.0 <= random < 1.0
      modifies this`isAnalyzing, this`prediction
      ensures !isAnalyzing
      ensures prediction == Some(PredictionText(records[PickIndex(random, |records|)]))
    {
      var chosen := records[PickIndex(random, |records|)];
      prediction := Some(PredictionText(chosen));
      isAnalyzing := false;
    }

    /** The whole run of `handlePredict`, its awaits taken as consecutive steps. */
    method Predict(random: real)
      requires Valid() && 0.0 <= random < 1.0
      modifies this, analyses
      ensures Valid() && analyses == old(analyses)
      ensures selected == old(selected) && notes == old(notes)
      ensures SameLabels(analyses[..], old(analyses[..]))
      ensures analyses[..] == WithProgress(old(analyses[..]), analyses.Length)
      ensures stageTrace == old(stageTrace) + Progression(old(analyses[..]))
      ensures forall j :: 0 <= j < analyses.Length ==> analyses[j].status == Complete
      ensures !isAnalyzing && prediction.Some?
      ensures prediction == Some(PredictionText(records[PickIndex(random, |records|)]))
      ensures SubmitDisabled() <==> |selected| == 0
    {
      BeginAnalysis();
      ghost var start := analyses[..];
      ghost var trace0 := stageTrace;
      var i := 0;
      while i < analyses.Length
        invariant 0 <= i <= analyses.Length
        invariant Valid() && analyses == old(analyses)
        invariant selected == old(selected) && notes == old(notes)
        invariant isAnalyzing && prediction == None
        invariant analyses[..] == if i == 0 then start else WithProgress(start, i)
        invariant stageTrace == trace0 + Progression(start)[..i]
      {
        ghost var before := analyses[..];
        AdvanceStage(i);
        WithProgressAgain(start, i, i + 1);
        assert Progression(start)[..i + 1] == Progression(start)[..i] + [WithProgress(start, i + 1)];
        i := i + 1;
      }
      assert Progression(start)[..analyses.Length] == Progression(start);
      FinishAnalysis(random);
    }

    /** A click on the button: nothing happens while it is disabled. */
    method ClickSubmit(random: real) returns (ran: bool)
      requires Valid() && 0.0 <= random < 1.0
      modifies this, analyses
      ensures Valid() && analyses == old(analyses)
      ensures ran == !old(SubmitDisabled())
      ensures selected == old(selected) && notes == old(notes)
      ensures !ran ==> (prediction == old(prediction) && isAnalyzing == old(isAnalyzing)
        && analyses[..] == old(analyses[..]) && stageTrace == old(stageTrace))
      ensures ran ==> prediction == Some(PredictionText(records[PickIndex(random, |records|)])) && !isAnalyzing
      ensures ran ==> SameLabels(analyses[..], old(analyses[..]))
      ensures ran ==> analyses[..] == WithProgress(old(analyses[..]), analyses.Length)
      ensures ran ==> stageTrace == old(stageTrace) + Progression(old(analyses[..]))
      ensures ran ==> forall j :: 0 <= j < analyses.Length ==> analyses[j].status == Complete
    {
      ran := !SubmitDisabled();
      if ran {
        Predict(random);
      }
    }
  }
}
