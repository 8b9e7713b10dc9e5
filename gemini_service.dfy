/**
 * The gateway to the external generative model (services/geminiService.ts):
 * reading lab values out of the model's `Key: Value` reply, deriving health
 * conditions from them, rendering the profile as a context block, cutting the
 * JSON out of a reply, attaching image URLs to meal ideas and mapping the chat
 * transcript to the model's history format.
 *
 * The model is an oracle `ask` from a request to a reply; `JSON.parse` is a
 * partial function `decode`; `encodeURIComponent` is `encode`; the rendering
 * of a fractional number inside a template string is `fmt`.
 */
module GeminiService {
  import opened Wrappers
  import opened Text
  import opened Types

  // ---------------------------------------------------------------------------
  // The external model

  /** A turn of the model's chat history. */
  datatype Turn = Turn(role: string, text: string)

  /** What the gateway asks the model; the fixed wording of the prompts is not modelled. */
  datatype Request =
    | ReportRequest(file: FileInfo)
    | FoodRequest(userContext: string, foodName: string)
    | MealIdeasRequest(userContext: string, preferences: string)
    | DrinksRequest(userContext: string, preferences: string)
    | ChatRequest(userContext: string, history: seq<Turn>, message: string)

  /** The model's reply text, or the message of the error the call threw. */
  datatype Reply = Answer(text: string) | Failed(message: string)

  /** Why a gateway operation threw. */
  datatype ServiceError =
    | Unavailable(message: string)   // the call to the model threw
    | ReportUnreadable               // no lab value could be read from the reply
    | NoJsonSpan(message: string)    // the reply holds no JSON-looking span
    | InvalidJson                    // JSON.parse threw on the span

  const UnreadableReportMessage := "Could not read report. Please upload a clearer image or enter manually."
  const FoodNoJsonMessage := "Failed to get valid JSON from food analysis."
  const MealsNoJsonMessage := "Failed to get valid JSON from meal ideas."
  const DrinksNoJsonMessage := "Failed to get valid JSON from drink suggestions."

  /** The `message` of the thrown error (JSON.parse's own wording is not modelled). */
  function ErrorMessage(e: ServiceError): string {
    match e
    case Unavailable(m) => m
    case ReportUnreadable => UnreadableReportMessage
    case NoJsonSpan(m) => m
    case InvalidJson => ""
  }

  // ---------------------------------------------------------------------------
  // parseReportData

  /** The label the model writes for a field. */
  function Label(f: LabField): string {
    match f
    case Hba1c => "HbA1c"
    case Glucose => "Fasting Glucose"
    case Ldl => "LDL"
    case Hdl => "HDL"
    case TotalCholesterol => "Total Cholesterol"
    case Triglycerides => "Triglycerides"
    case VitaminD => "Vitamin D"
    case VitaminB12 => "Vitamin B12"
    case Sgpt => "SGPT"
    case Sgot => "SGOT"
  }

  /** The mapping table: the field a trimmed label names, if any. */
  function LabelField(key: string): (r: Option<LabField>)
    ensures r.Some? ==> Label(r.value) == key
  {
    if key == "HbA1c" then Some(Hba1c)
    else if key == "Fasting Glucose" then Some(Glucose)
    else if key == "LDL" then Some(Ldl)
    else if key == "HDL" then Some(Hdl)
    else if key == "Total Cholesterol" then Some(TotalCholesterol)
    else if key == "Triglycerides" then Some(Triglycerides)
    else if key == "Vitamin D" then Some(VitaminD)
    else if key == "Vitamin B12" then Some(VitaminB12)
    else if key == "SGPT" then Some(Sgpt)
    else if key == "SGOT" then Some(Sgot)
    else None
  }

  /** Every field's label is in the table and names that field, and no other label does. */
  lemma LabelTable(f: LabField, key: string)
    ensures LabelField(Label(f)) == Some(f)
    ensures LabelField(key) == Some(f) <==> key == Label(f)
  {
    match f
    case Hba1c =>
    case Glucose =>
    case Ldl =>
    case Hdl =>
    case TotalCholesterol =>
    case Triglycerides =>
    case VitaminD =>
    case VitaminB12 =>
    case Sgpt =>
    case Sgot =>
  }

  /**
   * What one reply line contributes: a field and its value when the line
   * splits on `:` into exactly two parts, the trimmed first part is a known
   * label and the trimmed second part parses as a number.
   */
  function LineEntry(line: string): (r: Option<(LabField, real)>)
    ensures r.Some? ==> Count(line, ':') == 1
    ensures r.Some? ==> Label(r.value.0) == Trim(Split(line, ':')[0])
    ensures r.Some? ==> ParseFloat(Trim(Split(line, ':')[1])) == Some(r.value.1)
  {
    var parts := Split(line, ':');
    if |parts| != 2 then None
    else
      var field := LabelField(Trim(parts[0]));
      var value := ParseFloat(Trim(parts[1]));
      if field.Some? && value.Some? then Some((field.value, value.value)) else None
  }

  /** What each line contributes, in order. */
  function Entries(lines: seq<string>): (r: seq<Option<(LabField, real)>>)
    ensures |r| == |lines|
  {
    seq(|lines|, i requires 0 <= i < |lines| => LineEntry(lines[i]))
  }

  /** The report built from the entries in order, a later entry overwriting an earlier one. */
  function Collect(entries: seq<Option<(LabField, real)>>): ReportData {
    if entries == [] then map[]
    else
      var before := Collect(entries[..|entries| - 1]);
      var entry := entries[|entries| - 1];
      if entry.Some? then before[entry.value.0 := entry.value.1] else before
  }

  /** One more entry updates the report collected so far. */
  lemma CollectStep(entries: seq<Option<(LabField, real)>>, i: int)
    requires 0 <= i < |entries|
    ensures Collect(entries[..i + 1])
      == if entries[i].Some? then Collect(entries[..i])[entries[i].value.0 := entries[i].value.1]
         else Collect(entries[..i])
  {
    assert entries[..i + 1][..i] == entries[..i];
  }

  /** The report read from the reply's lines. */
  function ReportFrom(lines: seq<string>): ReportData {
    Collect(Entries(lines))
  }

  /** `parseReportData`: read the reply line by line into the report. */
  method ParseReportData(text: string) returns (data: ReportData)
    ensures data == ReportFrom(Split(text, '\n'))
  {
    data := map[];
    var lines := Split(text, '\n');
    ghost var entries := Entries(lines);
    var i := 0;
    while i < |lines|
      invariant 0 <= i <= |lines|
      invariant data == Collect(entries[..i])
    {
      var parts := Split(lines[i], ':');
      if |parts| == 2 {
        var key := Trim(parts[0]);
        var value := ParseFloat(Trim(parts[1]));
        var field := LabelField(key);
        if field.Some? && value.Some? {
          data := data[field.value := value.value];
        }
      }
      assert entries[i] == LineEntry(lines[i]);
      CollectStep(entries, i);
      i := i + 1;
    }
    assert entries[..|lines|] == entries;
  }

  /** A field is in the report exactly when some entry supplies it. */
  lemma {:induction false} CollectHasField(entries: seq<Option<(LabField, real)>>, f: LabField)
    ensures f in Collect(entries) <==> exists i :: 0 <= i < |entries| && entries[i].Some? && entries[i].value.0 == f
  {
    if entries != [] {
      var n := |entries| - 1;
      var init := entries[..n];
      CollectHasField(init, f);
      if !(entries[n].Some? && entries[n].value.0 == f) {
        if i :| 0 <= i < |entries| && entries[i].Some? && entries[i].value.0 == f {
          assert init[i] == entries[i];
        }
        if i :| 0 <= i < n && init[i].Some? && init[i].value.0 == f {
          assert init[i] == entries[i];
        }
      }
    }
  }

  /** A field's value in the report is the one the last entry supplying it gives. */
  lemma {:induction false} CollectLastWins(entries: seq<Option<(LabField, real)>>, f: LabField) returns (i: nat)
    requires f in Collect(entries)
    ensures i < |entries| && entries[i] == Some((f, Collect(entries)[f]))
    ensures forall j :: i < j < |entries| ==> !(entries[j].Some? && entries[j].value.0 == f)
  {
    var n := |entries| - 1;
    var init := entries[..n];
    if entries[n].Some? && entries[n].value.0 == f {
      i := n;
    } else {
      i := CollectLastWins(init, f);
      assert init[i] == entries[i];
      assert forall j :: i < j < n ==> init[j] == entries[j];
    }
  }

  /** The line supplies field `f`. */
  predicate Supplies(line: string, f: LabField) {
    LineEntry(line).Some? && LineEntry(line).value.0 == f
  }

  /** A field is in the report exactly when some reply line supplies it. */
  lemma ReportHasField(lines: seq<string>, f: LabField)
    ensures f in ReportFrom(lines) <==> exists i :: 0 <= i < |lines| && Supplies(lines[i], f)
  {
    var entries := Entries(lines);
    CollectHasField(entries, f);
    assert forall i :: 0 <= i < |lines| ==> entries[i] == LineEntry(lines[i]);
  }

  /** A field's value in the report is the one the last reply line supplying it gives. */
  lemma ReportLastLineWins(lines: seq<string>, f: LabField) returns (i: nat)
    requires f in ReportFrom(lines)
    ensures i < |lines| && LineEntry(lines[i]) == Some((f, ReportFrom(lines)[f]))
    ensures forall j :: i < j < |lines| ==> !Supplies(lines[j], f)
  {
    var entries := Entries(lines);
    i := CollectLastWins(entries, f);
    assert forall j :: 0 <= j < |lines| ==> entries[j] == LineEntry(lines[j]);
  }

  /** The labels hold no colon and no whitespace at either end. */
  lemma LabelShape(f: LabField)
    ensures Label(f) != "" && ':' !in Label(f)
    ensures !IsSpace(Label(f)[0]) && !IsSpace(Label(f)[|Label(f)| - 1])
  {
    match f
    case Hba1c =>
    case Glucose =>
    case Ldl =>
    case Hdl =>
    case TotalCholesterol =>
    case Triglycerides =>
    case VitaminD =>
    case VitaminB12 =>
    case Sgpt =>
    case Sgot =>
  }

  /** A `key: value` line with colon-free key and value splits into the key and the value after the colon. */
  lemma SplitKeyValue(key: string, value: string)
    requires ':' !in key && ':' !in value
    ensures Split(key + ": " + value, ':') == [key, " " + value]
  {
    assert ':' !in " " + value by {
      forall i | 0 <= i < |" " + value| ensures (" " + value)[i] != ':' {
        if i > 0 {
          assert (" " + value)[i] == value[i - 1];
        }
      }
    }
    SplitJoin([key, " " + value], ':');
    assert Join([key, " " + value], [':']) == key + ": " + value;
  }

  /** The converse of `LineEntry`'s contract: two parts, a known label and a number make an entry. */
  lemma LineEntryOfParts(line: string, f: LabField, v: real)
    requires |Split(line, ':')| == 2
    requires Trim(Split(line, ':')[0]) == Label(f)
    requires ParseFloat(Trim(Split(line, ':')[1])) == Some(v)
    ensures LineEntry(line) == Some((f, v))
  {
    LabelTable(f, Label(f));
  }

  /** A written integer holds no colon and no whitespace. */
  lemma NumberShape(n: int)
    ensures ':' !in IntToString(n)
    ensures !IsSpace(IntToString(n)[0]) && !IsSpace(IntToString(n)[|IntToString(n)| - 1])
  {
    var r := IntToString(n);
    assert forall i :: 0 <= i < |r| ==> r[i] != ':';
  }

  /** Text with no whitespace at either end trims to itself. */
  lemma TrimUnpadded(s: string)
    requires s != "" && !IsSpace(s[0]) && !IsSpace(s[|s| - 1])
    ensures Trim(s) == s
  {
    TrimPadded("", s, "");
    assert "" + s + "" == s;
  }

  /** The space after the colon is trimmed away. */
  lemma TrimAfterSpace(s: string)
    requires s != "" && !IsSpace(s[0]) && !IsSpace(s[|s| - 1])
    ensures Trim(" " + s) == s
  {
    TrimPadded(" ", s, "");
    assert " " + s + "" == " " + s;
  }

  /** A `key: value` line splits into two parts that trim back to the key and the value. */
  lemma TrimmedParts(key: string, value: string)
    requires ':' !in key && ':' !in value
    requires key != "" && !IsSpace(key[0]) && !IsSpace(key[|key| - 1])
    requires value != "" && !IsSpace(value[0]) && !IsSpace(value[|value| - 1])
    ensures var parts := Split(key + ": " + value, ':');
      |parts| == 2 && Trim(parts[0]) == key && Trim(parts[1]) == value
  {
    SplitKeyValue(key, value);
    TrimUnpadded(key);
    TrimAfterSpace(value);
  }

  /** A line written as `<label>: <integer>` is read back as that field and value. */
  lemma ReportLineRoundTrip(f: LabField, n: int)
    ensures LineEntry(Label(f) + ": " + IntToString(n)) == Some((f, n as real))
  {
    LabelShape(f);
    NumberShape(n);
    TrimmedParts(Label(f), IntToString(n));
    ParseFloatOfInt(n);
    LineEntryOfParts(Label(f) + ": " + IntToString(n), f, n as real);
  }

  // ---------------------------------------------------------------------------
  // determineConditions

  /** JavaScript truthiness of `data.field`: present and not zero. */
  predicate Truthy(data: ReportData, f: LabField) {
    f in data && data[f] != 0.0
  }

  /** The position of each derived condition in the list `determineConditions` builds. */
  function Rank(c: Condition): nat {
    match c
    case Diabetes => 0
    case Prediabetes => 0
    case HighCholesterol => 1
    case FattyLiver => 2
    case VitaminDDeficiency => 3
    case VitaminB12Deficiency => 4
    case _ => 5
  }

  /** Strictly increasing rank, hence no condition twice and the fixed order. */
  predicate Ranked(cs: seq<Condition>) {
    forall i, j :: 0 <= i < j < |cs| ==> Rank(cs[i]) < Rank(cs[j])
  }

  /** The HbA1c rule: diabetes from 6.5, prediabetes from 5.7; a zero value is no value. */
  function SugarRule(data: ReportData): (r: seq<Condition>)
    ensures |r| <= 1 && forall c :: c in r ==> Rank(c) == 0
    ensures Diabetes in r <==> Truthy(data, Hba1c) && data[Hba1c] >= 6.5
    ensures Prediabetes in r <==> Truthy(data, Hba1c) && 5.7 <= data[Hba1c] < 6.5
  {
    if Truthy(data, Hba1c) && data[Hba1c] >= 6.5 then [Diabetes]
    else if Truthy(data, Hba1c) && data[Hba1c] >= 5.7 then [Prediabetes]
    else []
  }

  /** A single condition when its rule fires, none otherwise. */
  function RuleOf(fires: bool, c: Condition): (r: seq<Condition>)
    ensures |r| <= 1 && (forall x :: x in r ==> x == c)
    ensures c in r <==> fires
  {
    if fires then [c] else []
  }

  function CholesterolFires(data: ReportData): bool {
    (Truthy(data, Ldl) && data[Ldl] >= 130.0) || (Truthy(data, Triglycerides) && data[Triglycerides] >= 150.0)
  }

  function LiverFires(data: ReportData): bool {
    Truthy(data, Sgpt) && data[Sgpt] > 40.0
  }

  function VitaminDFires(data: ReportData): bool {
    Truthy(data, VitaminD) && data[VitaminD] < 20.0
  }

  function VitaminB12Fires(data: ReportData): bool {
    Truthy(data, VitaminB12) && data[VitaminB12] < 200.0
  }

  /** The conditions the threshold rules derive from a report, in rule order. */
  function DerivedConditions(data: ReportData): seq<Condition> {
    SugarRule(data)
    + RuleOf(CholesterolFires(data), HighCholesterol)
    + RuleOf(LiverFires(data), FattyLiver)
    + RuleOf(VitaminDFires(data), VitaminDDeficiency)
    + RuleOf(VitaminB12Fires(data), VitaminB12Deficiency)
  }

  /** Each condition is derived exactly when its threshold rule fires, and no other condition is. */
  lemma DerivedConditionsRules(data: ReportData)
    ensures var r := DerivedConditions(data);
      && (Diabetes in r <==> Truthy(data, Hba1c) && data[Hba1c] >= 6.5)
      && (Prediabetes in r <==> Truthy(data, Hba1c) && 5.7 <= data[Hba1c] < 6.5)
      && (HighCholesterol in r <==>
           (Truthy(data, Ldl) && data[Ldl] >= 130.0) || (Truthy(data, Triglycerides) && data[Triglycerides] >= 150.0))
      && (FattyLiver in r <==> Truthy(data, Sgpt) && data[Sgpt] > 40.0)
      && (VitaminDDeficiency in r <==> Truthy(data, VitaminD) && data[VitaminD] < 20.0)
      && (VitaminB12Deficiency in r <==> Truthy(data, VitaminB12) && data[VitaminB12] < 200.0)
      && (forall c :: c in r ==> Rank(c) < 5)
  {
    var a := SugarRule(data);
    var b := RuleOf(CholesterolFires(data), HighCholesterol);
    var c := RuleOf(LiverFires(data), FattyLiver);
    var d := RuleOf(VitaminDFires(data), VitaminDDeficiency);
    var e := RuleOf(VitaminB12Fires(data), VitaminB12Deficiency);
    assert DerivedConditions(data) == a + b + c + d + e;
    PiecesMembers(a, b, c, d, e);
  }

  /** Which conditions five pieces of ranks 0 to 4 can hold once concatenated. */
  lemma PiecesMembers(a: seq<Condition>, b: seq<Condition>, c: seq<Condition>, d: seq<Condition>, e: seq<Condition>)
    requires forall x :: x in a ==> Rank(x) == 0
    requires forall x :: x in b ==> x == HighCholesterol
    requires forall x :: x in c ==> x == FattyLiver
    requires forall x :: x in d ==> x == VitaminDDeficiency
    requires forall x :: x in e ==> x == VitaminB12Deficiency
    ensures Diabetes in a + b + c + d + e <==> Diabetes in a
    ensures Prediabetes in a + b + c + d + e <==> Prediabetes in a
    ensures HighCholesterol in a + b + c + d + e <==> HighCholesterol in b
    ensures FattyLiver in a + b + c + d + e <==> FattyLiver in c
    ensures VitaminDDeficiency in a + b + c + d + e <==> VitaminDDeficiency in d
    ensures VitaminB12Deficiency in a + b + c + d + e <==> VitaminB12Deficiency in e
    ensures forall x :: x in a + b + c + d + e ==> Rank(x) < 5
  {
  }

  /** Appending at most one condition of rank `k` to a list ranked below `k` keeps it ranked. */
  lemma RankedSnoc(s: seq<Condition>, c: seq<Condition>, k: nat)
    requires Ranked(s) && forall x :: x in s ==> Rank(x) < k
    requires |c| <= 1 && forall x :: x in c ==> Rank(x) == k
    ensures Ranked(s + c)
    ensures forall x :: x in s + c ==> Rank(x) <= k
  {
    if |c| == 1 {
      forall i, j | 0 <= i < j < |s + c| ensures Rank((s + c)[i]) < Rank((s + c)[j]) {
        assert (s + c)[i] == s[i];
        assert s[i] in s;
        if j < |s| {
          assert (s + c)[j] == s[j];
        } else {
          assert (s + c)[j] == c[0] && c[0] in c;
        }
      }
    } else {
      assert s + c == s;
    }
  }

  /** Five pieces of at most one condition each, of ranks 0 to 4, concatenate to a ranked list. */
  lemma RankedPieces(a: seq<Condition>, b: seq<Condition>, c: seq<Condition>, d: seq<Condition>, e: seq<Condition>)
    requires |a| <= 1 && forall x :: x in a ==> Rank(x) == 0
    requires |b| <= 1 && forall x :: x in b ==> Rank(x) == 1
    requires |c| <= 1 && forall x :: x in c ==> Rank(x) == 2
    requires |d| <= 1 && forall x :: x in d ==> Rank(x) == 3
    requires |e| <= 1 && forall x :: x in e ==> Rank(x) == 4
    ensures Ranked(a + b + c + d + e)
  {
    RankedSnoc([], a, 0);
    assert [] + a == a;
    RankedSnoc(a, b, 1);
    RankedSnoc(a + b, c, 2);
    RankedSnoc(a + b + c, d, 3);
    RankedSnoc(a + b + c + d, e, 4);
  }

  /** The derived list comes in the fixed rule order, so it never holds a condition twice. */
  lemma DerivedConditionsRanked(data: ReportData)
    ensures Ranked(DerivedConditions(data))
  {
    RankedPieces(SugarRule(data),
                 RuleOf(CholesterolFires(data), HighCholesterol),
                 RuleOf(LiverFires(data), FattyLiver),
                 RuleOf(VitaminDFires(data), VitaminDDeficiency),
                 RuleOf(VitaminB12Fires(data), VitaminB12Deficiency));
  }

  /** `determineConditions`: push each condition whose rule fires. */
  method DetermineConditions(data: ReportData) returns (conditions: seq<Condition>)
    ensures conditions == DerivedConditions(data)
  {
    conditions := [];
    if Hba1c in data && data[Hba1c] != 0.0 {
      if data[Hba1c] >= 6.5 {
        conditions := conditions + [Diabetes];
      } else if data[Hba1c] >= 5.7 {
        conditions := conditions + [Prediabetes];
      }
    }
    assert conditions == SugarRule(data);
    ghost var expected := SugarRule(data);
    if (Ldl in data && data[Ldl] != 0.0 && data[Ldl] >= 130.0)
      || (Triglycerides in data && data[Triglycerides] != 0.0 && data[Triglycerides] >= 150.0)
    {
      conditions := conditions + [HighCholesterol];
    }
    expected := expected + RuleOf(CholesterolFires(data), HighCholesterol);
    assert conditions == expected;
    if Sgpt in data && data[Sgpt] != 0.0 && data[Sgpt] > 40.0 {
      conditions := conditions + [FattyLiver];
    }
    expected := expected + RuleOf(LiverFires(data), FattyLiver);
    assert conditions == expected;
    if VitaminD in data && data[VitaminD] != 0.0 && data[VitaminD] < 20.0 {
      conditions := conditions + [VitaminDDeficiency];
    }
    expected := expected + RuleOf(VitaminDFires(data), VitaminDDeficiency);
    assert conditions == expected;
    if VitaminB12 in data && data[VitaminB12] != 0.0 && data[VitaminB12] < 200.0 {
      conditions := conditions + [VitaminB12Deficiency];
    }
    expected := expected + RuleOf(VitaminB12Fires(data), VitaminB12Deficiency);
    assert conditions == expected;
  }

  /** HbA1c 6.6, LDL 140 and SGPT 10 give diabetes and high cholesterol, in that order. */
  lemma DerivedConditionsExample()
    ensures DerivedConditions(map[Hba1c := 6.6, Ldl := 140.0, Sgpt := 10.0]) == [Diabetes, HighCholesterol]
  {
  }

  // ---------------------------------------------------------------------------
  // analyzeReport

  datatype ReportOutcome = ReportOutcome(reportData: ReportData, conditions: seq<Condition>)

  /**
   * What `analyzeReport` makes of the model's reply: the parsed values and
   * the conditions derived from them, or an error when the call failed or
   * no field could be read.
   */
  function ReportResult(reply: Reply): (r: Result<ReportOutcome, ServiceError>)
    ensures reply.Failed? ==> r == Failure(Unavailable(reply.message))
    ensures r.Success? <==> reply.Answer? && ReportFrom(Split(reply.text, '\n')) != map[]
    ensures r.Success? ==> r.value.reportData == ReportFrom(Split(reply.text, '\n'))
                           && r.value.conditions == DerivedConditions(r.value.reportData)
    ensures r.Failure? && reply.Answer? ==> r.error == ReportUnreadable
  {
    match reply
    case Failed(m) => Failure(Unavailable(m))
    case Answer(text) =>
      var data := ReportFrom(Split(text, '\n'));
      if data == map[] then Failure(ReportUnreadable) else Success(ReportOutcome(data, DerivedConditions(data)))
  }

  /** `analyzeReport`: ask the model to read the file, parse its reply and derive conditions. */
  method AnalyzeReport(file: FileInfo, ask: Request -> Reply) returns (r: Result<ReportOutcome, ServiceError>)
    ensures r == ReportResult(ask(ReportRequest(file)))
  {
    var reply := ask(ReportRequest(file));
    if reply.Failed? {
      return Failure(Unavailable(reply.message));
    }
    var reportData := ParseReportData(reply.text);
    var conditions := DetermineConditions(reportData);
    if |reportData| == 0 {
      return Failure(ReportUnreadable);
    }
    return Success(ReportOutcome(reportData, conditions));
  }

  // ---------------------------------------------------------------------------
  // buildUserContext

  /** `${x}` for a nullable integer. */
  function ShowInt(x: Option<int>): string {
    match x
    case None => "null"
    case Some(n) => IntToString(n)
  }

  /** `${x}` for a nullable fractional number. */
  function ShowReal(x: Option<real>, fmt: real -> string): string {
    match x
    case None => "null"
    case Some(v) => fmt(v)
  }

  function GenderText(g: Option<Gender>): string {
    match g
    case None => "null"
    case Some(Male) => "male"
    case Some(Female) => "female"
    case Some(Other) => "other"
  }

  function DietText(d: Diet): string {
    match d
    case Vegetarian => "vegetarian"
    case NonVegetarian => "non-vegetarian"
    case Vegan => "vegan"
    case Eggetarian => "eggetarian"
  }

  function ActivityText(a: Option<Activity>): string {
    match a
    case None => "null"
    case Some(Sedentary) => "sedentary"
    case Some(Light) => "light"
    case Some(Moderate) => "moderate"
    case Some(Active) => "active"
  }

  /** A condition as the model reads it: its key with every `_` replaced by a space. */
  function ConditionText(c: Condition): (r: string)
    ensures r != "" && '_' !in r && ',' !in r
  {
    ConditionKeyShape(c);
    ReplaceChar(ConditionKey(c), '_', ' ')
  }

  lemma ConditionKeyShape(c: Condition)
    ensures ConditionKey(c) != "" && ',' !in ConditionKey(c)
  {
    match c
    case Prediabetes =>
    case Diabetes =>
    case FattyLiver =>
    case HighCholesterol =>
    case HighBloodPressure =>
    case VitaminDDeficiency =>
    case VitaminB12Deficiency =>
    case PcosHormonalImbalance =>
    case WeightLossGoal =>
  }

  /** `conditions.map(c => c.replace(/_/g, ' ')).join(', ')`. */
  function ConditionList(cs: seq<Condition>): string {
    Join(seq(|cs|, i requires 0 <= i < |cs| => ConditionText(cs[i])), ", ")
  }

  /** JavaScript's `text || fallback`. */
  function OrElse(text: string, fallback: string): string {
    if text == "" then fallback else text
  }

  function IdentityLine(p: UserProfile): string {
    "Name: " + p.name + ", Age: " + ShowInt(p.age) + ", Gender: " + GenderText(p.gender) + "\n"
  }

  function BodyLine(p: UserProfile): string {
    "Height: " + ShowInt(p.height) + " cm, Weight: " + ShowInt(p.currentWeight) + " kg\n"
  }

  function ConditionsLine(p: UserProfile): string {
    "Conditions: " + OrElse(ConditionList(p.conditions), "None specified") + "\n"
  }

  function AllergiesLine(p: UserProfile): string {
    "Allergies: " + OrElse(Join(p.allergies, ", "), "None") + "\n"
  }

  function DietLine(p: UserProfile): string {
    "Dietary Preference: " + DietText(p.dietaryPreference) + "\n"
  }

  function ActivityLine(p: UserProfile): string {
    "Activity Level: " + ActivityText(p.activityLevel) + "\n"
  }

  function SleepLine(p: UserProfile, fmt: real -> string): string {
    "Average Sleep: " + ShowReal(p.sleepHours, fmt) + " hours/night\n"
  }

  function WaterLine(p: UserProfile): string {
    "Daily Water Intake: " + ShowInt(p.waterIntake) + " liters\n"
  }

  /** The goal line, present only for a weight-loss goal. */
  function GoalLine(p: UserProfile): string {
    if p.weightLossGoal then "Primary Goal: Weight Loss (Target: " + ShowInt(p.targetWeight) + "kg)\n" else ""
  }

  /** The profile block every prompt embeds, one line per part of the profile. */
  function UserContext(p: UserProfile, fmt: real -> string): string {
    IdentityLine(p) + BodyLine(p) + ConditionsLine(p) + AllergiesLine(p) + DietLine(p)
    + ActivityLine(p) + SleepLine(p, fmt) + WaterLine(p) + GoalLine(p)
  }

  /** `buildUserContext`: append the profile's lines one by one. */
  method BuildUserContext(p: UserProfile, fmt: real -> string) returns (context: string)
    ensures context == UserContext(p, fmt)
  {
    context := IdentityLine(p);
    context := context + BodyLine(p);
    context := context + ConditionsLine(p);
    context := context + AllergiesLine(p);
    context := context + DietLine(p);
    context := context + ActivityLine(p);
    context := context + SleepLine(p, fmt);
    context := context + WaterLine(p);
    if p.weightLossGoal {
      context := context + GoalLine(p);
    } else {
      assert GoalLine(p) == "";
      assert context + "" == context;
    }
  }

  /**
   * The block ends with the goal line, which is non-empty exactly when the profile
   * has a weight-loss goal; so the block's last line closes with `)` exactly then.
   */
  lemma GoalLineIffWeightLossGoal(p: UserProfile, fmt: real -> string)
    ensures GoalLine(p) == "" <==> !p.weightLossGoal
    ensures var context := UserContext(p, fmt);
      |GoalLine(p)| <= |context| && context[|context| - |GoalLine(p)|..] == GoalLine(p)
    ensures var context := UserContext(p, fmt);
      |context| >= 2 && (context[|context| - 2] == ')' <==> p.weightLossGoal)
  {
    var base := IdentityLine(p) + BodyLine(p) + ConditionsLine(p) + AllergiesLine(p) + DietLine(p)
      + ActivityLine(p) + SleepLine(p, fmt) + WaterLine(p);
    var water := WaterLine(p);
    assert water[|water| - 2] == 's';
    assert base[|base| - 2] == 's';
    var context := UserContext(p, fmt);
    assert context == base + GoalLine(p);
    if p.weightLossGoal {
      var goal := GoalLine(p);
      assert goal[|goal| - 2] == ')';
      assert context[|context| - 2] == goal[|goal| - 2];
    } else {
      assert context == base;
    }
  }

  /** The condition list is empty, and "None specified" stands in, only when there is no condition. */
  lemma ConditionListEmpty(cs: seq<Condition>)
    ensures ConditionList(cs) == "" <==> cs == []
    ensures '_' !in ConditionList(cs)
  {
    var texts := seq(|cs|, i requires 0 <= i < |cs| => ConditionText(cs[i]));
    JoinEmpty(texts, ", ");
    if |cs| == 1 {
      assert texts[0] == ConditionText(cs[0]);
    }
    NoUnderscoreInJoin(texts);
  }

  lemma {:induction false} NoUnderscoreInJoin(texts: seq<string>)
    requires forall i :: 0 <= i < |texts| ==> '_' !in texts[i]
    ensures '_' !in Join(texts, ", ")
  {
    if |texts| > 1 {
      NoUnderscoreInJoin(texts[1..]);
    }
  }

  /** Each condition contributes one comma-free item, so the list has one comma fewer than conditions. */
  lemma ConditionListCommas(cs: seq<Condition>)
    requires cs != []
    ensures Count(ConditionList(cs), ',') == |cs| - 1
  {
    var texts := seq(|cs|, i requires 0 <= i < |cs| => ConditionText(cs[i]));
    JoinCount(texts, ", ", ',');
    assert Count(", ", ',') == 1;
  }

  /** The allergy list falls back to "None" exactly when it renders empty: no allergy, or one empty entry. */
  lemma AllergiesFallback(p: UserProfile)
    ensures OrElse(Join(p.allergies, ", "), "None") == "None"
      <==> |p.allergies| == 0 || p.allergies == [""] || p.allergies == ["None"]
  {
    var items := p.allergies;
    JoinEmpty(items, ", ");
    if |items| > 1 {
      var j := Join(items, ", ");
      assert j == items[0] + ", " + Join(items[1..], ", ");
      assert j[|items[0]|] == ',';
    }
  }

  // ---------------------------------------------------------------------------
  // JSON span extraction

  /** The index of the first `c` in `s`, or |s|. */
  function FirstIndex(s: string, c: char): (k: nat)
    ensures k <= |s| && (k < |s| ==> s[k] == c)
    ensures forall i :: 0 <= i < k ==> s[i] != c
  {
    if s == [] then 0 else if s[0] == c then 0 else 1 + FirstIndex(s[1..], c)
  }

  /** The index of the last `c` in `s`, or -1. */
  function LastIndex(s: string, c: char): (k: int)
    ensures -1 <= k < |s| && (k >= 0 ==> s[k] == c)
    ensures forall i :: k < i < |s| ==> s[i] != c
  {
    if s == [] then -1
    else if s[|s| - 1] == c then |s| - 1
    else LastIndex(s[..|s| - 1], c)
  }

  /**
   * The match of the greedy pattern `open[\s\S]*close`: from the first `open`
   * to the last `close`, when the first `open` comes before the last `close`.
   * The span need not be balanced.
   */
  function JsonSpan(s: string, open: char, close: char): (r: Option<string>)
    ensures r.Some? <==> exists i, j :: 0 <= i < j < |s| && s[i] == open && s[j] == close
    ensures r.Some? ==> |r.value| >= 2 && r.value[0] == open && r.value[|r.value| - 1] == close
  {
    var i := FirstIndex(s, open);
    var j := LastIndex(s, close);
    if i < j then
      assert s[i] == open && s[j] == close;
      Some(s[i..j + 1])
    else None
  }

  /** The span starts at the first `open` of the text and ends at its last `close`. */
  lemma JsonSpanIsGreedy(s: string, open: char, close: char) returns (i: nat, j: nat)
    requires JsonSpan(s, open, close).Some?
    ensures i < j < |s| && JsonSpan(s, open, close).value == s[i..j + 1]
    ensures open !in s[..i] && close !in s[j + 1..]
  {
    i := FirstIndex(s, open);
    j := LastIndex(s, close);
    var after := s[j + 1..];
    assert forall k :: 0 <= k < |after| ==> after[k] == s[j + 1 + k];
  }

  /** The reply cut down to its JSON span and decoded, or why that failed. */
  function DecodeReply<T>(reply: Reply, open: char, close: char, noSpan: string,
                          decode: string -> Option<T>): (r: Result<T, ServiceError>)
    ensures reply.Failed? ==> r == Failure(Unavailable(reply.message))
    ensures reply.Answer? && JsonSpan(Trim(reply.text), open, close).None? ==> r == Failure(NoJsonSpan(noSpan))
    ensures r.Success? <==>
      (reply.Answer? && JsonSpan(Trim(reply.text), open, close).Some?
       && decode(JsonSpan(Trim(reply.text), open, close).value).Some?)
    ensures r.Success? ==> decode(JsonSpan(Trim(reply.text), open, close).value) == Some(r.value)
  {
    match reply
    case Failed(m) => Failure(Unavailable(m))
    case Answer(text) =>
      match JsonSpan(Trim(text), open, close)
      case None => Failure(NoJsonSpan(noSpan))
      case Some(span) =>
        match decode(span)
        case None => Failure(InvalidJson)
        case Some(v) => Success(v)
  }

  /** `analyzeFood`: ask for a JSON object describing the meal and decode it. */
  method AnalyzeFood(foodName: string, profile: UserProfile, ask: Request -> Reply,
                     decode: string -> Option<FoodAnalysis>, fmt: real -> string)
    returns (r: Result<FoodAnalysis, ServiceError>)
    ensures r == DecodeReply(ask(FoodRequest(UserContext(profile, fmt), foodName)), '{', '}', FoodNoJsonMessage, decode)
  {
    var userContext := BuildUserContext(profile, fmt);
    var reply := ask(FoodRequest(userContext, foodName));
    r := DecodeReply(reply, '{', '}', FoodNoJsonMessage, decode);
  }

  // ---------------------------------------------------------------------------
  // generateMealIdeas, generateDrinkSuggestions

  const ImageEndpoint := "https://source.unsplash.com/500x300/?"

  /** Each idea kept whole, with the image URL built from its encoded search term. */
  function WithImages(ideas: seq<MealIdea>, encode: string -> string): (r: seq<MealSuggestion>)
    ensures |r| == |ideas|
    ensures forall i :: 0 <= i < |ideas| ==>
      r[i].idea == ideas[i] && r[i].image == ImageEndpoint + encode(ideas[i].imageSearchTerm)
  {
    if ideas == [] then []
    else [MealSuggestion(ideas[0], ImageEndpoint + encode(ideas[0].imageSearchTerm))] + WithImages(ideas[1..], encode)
  }

  /** `generateMealIdeas`: ask for a JSON array of ideas, decode it and attach image URLs. */
  method GenerateMealIdeas(profile: UserProfile, preferences: string, ask: Request -> Reply,
                           decode: string -> Option<seq<MealIdea>>, encode: string -> string, fmt: real -> string)
    returns (r: Result<seq<MealSuggestion>, ServiceError>)
    ensures var decoded := DecodeReply(ask(MealIdeasRequest(UserContext(profile, fmt), preferences)), '[', ']', MealsNoJsonMessage, decode);
      r == match decoded
           case Success(ideas) => Success(WithImages(ideas, encode))
           case Failure(e) => Failure(e)
  {
    var userContext := BuildUserContext(profile, fmt);
    var reply := ask(MealIdeasRequest(userContext, preferences));
    var decoded := DecodeReply(reply, '[', ']', MealsNoJsonMessage, decode);
    match decoded {
      case Success(ideas) => r := Success(WithImages(ideas, encode));
      case Failure(e) => r := Failure(e);
    }
  }

  /** `generateDrinkSuggestions`: ask for a JSON array of drinks and decode it. */
  method GenerateDrinkSuggestions(profile: UserProfile, preferences: string, ask: Request -> Reply,
                                  decode: string -> Option<seq<DrinkSuggestion>>, fmt: real -> string)
    returns (r: Result<seq<DrinkSuggestion>, ServiceError>)
    ensures r == DecodeReply(ask(DrinksRequest(UserContext(profile, fmt), preferences)), '[', ']', DrinksNoJsonMessage, decode)
  {
    var userContext := BuildUserContext(profile, fmt);
    var reply := ask(DrinksRequest(userContext, preferences));
    r := DecodeReply(reply, '[', ']', DrinksNoJsonMessage, decode);
  }

  // ---------------------------------------------------------------------------
  // chatResponse

  /** The history the model is given: one turn per message. */
  function History(messages: seq<ChatMessage>): (r: seq<Turn>)
    ensures |r| == |messages|
  {
    if messages == [] then []
    else [Turn(if messages[0].sender == User then "user" else "model", messages[0].text)] + History(messages[1..])
  }

  /** Each turn carries its message's text, with role `user` for the user's messages and `model` for all others. */
  lemma {:induction false} HistoryTurn(messages: seq<ChatMessage>, i: int)
    requires 0 <= i < |messages|
    ensures History(messages)[i].text == messages[i].text
    ensures History(messages)[i].role == "user" <==> messages[i].sender == User
    ensures History(messages)[i].role == "model" <==> messages[i].sender != User
  {
    if i > 0 {
      HistoryTurn(messages[1..], i - 1);
    }
  }

  /** `chatResponse`: replay the transcript as history, send the message, return the raw reply. */
  method ChatResponse(input: string, profile: UserProfile, history: seq<ChatMessage>,
                      ask: Request -> Reply, fmt: real -> string)
    returns (r: Result<string, ServiceError>)
    ensures var reply := ask(ChatRequest(UserContext(profile, fmt), History(history), input));
      r == match reply
           case Answer(text) => Success(text)
           case Failed(m) => Failure(Unavailable(m))
  {
    var userContext := BuildUserContext(profile, fmt);
    var turns := History(history);
    var reply := ask(ChatRequest(userContext, turns, input));
    match reply {
      case Answer(text) => r := Success(text);
      case Failed(m) => r := Failure(Unavailable(m));
    }
  }
}
