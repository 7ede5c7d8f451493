/**
 * The prediction form's controller: the field rules checked on submit, the
 * change handler, and the submit workflow around one request to the
 * prediction endpoint.
 */
module PredictionForm {
  import opened Wrappers
  import opened Prediction
  import Decimal

  /** The record the form starts with: every number 0, no date, the Hybrid seed. */
  const InitialFormData := FormData("", 0.0, 0.0, 0.0, 0.0, 0.0, 0.0, 0.0, Hybrid)

  // ---------------------------------------------------------------------------
  // Validation
  // ---------------------------------------------------------------------------

  /** The range each field must lie in for a prediction to be requested. */
  predicate FieldValid(d: FormData, f: Field) {
    match f
    case SowingDate => d.sowingDate != ""
    case NitrogenApplied => d.nitrogenApplied > 0.0
    case PhosphorusApplied => d.phosphorusApplied > 0.0
    case SoilPh => 0.0 < d.soilPh <= 14.0
    case AverageTemperature => -50.0 < d.averageTemperature <= 60.0
    case AverageRainfall => d.averageRainfall >= 0.0
    case AverageHumidity => 0.0 <= d.averageHumidity <= 100.0
    case PlantDensity => d.plantDensity > 0.0
    case SeedType => SeedName(d.seedType) != ""
  }

  predicate AllValid(d: FormData) {
    forall f :: FieldValid(d, f)
  }

  /** The message recorded for a field that breaks its rule. */
  function ErrorMessage(f: Field): string {
    match f
    case SowingDate => "Sowing date is required"
    case NitrogenApplied => "Nitrogen applied must be greater than 0"
    case PhosphorusApplied => "Phosphorus applied must be greater than 0"
    case SoilPh => "Soil pH must be between 0 and 14"
    case AverageTemperature => "Temperature must be between -50°C and 60°C"
    case AverageRainfall => "Rainfall cannot be negative"
    case AverageHumidity => "Humidity must be between 0% and 100%"
    case PlantDensity => "Plant density must be greater than 0"
    case SeedType => "Seed type is required"
  }

  /** One rule of `validateForm`: when it fails, its field is reported. */
  function Report(failing: set<Field>, fails: bool, f: Field): set<Field> {
    if fails then failing + {f} else failing
  }

  /**
   * The fields `validateForm` reports, with the source's own conditions:
   * every rule is checked in turn, and a failing rule never skips a later one.
   */
  function FailingFields(d: FormData): set<Field> {
    var s1 := Report({}, d.sowingDate == "", SowingDate);
    var s2 := Report(s1, d.nitrogenApplied <= 0.0, NitrogenApplied);
    var s3 := Report(s2, d.phosphorusApplied <= 0.0, PhosphorusApplied);
    var s4 := Report(s3, d.soilPh <= 0.0 || d.soilPh > 14.0, SoilPh);
    var s5 := Report(s4, d.averageTemperature <= -50.0 || d.averageTemperature > 60.0, AverageTemperature);
    var s6 := Report(s5, d.averageRainfall < 0.0, AverageRainfall);
    var s7 := Report(s6, d.averageHumidity < 0.0 || d.averageHumidity > 100.0, AverageHumidity);
    var s8 := Report(s7, d.plantDensity <= 0.0, PlantDensity);
    Report(s8, SeedName(d.seedType) == "", Field.SeedType)
  }

  /** The error map `validateForm` builds: each reported field with its rule's message. */
  function Validate(d: FormData): (r: FormErrors)
    ensures forall f :: f in r <==> !FieldValid(d, f)
    ensures forall f :: f in r ==> r[f] == ErrorMessage(f)
  {
    map f | f in FailingFields(d) :: ErrorMessage(f)
  }

  /** Validation passes (the map is empty) exactly when every field is in range. */
  lemma ValidateEmptyIffAllValid(d: FormData)
    ensures Validate(d) == map[] <==> AllValid(d)
  {
    if AllValid(d) {
      assert Validate(d).Keys == {};
    } else {
      var f :| !FieldValid(d, f);
      assert f in Validate(d);
    }
  }

  /** Whether a field is reported depends on that field's value alone. */
  lemma RuleDependsOnlyOnItsField(d1: FormData, d2: FormData, f: Field)
    requires Get(d1, f) == Get(d2, f)
    ensures f in Validate(d1) <==> f in Validate(d2)
  {
  }

  /** A seed type is always one of the three options, so it is never reported. */
  lemma NoSeedTypeError(d: FormData)
    ensures Field.SeedType !in Validate(d)
  {
  }

  /**
   * The record the form starts with fails on exactly the date, the two
   * fertilizers, the pH and the plant density; 0 is in range for the weather fields.
   */
  lemma InitialFormDataFails()
    ensures Validate(InitialFormData).Keys
      == {SowingDate, NitrogenApplied, PhosphorusApplied, SoilPh, PlantDensity}
  {
    var errs := Validate(InitialFormData);
    assert errs.Keys == {SowingDate, NitrogenApplied, PhosphorusApplied, SoilPh, PlantDensity} by {
      forall f ensures f in errs <==> f in {SowingDate, NitrogenApplied, PhosphorusApplied, SoilPh, PlantDensity} {
        assert f in errs <==> !FieldValid(InitialFormData, f);
      }
    }
  }

  /** A complete, in-range record, and the same record with no nitrogen applied. */
  const ExampleRecord := FormData("2025-04-01", 120.0, 60.0, 7.5, 25.0, 500.0, 60.0, 53000.0, Hybrid)

  lemma ExampleRecordScenarios()
    ensures Validate(ExampleRecord) == map[]
    ensures Validate(ExampleRecord.(nitrogenApplied := 0.0)) == map[NitrogenApplied := ErrorMessage(NitrogenApplied)]
  {
    ValidateEmptyIffAllValid(ExampleRecord);
    var errs := Validate(ExampleRecord.(nitrogenApplied := 0.0));
    assert errs.Keys == {NitrogenApplied} by {
      forall f ensures f in errs <==> f == NitrogenApplied {
        assert f in errs <==> !FieldValid(ExampleRecord.(nitrogenApplied := 0.0), f);
      }
    }
  }

  // ---------------------------------------------------------------------------
  // Change handling
  // ---------------------------------------------------------------------------

  /** The kind of control each field is bound to on the form. */
  datatype InputKind = NumberInput | DateInput | SelectInput

  function InputKindOf(f: Field): InputKind {
    match f
    case SowingDate => DateInput
    case SeedType => SelectInput
    case _ => NumberInput
  }

  /** `parseFloat(value) || 0`: text that does not parse (None) and a parsed 0 both store 0. */
  function Coerce(parsed: Option<real>): real {
    match parsed
    case Some(v) => v
    case None => 0.0
  }

  /** The error banner a changed field shows: only a recorded, non-empty message counts. */
  predicate HasError(errors: FormErrors, f: Field) {
    f in errors && errors[f] != ""
  }

  // ---------------------------------------------------------------------------
  // Submission
  // ---------------------------------------------------------------------------

  /** What a thrown value can be: an `Error` with a message, or anything else. */
  datatype Thrown = ErrorObject(message: string) | OtherValue

  /**
   * How the one request of a submission ends: a 2xx response whose body holds
   * the predicted yield, a response with another status, or a thrown value
   * (network failure, malformed body).
   */
  datatype FetchOutcome = Ok(predictedYield: real) | HttpError(status: nat) | Rejected(thrown: Thrown)

  const FailurePrefix := "Failed to get prediction: "
  const HttpErrorPrefix := "HTTP error! status: "
  const GenericFailure := "Failed to get prediction. Please try again."

  /** The message the catch block records for a thrown value. */
  function CatchMessage(t: Thrown): string {
    match t
    case ErrorObject(msg) => FailurePrefix + msg
    case OtherValue => GenericFailure
  }

  /** The value a failed request throws: a non-ok status becomes an `Error` naming it. */
  function ThrownBy(o: FetchOutcome): Thrown
    requires !o.Ok?
  {
    match o
    case HttpError(status) => ErrorObject(HttpErrorPrefix + Decimal.NatToString(status))
    case Rejected(t) => t
  }

  /**
   * The message a failed request leaves in `apiError`: never empty; for a
   * thrown `Error`, the prefix followed by that error's own message; for any
   * other thrown value, the generic text.
   */
  function FailureMessage(o: FetchOutcome): (m: string)
    requires !o.Ok?
    ensures m != ""
    ensures o.HttpError? ==> |FailurePrefix + HttpErrorPrefix| < |m|
    ensures o.Rejected? && o.thrown.ErrorObject? ==>
      |FailurePrefix| <= |m| && m[..|FailurePrefix|] == FailurePrefix && m[|FailurePrefix|..] == o.thrown.message
    ensures o.Rejected? && o.thrown.OtherValue? ==> m == GenericFailure
  {
    CatchMessage(ThrownBy(o))
  }

  /** Reads the HTTP status back out of a failure message, if it names one. */
  function StatusInMessage(m: string): Option<nat> {
    var p := FailurePrefix + HttpErrorPrefix;
    if |p| <= |m| && m[..|p|] == p then Decimal.ParseNat(m[|p|..]) else None
  }

  /** The message of a non-ok response names its status, and it can be read back. */
  lemma {:induction false} HttpStatusInMessage(status: nat)
    ensures StatusInMessage(FailureMessage(HttpError(status))) == Some(status)
  {
    var p := FailurePrefix + HttpErrorPrefix;
    var m := FailureMessage(HttpError(status));
    assert m == p + Decimal.NatToString(status);
    assert m[..|p|] == p && m[|p|..] == Decimal.NatToString(status);
    Decimal.ParseNatToString(status);
  }

  /** Non-ok responses with different statuses leave different messages. */
  lemma HttpErrorMessagesDiffer(s1: nat, s2: nat)
    requires s1 != s2
    ensures FailureMessage(HttpError(s1)) != FailureMessage(HttpError(s2))
  {
    HttpStatusInMessage(s1);
    HttpStatusInMessage(s2);
  }

  /** The request lifecycle as the form shows it. */
  datatype RequestState = Idle | InFlight | Succeeded(result: PredictionResult) | Failed(message: string)

  /**
   * The component's state: the five state cells, plus a ghost log of the
   * bodies of the requests it has sent.
   */
  class Controller {
    var formData: FormData
    var errors: FormErrors
    var isLoading: bool
    var result: Option<PredictionResult>
    var apiError: string
    ghost var requests: seq<FormData>

    /** At most one of loading, a result and an error message shows at a time. */
    ghost predicate Valid()
      reads this
    {
      (isLoading ==> result == None && apiError == "") &&
      !(result.Some? && apiError != "")
    }

    function State(): RequestState
      reads this
      requires Valid()
    {
      if isLoading then InFlight
      else if result.Some? then Succeeded(result.value)
      else if apiError != "" then Failed(apiError)
      else Idle
    }

    /** The submit button is enabled exactly while no request is in flight. */
    predicate SubmitEnabled()
      reads this
    {
      !isLoading
    }

    constructor ()
      ensures Valid() && State() == Idle
      ensures formData == InitialFormData && errors == map[]
      ensures !isLoading && result == None && apiError == ""
      ensures requests == []
    {
      formData := InitialFormData;
      errors := map[];
      isLoading := false;
      result := None;
      apiError := "";
      requests := [];
    }

    /** Replaces the stored errors wholesale with those of the current record. */
    method ValidateForm() returns (ok: bool)
      modifies this`errors
      ensures errors == Validate(formData)
      ensures ok <==> AllValid(formData)
      ensures ok <==> errors == map[]
    {
      errors := Validate(formData);
      ok := |errors| == 0;
      ValidateEmptyIffAllValid(formData);
    }

    /**
     * A change event from the control bound to `name`: the new value is
     * stored (a number control stores the parsed number, or 0), and a
     * non-empty error on that field is blanked, not removed.
     */
    method HandleInputChange(name: Field, value: string, parse: string -> Option<real>)
      requires InputKindOf(name) == SelectInput ==> ParseSeedType(value).Some?
      modifies this`formData, this`errors
      ensures InputKindOf(name) == NumberInput ==>
        Get(formData, name) == Number(if parse(value).Some? then parse(value).value else 0.0)
      ensures InputKindOf(name) == DateInput ==> Get(formData, name) == Text(value)
      ensures InputKindOf(name) == SelectInput ==>
        Get(formData, name).Choice? && SeedName(Get(formData, name).seed) == value
      ensures forall f :: f != name ==> Get(formData, f) == Get(old(formData), f)
      ensures HasError(old(errors), name) ==> errors == old(errors)[name := ""]
      ensures !HasError(old(errors), name) ==> errors == old(errors)
      ensures errors.Keys == old(errors).Keys
      ensures isLoading == old(isLoading) && result == old(result) && apiError == old(apiError)
    {
      var n := Coerce(parse(value));
      match name {
        case SowingDate => formData := formData.(sowingDate := value);
        case NitrogenApplied => formData := formData.(nitrogenApplied := n);
        case PhosphorusApplied => formData := formData.(phosphorusApplied := n);
        case SoilPh => formData := formData.(soilPh := n);
        case AverageTemperature => formData := formData.(averageTemperature := n);
        case AverageRainfall => formData := formData.(averageRainfall := n);
        case AverageHumidity => formData := formData.(averageHumidity := n);
        case PlantDensity => formData := formData.(plantDensity := n);
        case SeedType => formData := formData.(seedType := ParseSeedType(value).value);
      }
      if name in errors && errors[name] != "" {
        errors := errors[name := ""];
      }
    }

    /**
     * The part of a submit before the request resolves: validation, then,
     * only if it passes, loading on, result and message cleared, and one
     * request sent with the current record as its body.
     */
    method BeginSubmit() returns (sent: bool)
      requires Valid() && SubmitEnabled()
      modifies this`errors, this`isLoading, this`result, this`apiError, this`requests
      ensures Valid()
      ensures errors == Validate(formData)
      ensures sent <==> errors == map[]
      ensures !sent ==>
        !isLoading && result == old(result) && apiError == old(apiError) && requests == old(requests)
      ensures sent ==> isLoading && result == None && apiError == "" && State() == InFlight
      ensures sent ==> requests == old(requests) + [formData]
      ensures !sent ==> State() == old(State())
    {
      var ok := ValidateForm();
      if !ok {
        return false;
      }
      isLoading := true;
      apiError := "";
      result := None;
      requests := requests + [formData];
      sent := true;
    }

    /**
     * The part of a submit after the request resolves: the yield is stored,
     * or the failure message recorded, and loading always ends.
     */
    method CompleteRequest(outcome: FetchOutcome)
      requires Valid() && isLoading
      modifies this`isLoading, this`result, this`apiError
      ensures Valid() && !isLoading
      ensures outcome.Ok? ==> result == Some(PredictionResult(outcome.predictedYield)) && apiError == ""
      ensures !outcome.Ok? ==> result == None && apiError == FailureMessage(outcome)
      ensures State() == if outcome.Ok? then Succeeded(PredictionResult(outcome.predictedYield))
                         else Failed(FailureMessage(outcome))
    {
      var caught: Option<Thrown> := None;
      match outcome {
        case Ok(y) =>
          result := Some(PredictionResult(y));
        case HttpError(status) =>
          caught := Some(ErrorObject(HttpErrorPrefix + Decimal.NatToString(status)));
        case Rejected(t) =>
          caught := Some(t);
      }
      if caught.Some? {
        apiError := CatchMessage(caught.value);
      }
      isLoading := false;
    }

    /** A whole submit: `BeginSubmit`, then, if a request went out, `CompleteRequest`. */
    method HandleSubmit(outcome: FetchOutcome) returns (sent: bool)
      requires Valid() && SubmitEnabled()
      modifies this`errors, this`isLoading, this`result, this`apiError, this`requests
      ensures Valid() && !isLoading
      ensures formData == old(formData)
      ensures errors == Validate(formData)
      ensures sent <==> AllValid(formData)
      ensures !sent ==> result == old(result) && apiError == old(apiError) && requests == old(requests)
      ensures sent ==> requests == old(requests) + [formData]
      ensures sent && outcome.Ok? ==>
        result == Some(PredictionResult(outcome.predictedYield)) && apiError == ""
      ensures sent && !outcome.Ok? ==> result == None && apiError == FailureMessage(outcome)
      ensures !sent ==> State() == old(State())
      ensures sent ==> State() == if outcome.Ok? then Succeeded(PredictionResult(outcome.predictedYield))
                                  else Failed(FailureMessage(outcome))
    {
      sent := BeginSubmit();
      ValidateEmptyIffAllValid(formData);
      if sent {
        CompleteRequest(outcome);
      }
    }
  }
}
