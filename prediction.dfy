/** The record types shared by the form and the results card. */
module Prediction {
  import opened Wrappers

  /** The three options the seed-type select offers. */
  datatype SeedType = Hybrid | Local | Improved

  /** The text of a seed type, as it is sent to the endpoint and shown on the card. */
  function SeedName(t: SeedType): string {
    match t
    case Hybrid => "Hybrid"
    case Local => "Local"
    case Improved => "Improved"
  }

  /** Reads the option a seed-type select emits back as a seed type. */
  function ParseSeedType(s: string): (r: Option<SeedType>)
    ensures r.Some? <==> exists t :: SeedName(t) == s
    ensures r.Some? ==> SeedName(r.value) == s
  {
    if s == "Hybrid" then assert SeedName(Hybrid) == s; Some(Hybrid)
    else if s == "Local" then assert SeedName(Local) == s; Some(Local)
    else if s == "Improved" then assert SeedName(Improved) == s; Some(Improved)
    else None
  }

  /** The nine agronomic inputs of one prediction request. */
  datatype FormData = FormData(
    sowingDate: string,
    nitrogenApplied: real,
    phosphorusApplied: real,
    soilPh: real,
    averageTemperature: real,
    averageRainfall: real,
    averageHumidity: real,
    plantDensity: real,
    seedType: SeedType)

  /** What a successful response carries. */
  datatype PredictionResult = PredictionResult(predictedYield: real)

  /** The names of the nine fields of a `FormData`. */
  datatype Field =
    | SowingDate
    | NitrogenApplied
    | PhosphorusApplied
    | SoilPh
    | AverageTemperature
    | AverageRainfall
    | AverageHumidity
    | PlantDensity
    | SeedType

  /** Validation messages by field; a field absent from the map is valid. */
  type FormErrors = map<Field, string>

  /** The value a field holds, whatever its type. */
  datatype Value = Number(number: real) | Text(text: string) | Choice(seed: SeedType)

  /** Reads one field of the record by its name. */
  function Get(d: FormData, f: Field): Value {
    match f
    case SowingDate => Text(d.sowingDate)
    case NitrogenApplied => Number(d.nitrogenApplied)
    case PhosphorusApplied => Number(d.phosphorusApplied)
    case SoilPh => Number(d.soilPh)
    case AverageTemperature => Number(d.averageTemperature)
    case AverageRainfall => Number(d.averageRainfall)
    case AverageHumidity => Number(d.averageHumidity)
    case PlantDensity => Number(d.plantDensity)
    case SeedType => Choice(d.seedType)
  }

  /** Two records that agree on every field are the same record. */
  lemma {:induction false} GetDeterminesRecord(d1: FormData, d2: FormData)
    requires forall f :: Get(d1, f) == Get(d2, f)
    ensures d1 == d2
  {
    assert Get(d1, SowingDate) == Get(d2, SowingDate);
    assert Get(d1, NitrogenApplied) == Get(d2, NitrogenApplied);
    assert Get(d1, PhosphorusApplied) == Get(d2, PhosphorusApplied);
    assert Get(d1, SoilPh) == Get(d2, SoilPh);
    assert Get(d1, AverageTemperature) == Get(d2, AverageTemperature);
    assert Get(d1, AverageRainfall) == Get(d2, AverageRainfall);
    assert Get(d1, AverageHumidity) == Get(d2, AverageHumidity);
    assert Get(d1, PlantDensity) == Get(d2, PlantDensity);
    assert Get(d1, Field.SeedType) == Get(d2, Field.SeedType);
  }
}
