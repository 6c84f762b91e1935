/**
 * The demo's one screen. Each `read*` operation takes the health store's
 * answer as an argument (the store itself is not part of this model) and
 * writes only its own label(s): the computed text on success, the
 * placeholder "NA" when the store throws or has no sample, and nil when the
 * store returns a code the display tables do not know.
 */
module Screen {
  import opened Wrappers
  import opened BirthDate
  import Decimal
  import BloodTypeString
  import BiologicalSexString

  /** The text a read shows when the store throws or has no sample. */
  const Placeholder := "NA"

  /** The prefix of the water label. */
  const WaterPrefix := "Water: "

  /** The error a throwing store call raises; its content is never inspected. */
  datatype StoreError = StoreError(description: string)

  /** An element of a sample query's results; the quantity's description is platform-defined text. */
  datatype Sample = QuantitySample(quantity: string) | OtherSample

  /** The `text` of every label on the screen; `None` is a nil text. */
  datatype Labels = Labels(
    age: Option<string>,
    dob: Option<string>,
    sex: Option<string>,
    bloodType: Option<string>,
    height: Option<string>,
    weight: Option<string>,
    water: Option<string>)

  // What each read shows, given the store's answer.

  function AgeDisplay(answer: Result<DateComponents, StoreError>, thisYear: int): Option<string>
    requires answer.Success? ==> HasYearMonthDay(answer.value)
  {
    match answer
    case Success(birth) => Some(AgeText(thisYear, birth))
    case Failure(_) => Some(Placeholder)
  }

  function DobDisplay(answer: Result<DateComponents, StoreError>): Option<string>
    requires answer.Success? ==> HasYearMonthDay(answer.value)
  {
    match answer
    case Success(birth) => Some(DobText(birth))
    case Failure(_) => Some(Placeholder)
  }

  function SexDisplay(answer: Result<int, StoreError>): Option<string> {
    match answer
    case Success(code) => BiologicalSexString.Label(code)
    case Failure(_) => Some(Placeholder)
  }

  function BloodTypeDisplay(answer: Result<int, StoreError>): Option<string> {
    match answer
    case Success(code) => BloodTypeString.Label(code)
    case Failure(_) => Some(Placeholder)
  }

  /**
   * `results?.first as? HKQuantitySample`: the first result's quantity text
   * when there is a first result and it is a quantity sample, the placeholder
   * otherwise (nil results, no results, or a first result of another kind).
   */
  function SampleDisplay(results: Option<seq<Sample>>): (shown: Option<string>)
    ensures shown.Some?
    ensures shown != Some(Placeholder) ==> results.Some? && |results.value| >= 1 && results.value[0] == QuantitySample(shown.value)
    ensures results.Some? && |results.value| >= 1 && results.value[0].QuantitySample? ==> shown == Some(results.value[0].quantity)
  {
    if results.Some? && |results.value| >= 1 && results.value[0].QuantitySample? then
      Some(results.value[0].quantity)
    else
      Some(Placeholder)
  }

  /**
   * The water label after a water query: "Water: " and the formatted total
   * when the query delivered quantity samples, and otherwise the label as it
   * was (this read has no placeholder).
   */
  function WaterDisplay(before: Option<string>, formattedTotal: Option<string>): Option<string> {
    match formattedTotal
    case Some(total) => Some(WaterPrefix + total)
    case None => before
  }

  class ViewController {
    var ageLabel: Option<string>
    var dobLabel: Option<string>
    var sexLabel: Option<string>
    var bloodTypeLabel: Option<string>
    var heightLabel: Option<string>
    var weightLabel: Option<string>
    var waterLabel: Option<string>

    /** What the screen shows. */
    function Shown(): Labels
      reads this
    {
      Labels(ageLabel, dobLabel, sexLabel, bloodTypeLabel, heightLabel, weightLabel, waterLabel)
    }

    /** A screen whose labels hold the texts they were laid out with. */
    constructor (initial: Labels)
      ensures Shown() == initial
    {
      ageLabel := initial.age;
      dobLabel := initial.dob;
      sexLabel := initial.sex;
      bloodTypeLabel := initial.bloodType;
      heightLabel := initial.height;
      weightLabel := initial.weight;
      waterLabel := initial.water;
    }

    /**
     * `readAgeAndDOB`. A missing year, month or day traps at a force-unwrap
     * rather than reaching the `catch`, so callers must not pass one.
     */
    method ReadAgeAndDob(answer: Result<DateComponents, StoreError>, thisYear: int)
      requires answer.Success? ==> HasYearMonthDay(answer.value)
      modifies this
      ensures Shown() == old(Shown()).(age := AgeDisplay(answer, thisYear), dob := DobDisplay(answer))
    {
      match answer {
        case Success(birth) =>
          ageLabel := Some(AgeText(thisYear, birth));
          dobLabel := Some(DobText(birth));
        case Failure(_) =>
          ageLabel := Some(Placeholder);
          dobLabel := Some(Placeholder);
      }
    }

    /** `readSex`. */
    method ReadSex(answer: Result<int, StoreError>)
      modifies this
      ensures Shown() == old(Shown()).(sex := SexDisplay(answer))
    {
      match answer {
        case Success(code) =>
          sexLabel := BiologicalSexString.Label(code);
        case Failure(_) =>
          sexLabel := Some(Placeholder);
      }
    }

    /** `readBloodtype`. */
    method ReadBloodType(answer: Result<int, StoreError>)
      modifies this
      ensures Shown() == old(Shown()).(bloodType := BloodTypeDisplay(answer))
    {
      match answer {
        case Success(code) =>
          bloodTypeLabel := BloodTypeString.Label(code);
        case Failure(_) =>
          bloodTypeLabel := Some(Placeholder);
      }
    }

    /** `readHeight`'s query completion. */
    method ReadHeight(results: Option<seq<Sample>>)
      modifies this
      ensures Shown() == old(Shown()).(height := SampleDisplay(results))
    {
      if results.Some? && |results.value| >= 1 && results.value[0].QuantitySample? {
        heightLabel := Some(results.value[0].quantity);
      } else {
        heightLabel := Some(Placeholder);
      }
    }

    /** `readWeight`'s query completion. */
    method ReadWeight(results: Option<seq<Sample>>)
      modifies this
      ensures Shown() == old(Shown()).(weight := SampleDisplay(results))
    {
      if results.Some? && |results.value| >= 1 && results.value[0].QuantitySample? {
        weightLabel := Some(results.value[0].quantity);
      } else {
        weightLabel := Some(Placeholder);
      }
    }

    /**
     * `readWater`'s query completion. `formattedTotal` is the `%.2f` text of
     * the summed millilitres, or None when the query failed and the guard
     * returned early.
     */
    method ReadWater(formattedTotal: Option<string>)
      modifies this
      ensures Shown() == old(Shown()).(water := WaterDisplay(old(waterLabel), formattedTotal))
    {
      if formattedTotal.Some? {
        waterLabel := Some(WaterPrefix + formattedTotal.value);
      }
    }

    /**
     * `readAllData`: every read, each with its own answer. Each label ends up
     * depending only on its own read's answer.
     */
    method ReadAllData(
      dobAnswer: Result<DateComponents, StoreError>, thisYear: int,
      sexAnswer: Result<int, StoreError>, bloodTypeAnswer: Result<int, StoreError>,
      heightResults: Option<seq<Sample>>, weightResults: Option<seq<Sample>>,
      waterTotal: Option<string>)
      requires dobAnswer.Success? ==> HasYearMonthDay(dobAnswer.value)
      modifies this
      ensures Shown() == Labels(
        AgeDisplay(dobAnswer, thisYear), DobDisplay(dobAnswer),
        SexDisplay(sexAnswer), BloodTypeDisplay(bloodTypeAnswer),
        SampleDisplay(heightResults), SampleDisplay(weightResults),
        WaterDisplay(old(waterLabel), waterTotal))
    {
      ReadAgeAndDob(dobAnswer, thisYear);
      ReadSex(sexAnswer);
      ReadBloodType(bloodTypeAnswer);
      ReadHeight(heightResults);
      ReadWeight(weightResults);
      ReadWater(waterTotal);
    }
  }

  // Properties of the fallback policy.

  /**
   * Age and date of birth: both labels show the placeholder exactly when the
   * store throws, neither is ever nil, and on success they read back as the
   * age in years and the (day, month, year) of birth.
   */
  lemma AgeAndDobFallback(answer: Result<DateComponents, StoreError>, thisYear: int)
    requires answer.Success? ==> HasYearMonthDay(answer.value)
    ensures AgeDisplay(answer, thisYear).Some? && DobDisplay(answer).Some?
    ensures AgeDisplay(answer, thisYear) == Some(Placeholder) <==> answer.Failure?
    ensures DobDisplay(answer) == Some(Placeholder) <==> answer.Failure?
    ensures answer.Success? ==>
      Decimal.ParseInt(AgeDisplay(answer, thisYear).value) == Some(thisYear - answer.value.year.value)
    ensures answer.Success? ==>
      ParseDob(DobDisplay(answer).value) == Some((answer.value.day.value, answer.value.month.value, answer.value.year.value))
  {
    if answer.Success? {
      AgeTextReadsBack(thisYear, answer.value);
      DobTextReadsBack(answer.value);
      assert AgeText(thisYear, answer.value)[0] != Placeholder[0];
      assert DobText(answer.value)[0] != Placeholder[0];
    }
  }

  /**
   * Sex: the placeholder exactly when the store throws, nil exactly when it
   * returns a code outside 0 to 3, and otherwise that code's name.
   */
  lemma SexFallback(answer: Result<int, StoreError>)
    ensures SexDisplay(answer) == Some(Placeholder) <==> answer.Failure?
    ensures SexDisplay(answer) == None <==> answer.Success? && !(0 <= answer.value < 4)
    ensures answer.Success? && 0 <= answer.value < 4 ==>
      SexDisplay(answer) == Some(BiologicalSexString.Names[answer.value])
  {
  }

  /**
   * Blood type: the placeholder exactly when the store throws, nil exactly
   * when it returns a code outside 0 to 8, and otherwise that code's name.
   */
  lemma BloodTypeFallback(answer: Result<int, StoreError>)
    ensures BloodTypeDisplay(answer) == Some(Placeholder) <==> answer.Failure?
    ensures BloodTypeDisplay(answer) == None <==> answer.Success? && !(0 <= answer.value < 9)
    ensures answer.Success? && 0 <= answer.value < 9 ==>
      BloodTypeDisplay(answer) == Some(BloodTypeString.Names[answer.value])
  {
  }

  /** Height and weight show only the first result: later samples never change the label. */
  lemma SampleDisplayUsesFirstOnly(first: Sample, rest1: seq<Sample>, rest2: seq<Sample>)
    ensures SampleDisplay(Some([first] + rest1)) == SampleDisplay(Some([first] + rest2))
  {
  }

  /** Water has no placeholder: a failed query leaves the old label, a delivered total is never "NA". */
  lemma WaterFallback(before: Option<string>, formattedTotal: Option<string>)
    ensures formattedTotal.None? ==> WaterDisplay(before, formattedTotal) == before
    ensures formattedTotal.Some? ==> WaterDisplay(before, formattedTotal) != Some(Placeholder)
  {
  }
}
