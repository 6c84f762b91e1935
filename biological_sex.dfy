/**
 * The `HKBiologicalSexString` enum: the platform's biological-sex code
 * (0 to 3) and its display name. `FromRawValue` is Swift's failable
 * `init(rawValue:)`; `Label` is `HKBiologicalSexString(rawValue: code)?.name`.
 */
module BiologicalSexString {
  import opened Wrappers

  datatype BiologicalSex = NotSet | Female | Male | Other

  /** The text of the enum's `default` arm, which no case reaches. */
  const NotAvailable := "Not Available"

  /** Display names, indexed by code. */
  const Names: seq<string> := ["Not Set", "Female", "Male", "Other"]

  function RawValue(s: BiologicalSex): (code: int)
    ensures 0 <= code < |Names|
  {
    match s
    case NotSet => 0
    case Female => 1
    case Male => 2
    case Other => 3
  }

  /** `init(rawValue:)`: a case exactly for the codes 0 to 3, and then the one with that code. */
  function FromRawValue(code: int): (r: Option<BiologicalSex>)
    ensures r.Some? <==> 0 <= code < |Names|
    ensures r.Some? ==> RawValue(r.value) == code
  {
    if code == 0 then Some(NotSet)
    else if code == 1 then Some(Female)
    else if code == 2 then Some(Male)
    else if code == 3 then Some(Other)
    else None
  }

  /** The enum's `name`; every case has its own arm, so the `default` text never appears. */
  function Name(s: BiologicalSex): (n: string)
    ensures n == Names[RawValue(s)]
    ensures n != NotAvailable
  {
    match s
    case NotSet => "Not Set"
    case Female => "Female"
    case Male => "Male"
    case Other => "Other"
  }

  /** `HKBiologicalSexString(rawValue: code)?.name`. */
  function Label(code: int): (text: Option<string>)
    ensures text.Some? <==> 0 <= code < |Names|
    ensures text.Some? ==> text.value == Names[code]
  {
    match FromRawValue(code)
    case Some(s) => Some(Name(s))
    case None => None
  }

  /** Every case survives the trip through its code. */
  lemma RawValueRoundTrip(s: BiologicalSex)
    ensures FromRawValue(RawValue(s)) == Some(s)
  {
  }

  /** The four names are pairwise distinct, so a name identifies its case. */
  lemma NamesDistinct()
    ensures forall i, j :: 0 <= i < j < |Names| ==> Names[i] != Names[j]
  {
  }

  lemma NameInjective(a: BiologicalSex, b: BiologicalSex)
    ensures Name(a) == Name(b) ==> a == b
  {
  }

  /** No code, known or not, yields the `default` arm's text: unknown codes give nil instead. */
  lemma LabelNeverNotAvailable(code: int)
    ensures Label(code) != Some(NotAvailable)
  {
  }
}
