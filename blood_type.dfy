/**
 * The `HKBloodTypeString` enum: the platform's blood-type code (0 to 8)
 * and its display name. `FromRawValue` is Swift's failable
 * `init(rawValue:)`; `Label` is `HKBloodTypeString(rawValue: code)?.name`.
 */
module BloodTypeString {
  import opened Wrappers

  datatype BloodType =
    | NotSet
    | APositive
    | ANegative
    | BPositive
    | BNegative
    | ABPositive
    | ABNegative
    | OPositive
    | ONegative

  /** The text of the enum's `default` arm, which no case reaches. */
  const NotAvailable := "Not Available"

  /** Display names, indexed by code. */
  const Names: seq<string> :=
    ["Not Set", "A +ve", "A -ve", "B +ve", "B -ve", "AB +ve", "AB -ve", "O +ve", "O -ve"]

  function RawValue(b: BloodType): (code: int)
    ensures 0 <= code < |Names|
  {
    match b
    case NotSet => 0
    case APositive => 1
    case ANegative => 2
    case BPositive => 3
    case BNegative => 4
    case ABPositive => 5
    case ABNegative => 6
    case OPositive => 7
    case ONegative => 8
  }

  /** `init(rawValue:)`: a case exactly for the codes 0 to 8, and then the one with that code. */
  function FromRawValue(code: int): (r: Option<BloodType>)
    ensures r.Some? <==> 0 <= code < |Names|
    ensures r.Some? ==> RawValue(r.value) == code
  {
    if code == 0 then Some(NotSet)
    else if code == 1 then Some(APositive)
    else if code == 2 then Some(ANegative)
    else if code == 3 then Some(BPositive)
    else if code == 4 then Some(BNegative)
    else if code == 5 then Some(ABPositive)
    else if code == 6 then Some(ABNegative)
    else if code == 7 then Some(OPositive)
    else if code == 8 then Some(ONegative)
    else None
  }

  /** The enum's `name`; every case has its own arm, so the `default` text never appears. */
  function Name(b: BloodType): (s: string)
    ensures s == Names[RawValue(b)]
    ensures s != NotAvailable
  {
    match b
    case NotSet => "Not Set"
    case APositive => "A +ve"
    case ANegative => "A -ve"
    case BPositive => "B +ve"
    case BNegative => "B -ve"
    case ABPositive => "AB +ve"
    case ABNegative => "AB -ve"
    case OPositive => "O +ve"
    case ONegative => "O -ve"
  }

  /** `HKBloodTypeString(rawValue: code)?.name`. */
  function Label(code: int): (text: Option<string>)
    ensures text.Some? <==> 0 <= code < |Names|
    ensures text.Some? ==> text.value == Names[code]
  {
    match FromRawValue(code)
    case Some(b) => Some(Name(b))
    case None => None
  }

  /** Every case survives the trip through its code. */
  lemma RawValueRoundTrip(b: BloodType)
    ensures FromRawValue(RawValue(b)) == Some(b)
  {
  }

  /** The nine names are pairwise distinct, so a name identifies its blood type. */
  lemma NamesDistinct()
    ensures forall i, j :: 0 <= i < j < |Names| ==> Names[i] != Names[j]
  {
  }

  lemma NameInjective(a: BloodType, b: BloodType)
    ensures Name(a) == Name(b) ==> a == b
  {
  }

  /** No code, known or not, yields the `default` arm's text: unknown codes give nil instead. */
  lemma LabelNeverNotAvailable(code: int)
    ensures Label(code) != Some(NotAvailable)
  {
  }
}
