# HealthKit demo screen, modelled in Dafny

The HealthKit demo is a one-screen iOS app. It reads age, date of birth, biological sex, blood type, height, body mass and water intake from the platform health store and shows each in its own label. This project models what the screen controller computes and shows. The store calls are not modelled: each read takes the store's answer as an argument.

- `Wrappers` (`wrappers.dfy`): `Option` (Swift's `T?`) and `Result` (a `try` call's value or thrown error).
- `Decimal` (`decimal.dfy`): how Swift writes an `Int` with `String(_:)` and string interpolation, plus a reader that the rendering round-trips with.
- `BloodTypeString` (`blood_type.dfy`) and `BiologicalSexString` (`biological_sex.dfy`): the two enums that map platform codes to display names. Each has a failable `FromRawValue` (`init(rawValue:)`), a total `Name`, and `Label`, which is `Enum(rawValue: code)?.name`.
- `BirthDate` (`birth_date.dfy`): the optional year/month/day components, the age text `thisYear - year`, the `day-month-year` date-of-birth text, and a reader for that text.
- `Screen` (`view_controller.dfy`): what each read displays, and the class `ViewController`. Its label texts are `Option<string>` fields, and each `Read*` method updates only its own label(s).

Fallback policy, as the code has it:
- A thrown store error shows "NA".
- A missing or non-quantity first sample shows "NA".
- A sex or blood-type code the enum does not know shows nil. It does not show "Not Available": `init(rawValue:)` fails, so the `default` arm of `name` is never reached.
- A failed water query leaves the water label as it was.

## Model

| member | source | states |
|---|---|---|
| `Decimal.NatToDecimal` | HealkitDemo/ViewController.swift:216 | the rendering of a natural number is one or more digits, a single digit exactly below ten, and never starts with a zero unless the number is zero (unpadded) |
| `Decimal.IntToDecimal` | HealkitDemo/ViewController.swift:216-217 | an `Int` renders with a leading minus sign exactly when it is negative, followed by the digits of its magnitude |
| `Decimal.NatToDecimalReadsBack` | HealkitDemo/ViewController.swift:216 | reading back the digits of a natural number gives that number |
| `Decimal.IntToDecimalReadsBack` | HealkitDemo/ViewController.swift:216-217 | reading back the rendering of any integer gives that integer |
| `Decimal.IntToDecimalInjective` | HealkitDemo/ViewController.swift:216-217 | distinct integers render as distinct texts |
| `BloodTypeString.RawValue` | HealkitDemo/ViewController.swift:38-57 | every blood-type case has a code in 0..8 |
| `BloodTypeString.FromRawValue` | HealkitDemo/ViewController.swift:38-57 | `init(rawValue:)` yields a case exactly for codes 0..8, and that case has the given code |
| `BloodTypeString.RawValueRoundTrip` | HealkitDemo/ViewController.swift:38-57 | every case comes back from its own code |
| `BloodTypeString.Name` | HealkitDemo/ViewController.swift:59-82 | each case's name is the table entry for its code: "Not Set", "A +ve", "A -ve", "B +ve", "B -ve", "AB +ve", "AB -ve", "O +ve", "O -ve"; the `default` text "Not Available" is never returned |
| `BloodTypeString.NamesDistinct` | HealkitDemo/ViewController.swift:59-78 | the nine names are pairwise distinct |
| `BloodTypeString.NameInjective` | HealkitDemo/ViewController.swift:59-78 | two blood types with the same name are the same blood type |
| `BloodTypeString.Label` | HealkitDemo/ViewController.swift:241 | `HKBloodTypeString(rawValue:)?.name` is non-nil exactly for codes 0..8, and is then the name listed for that code |
| `BloodTypeString.LabelNeverNotAvailable` | HealkitDemo/ViewController.swift:79-80 | no code yields "Not Available": the `default` arm is unreachable |
| `BiologicalSexString.RawValue` | HealkitDemo/ViewController.swift:85-95 | every sex case has a code in 0..3 |
| `BiologicalSexString.FromRawValue` | HealkitDemo/ViewController.swift:85-95 | `init(rawValue:)` yields a case exactly for codes 0..3, and that case has the given code |
| `BiologicalSexString.RawValueRoundTrip` | HealkitDemo/ViewController.swift:85-95 | every case comes back from its own code |
| `BiologicalSexString.Name` | HealkitDemo/ViewController.swift:97-110 | each case's name is the table entry for its code: "Not Set", "Female", "Male", "Other"; "Not Available" is never returned |
| `BiologicalSexString.NamesDistinct` | HealkitDemo/ViewController.swift:97-106 | the four names are pairwise distinct |
| `BiologicalSexString.NameInjective` | HealkitDemo/ViewController.swift:97-106 | two sexes with the same name are the same case |
| `BiologicalSexString.Label` | HealkitDemo/ViewController.swift:230 | `HKBiologicalSexString(rawValue:)?.name` is non-nil exactly for codes 0..3, and is then the name listed for that code |
| `BiologicalSexString.LabelNeverNotAvailable` | HealkitDemo/ViewController.swift:107-108 | no code yields "Not Available": the `default` arm is unreachable |
| `BirthDate.AgeText` | HealkitDemo/ViewController.swift:214-216 | the age text is non-empty and starts with a digit or a minus sign; it needs only the birth year |
| `BirthDate.AgeTextReadsBack` | HealkitDemo/ViewController.swift:214-216 | the age text reads back as current year minus birth year |
| `BirthDate.AgeIgnoresMonthAndDay` | HealkitDemo/ViewController.swift:214-216 | two birth dates with the same year give the same age text, whatever their month and day |
| `BirthDate.AgeNotClamped` | HealkitDemo/ViewController.swift:216 | a birth year after the current year gives a negative age, not zero |
| `BirthDate.DobText` | HealkitDemo/ViewController.swift:217 | the date-of-birth text needs all three components and starts with a digit or a minus sign |
| `BirthDate.DobTextReadsBack` | HealkitDemo/ViewController.swift:217 | the text is day, '-', month, '-', year in that order and reads back as exactly those three integers, whatever their signs |
| `BirthDate.DobTextInjective` | HealkitDemo/ViewController.swift:217 | distinct dates of birth give distinct texts |
| `Screen.AgeDisplay` | HealkitDemo/ViewController.swift:216-223 | the age label for the store's answer: the age text on success, "NA" on a throw; its properties are proved in `Screen.AgeAndDobFallback` |
| `Screen.DobDisplay` | HealkitDemo/ViewController.swift:217-223 | the date-of-birth label for the store's answer: the `day-month-year` text on success, "NA" on a throw; its properties are proved in `Screen.AgeAndDobFallback` |
| `Screen.SexDisplay` | HealkitDemo/ViewController.swift:230-233 | the sex label for the store's answer; its properties are proved in `Screen.SexFallback` |
| `Screen.BloodTypeDisplay` | HealkitDemo/ViewController.swift:241-244 | the blood-type label for the store's answer; its properties are proved in `Screen.BloodTypeFallback` |
| `Screen.WaterDisplay` | HealkitDemo/ViewController.swift:310-320 | the water label after a water query; its properties are proved in `Screen.WaterFallback` |
| `Screen.SampleDisplay` | HealkitDemo/ViewController.swift:251-259 | the height/weight label is never nil; it is the first result's quantity text when the first result is a quantity sample, and "NA" otherwise |
| `Screen.SampleDisplayUsesFirstOnly` | HealkitDemo/ViewController.swift:251 | samples after the first never change what is shown |
| `Screen.AgeAndDobFallback` | HealkitDemo/ViewController.swift:205-224 | age and date-of-birth labels both show "NA" exactly when the store throws; they are never nil; on success they read back as the age in years and as (day, month, year) |
| `Screen.SexFallback` | HealkitDemo/ViewController.swift:227-235 | the sex label is "NA" exactly when the store throws, nil exactly for a returned code outside 0..3, and otherwise the name for the code |
| `Screen.BloodTypeFallback` | HealkitDemo/ViewController.swift:238-245 | the blood-type label is "NA" exactly when the store throws, nil exactly for a returned code outside 0..8, and otherwise the name for the code |
| `Screen.WaterFallback` | HealkitDemo/ViewController.swift:310-321 | a failed water query leaves the water label unchanged (no "NA"); a delivered total never shows as "NA" |
| `Screen.ViewController.constructor` | HealkitDemo/ViewController.swift:116-122 | the screen starts with the texts its labels were laid out with |
| `Screen.ViewController.ReadAgeAndDob` | HealkitDemo/ViewController.swift:205-225 | sets the age and date-of-birth labels to their displays; every other label is unchanged; the year, month and day must all be present when the store answers |
| `Screen.ViewController.ReadSex` | HealkitDemo/ViewController.swift:227-236 | sets only the sex label, to the display for the store's answer |
| `Screen.ViewController.ReadBloodType` | HealkitDemo/ViewController.swift:238-246 | sets only the blood-type label, to the display for the store's answer |
| `Screen.ViewController.ReadHeight` | HealkitDemo/ViewController.swift:248-264 | sets only the height label, to the first quantity sample's text or "NA" |
| `Screen.ViewController.ReadWeight` | HealkitDemo/ViewController.swift:266-282 | sets only the weight label, to the first quantity sample's text or "NA" |
| `Screen.ViewController.ReadWater` | HealkitDemo/ViewController.swift:296-324 | sets only the water label to "Water: " and the formatted total, and leaves it as it was when the query fails |
| `Screen.ViewController.ReadAllData` | HealkitDemo/ViewController.swift:195-202 | after all reads, every label holds the display for its own read's answer and nothing else |

## Left out

- The health store: the availability check, type lookups, authorization request, sample-query construction and execution, and saves (HealkitDemo/ViewController.swift:132-192, 263, 281, 323, 327-365). These are calls into a platform library. Each read instead takes the store's answer as an argument.
- The current year comes from `Calendar.current`. It is the parameter `thisYear` (the force-unwrap of the current year is assumed to succeed).
- `DispatchQueue.main.async` and the asynchronous query completions. Each read's label update is modelled as one synchronous step. Only the final labels are stated, not when each completion runs.
- The water total: summing `Double` millilitres and formatting with `%.2f` is floating point. `ReadWater` takes the formatted total as opaque text.
- `"\(result.quantity)"`: the quantity's description is platform-defined and is taken as opaque text (`Sample.QuantitySample.quantity`).
- `readHeartRate`, which only prints, and the `write*` methods and `@IBAction`s, which save fixed values through the store.
- The `Date` extension (`dayBefore`, `dayAfter`, `noon`, `month`, `isLastDayOfMonth`), which depends on the platform calendar.
- The commented-out extension after line 380, which is not compiled.
- `Screen.ViewController.ReadAgeAndDob`: a missing year, month or day traps at a force-unwrap. The model makes their presence a precondition rather than modelling the crash.
- `BirthDate.AgeText`: integers are unbounded. Swift's `Int` is 64-bit, and `thisYear - year!` traps on overflow; that trap is not modelled (it cannot happen for real calendar years).
