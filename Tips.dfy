/** The restaurant-tips dataset: one record per bill, with four categorical fields.
    The enumerations are declared in the categorical order the dataset gives them,
    which is the order in which grouped results come out. */
module Tips {

  datatype Sex = Male | Female
  datatype Smoker = Yes | No
  datatype Day = Thur | Fri | Sat | Sun
  datatype Time = Lunch | Dinner

  /** One observed bill. Amounts are exact reals; the party size is a count. */
  datatype Record = Record(
    totalBill: real,
    tip: real,
    sex: Sex,
    smoker: Smoker,
    day: Day,
    time: Time,
    size: nat)

  /** The four categorical columns a user can filter on. */
  datatype Field = SexField | SmokerField | DayField | TimeField

  function SexLabel(s: Sex): string {
    match s
    case Male => "Male"
    case Female => "Female"
  }

  function SmokerLabel(s: Smoker): string {
    match s
    case Yes => "Yes"
    case No => "No"
  }

  function DayLabel(d: Day): string {
    match d
    case Thur => "Thur"
    case Fri => "Fri"
    case Sat => "Sat"
    case Sun => "Sun"
  }

  function TimeLabel(t: Time): string {
    match t
    case Lunch => "Lunch"
    case Dinner => "Dinner"
  }

  /** The text a record shows in column `f`, as the data frame holds it. */
  function Label(r: Record, f: Field): string {
    match f
    case SexField => SexLabel(r.sex)
    case SmokerField => SmokerLabel(r.smoker)
    case DayField => DayLabel(r.day)
    case TimeField => TimeLabel(r.time)
  }

  /** Position of a value in its categorical order. */
  function SmokerIndex(s: Smoker): nat {
    match s
    case Yes => 0
    case No => 1
  }

  function DayIndex(d: Day): nat {
    match d
    case Thur => 0
    case Fri => 1
    case Sat => 2
    case Sun => 3
  }

  function TimeIndex(t: Time): nat {
    match t
    case Lunch => 0
    case Dinner => 1
  }

  function DayAt(i: nat): (d: Day)
    requires i < 4
    ensures DayIndex(d) == i
  {
    if i == 0 then Thur else if i == 1 then Fri else if i == 2 then Sat else Sun
  }

  function TimeAt(i: nat): (t: Time)
    requires i < 2
    ensures TimeIndex(t) == i
  {
    if i == 0 then Lunch else Dinner
  }

  /** The rank of a (day, time) pair in the lexicographic order of the two
      categorical orders: Thur/Lunch is 0, Sun/Dinner is 7. */
  function Slot(d: Day, t: Time): (k: nat)
    ensures k < 8
    ensures DayAt(k / 2) == d && TimeAt(k % 2) == t
  {
    2 * DayIndex(d) + TimeIndex(t)
  }

  /** Slot order is exactly the (day, time) lexicographic order. */
  lemma SlotIsLexicographic(d1: Day, t1: Time, d2: Day, t2: Time)
    ensures Slot(d1, t1) < Slot(d2, t2) <==>
      DayIndex(d1) < DayIndex(d2) || (d1 == d2 && TimeIndex(t1) < TimeIndex(t2))
  {
  }
}
