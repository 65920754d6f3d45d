/** The checkout extension: it reads the stored document, fills in absent lists
    with empty ones and hands the date picker one `disabled` list made of the
    blocked dates, the blocked weekdays by name and the blocked ranges, in that
    order. The buyer's pick is kept and written to the order's metafield. */
module CheckoutExtension {
  import opened BlockedData

  /** The three lists the extension works with, none of them absent. */
  datatype Config = Config(blockedDates: seq<string>, blockedWeekdays: seq<int>, blockedRanges: seq<Range>)

  const NothingBlocked := Config([], [], [])

  /** Fills in each absent list with the empty list and keeps each present one. */
  function Normalize(doc: Doc): (c: Config)
    ensures doc.blockedDates.None? ==> c.blockedDates == []
    ensures doc.blockedWeekdays.None? ==> c.blockedWeekdays == []
    ensures doc.blockedRanges.None? ==> c.blockedRanges == []
    ensures doc.blockedDates.Some? ==> c.blockedDates == doc.blockedDates.value
    ensures doc.blockedWeekdays.Some? ==> c.blockedWeekdays == doc.blockedWeekdays.value
    ensures doc.blockedRanges.Some? ==> c.blockedRanges == doc.blockedRanges.value
  {
    Config(OrEmpty(doc.blockedDates), OrEmpty(doc.blockedWeekdays), OrEmpty(doc.blockedRanges))
  }

  /** The lists as the extension sees them: nothing blocked when the metafield has
      no value; the normalised document otherwise. A value that does not parse is
      not caught, so rendering fails. */
  function ReadConfig(value: MetafieldValue): (r: Result<Config>)
    ensures r.Err? <==> value.Malformed?
    ensures value.NoValue? ==> r == Ok(NothingBlocked)
    ensures value.Parsed? ==> r == Ok(Normalize(value.doc))
  {
    match value
    case NoValue => Ok(NothingBlocked)
    case Malformed => Err(ParseError)
    case Parsed(doc) => Ok(Normalize(doc))
  }

  const DaysOfWeekAsString: seq<string> :=
    ["Sunday", "Monday", "Tuesday", "Wednesday", "Thursday", "Friday", "Saturday"]

  /** The name of weekday `w`, counting from Sunday as 0. */
  function DayName(w: int): (name: string)
    requires 0 <= w <= 6
    ensures w == 0 ==> name == "Sunday"
    ensures w == 6 ==> name == "Saturday"
    ensures name in DaysOfWeekAsString
  {
    DaysOfWeekAsString[w]
  }

  /** Distinct weekdays have distinct names. */
  lemma DayNameInjective(a: int, b: int)
    requires 0 <= a <= 6 && 0 <= b <= 6
    requires DayName(a) == DayName(b)
    ensures a == b
  {
  }

  /** An entry of the picker's `disabled` list: a text (a `YYYY-MM-DD` date or a
      weekday name), a start/end range, or the `undefined` that indexing the name
      table outside 0..6 yields. */
  datatype DisabledValue = Plain(text: string) | Span(range: Range) | Undefined

  /** `daysOfWeekAsString[w]` as a `disabled` entry. */
  function WeekdayValue(w: int): (v: DisabledValue)
    ensures v.Undefined? <==> w < 0 || w > 6
    ensures 0 <= w <= 6 ==> v == Plain(DayName(w))
  {
    if 0 <= w < |DaysOfWeekAsString| then Plain(DayName(w)) else Undefined
  }

  /** The picker's `disabled` list: the dates, then the weekday names, then the
      ranges, each group in its own list's order. */
  function Disabled(c: Config): (r: seq<DisabledValue>)
    ensures |r| == |c.blockedDates| + |c.blockedWeekdays| + |c.blockedRanges|
    ensures forall i :: 0 <= i < |c.blockedDates| ==> r[i] == Plain(c.blockedDates[i])
    ensures forall i :: 0 <= i < |c.blockedWeekdays| ==>
              r[|c.blockedDates| + i] == WeekdayValue(c.blockedWeekdays[i])
    ensures forall i :: 0 <= i < |c.blockedRanges| ==>
              r[|c.blockedDates| + |c.blockedWeekdays| + i] == Span(c.blockedRanges[i])
  {
    var dates := c.blockedDates;
    var days := c.blockedWeekdays;
    var ranges := c.blockedRanges;
    seq(|dates|, i requires 0 <= i < |dates| => Plain(dates[i]))
    + seq(|days|, i requires 0 <= i < |days| => WeekdayValue(days[i]))
    + seq(|ranges|, i requires 0 <= i < |ranges| => Span(ranges[i]))
  }

  /** Where a `disabled` entry may come from: a blocked date, the name of a
      blocked weekday, a blocked range, or an out-of-table weekday. */
  ghost predicate FromConfig(c: Config, v: DisabledValue)
  {
    match v
    case Plain(t) =>
      t in c.blockedDates || exists w :: w in c.blockedWeekdays && 0 <= w <= 6 && DayName(w) == t
    case Span(rg) => rg in c.blockedRanges
    case Undefined => exists w :: w in c.blockedWeekdays && (w < 0 || w > 6)
  }

  /** Every entry of `disabled` comes from the configuration. */
  lemma DisabledOnlyFromConfig(c: Config, v: DisabledValue)
    requires v in Disabled(c)
    ensures FromConfig(c, v)
  {
    var r := Disabled(c);
    var nd, nw := |c.blockedDates|, |c.blockedWeekdays|;
    var k :| 0 <= k < |r| && r[k] == v;
    if k < nd {
      assert c.blockedDates[k] in c.blockedDates;
    } else if k < nd + nw {
      assert c.blockedWeekdays[k - nd] in c.blockedWeekdays;
    } else {
      assert c.blockedRanges[k - nd - nw] in c.blockedRanges;
    }
  }

  /** A blocked date is in `disabled`. */
  lemma DateIsDisabled(c: Config, t: string)
    requires t in c.blockedDates
    ensures Plain(t) in Disabled(c)
  {
    var i :| 0 <= i < |c.blockedDates| && c.blockedDates[i] == t;
    assert Disabled(c)[i] == Plain(t);
  }

  /** The value of a blocked weekday is in `disabled`. */
  lemma WeekdayIsDisabled(c: Config, w: int)
    requires w in c.blockedWeekdays
    ensures WeekdayValue(w) in Disabled(c)
  {
    var i :| 0 <= i < |c.blockedWeekdays| && c.blockedWeekdays[i] == w;
    assert Disabled(c)[|c.blockedDates| + i] == WeekdayValue(w);
  }

  /** A blocked range is in `disabled`. */
  lemma RangeIsDisabled(c: Config, rg: Range)
    requires rg in c.blockedRanges
    ensures Span(rg) in Disabled(c)
  {
    var i :| 0 <= i < |c.blockedRanges| && c.blockedRanges[i] == rg;
    assert Disabled(c)[|c.blockedDates| + |c.blockedWeekdays| + i] == Span(rg);
  }

  /** Every blocked date, every blocked range and the name of every blocked
      weekday is in `disabled`. */
  lemma ConfigIsDisabled(c: Config, v: DisabledValue)
    requires FromConfig(c, v)
    ensures v in Disabled(c)
  {
    match v
    case Plain(t) =>
      if t in c.blockedDates {
        DateIsDisabled(c, t);
      } else {
        var w :| w in c.blockedWeekdays && 0 <= w <= 6 && DayName(w) == t;
        WeekdayIsDisabled(c, w);
      }
    case Span(rg) =>
      RangeIsDisabled(c, rg);
    case Undefined =>
      var w :| w in c.blockedWeekdays && (w < 0 || w > 6);
      WeekdayIsDisabled(c, w);
  }

  /** `disabled` holds exactly the blocked dates, the names of the blocked
      weekdays and the blocked ranges (plus `undefined` for a weekday outside
      the table). */
  lemma DisabledMembership(c: Config, v: DisabledValue)
    ensures v in Disabled(c) <==> FromConfig(c, v)
  {
    if v in Disabled(c) {
      DisabledOnlyFromConfig(c, v);
    }
    if FromConfig(c, v) {
      ConfigIsDisabled(c, v);
    }
  }

  /** With no stored value nothing is disabled. */
  lemma NoValueDisablesNothing()
    ensures ReadConfig(NoValue).Ok? && Disabled(ReadConfig(NoValue).value) == []
  {
  }

  /** The write handed to the platform when the buyer picks a date. */
  datatype MetafieldChange = UpdateMetafield(namespace: string, key: string, valueType: string, value: string)

  /** The extension's component state: the date the buyer picked, if any. */
  class CheckoutWidget {
    var selectedDate: Option<string>

    constructor ()
      ensures selectedDate == None
    {
      selectedDate := None;
    }

    /** The picker's change handler: keeps the picked date and writes that same
        date to the order metafield `delivery` / `selected_date`. */
    method HandleDateChange(date: string) returns (change: MetafieldChange)
      modifies this
      ensures selectedDate == Some(date)
      ensures change == UpdateMetafield("delivery", "selected_date", "string", date)
    {
      selectedDate := Some(date);
      change := UpdateMetafield("delivery", "selected_date", "string", date);
    }
  }
}
