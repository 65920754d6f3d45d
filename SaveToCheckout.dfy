/** How the two sides meet: the dashboard writes the document, the extension
    reads it back from the same metafield. */
module SaveToCheckout {
  import opened BlockedData
  import opened AdminDashboard
  import opened CheckoutExtension

  /** Both readers fail on the same values and, where they succeed, the
      extension's lists are the dashboard's initial working lists. */
  lemma ReadersAgree(value: MetafieldValue)
    ensures Loader(value).Err? <==> ReadConfig(value).Err?
    ensures Loader(value).Ok? ==>
              var doc := Loader(value).value;
              ReadConfig(value) == Ok(Config(OrEmpty(doc.blockedDates), OrEmpty(doc.blockedWeekdays),
                                             OrEmpty(doc.blockedRanges)))
  {
  }

  /** A saved payload read back at checkout gives the dashboard's working lists
      unchanged. */
  lemma SavedPayloadReachesCheckout(days: seq<int>, dates: seq<string>, ranges: seq<Range>)
    ensures ReadConfig(Parsed(Doc(Some(days), Some(dates), Some(ranges)))) == Ok(Config(dates, days, ranges))
  {
  }

  /** The weekday the dashboard labels with a name is disabled at checkout under
      that same name. */
  lemma WeekdayCaptionsAgree(i: int)
    requires 0 <= i < |DaysOfWeek|
    ensures DaysOfWeek[i].value == i && 0 <= i <= 6
    ensures DaysOfWeek[i].caption == DayName(i)
  {
  }

  /** Blocking a weekday on the dashboard and saving disables its name at
      checkout. */
  lemma ToggledWeekdayIsDisabled(days: seq<int>, dates: seq<string>, ranges: seq<Range>, day: int)
    requires 0 <= day <= 6 && day !in days
    ensures ReadConfig(Parsed(Doc(Some(Toggled(days, day)), Some(dates), Some(ranges)))).Ok?
    ensures Plain(DayName(day)) in Disabled(ReadConfig(Parsed(Doc(Some(Toggled(days, day)), Some(dates), Some(ranges)))).value)
  {
    var c := Config(dates, days + [day], ranges);
    assert ReadConfig(Parsed(Doc(Some(Toggled(days, day)), Some(dates), Some(ranges)))) == Ok(c);
    DisabledMembership(c, Plain(DayName(day)));
  }
}
