/** The merchant's dashboard: it loads the stored document, keeps three working
    lists beside the loaded baseline, edits them (weekday toggles, added dates and
    ranges, a two-step delete) and builds the document a save sends. */
module AdminDashboard {
  import opened BlockedData

  /** The loader: the stored document when the metafield has a value, the
      all-empty document when it has none. A value that does not parse is not
      caught, so the load fails. */
  function Loader(value: MetafieldValue): (r: Result<Doc>)
    ensures r.Err? <==> value.Malformed?
    ensures value.NoValue? ==> r == Ok(EmptyDoc)
    ensures value.Parsed? ==> r == Ok(value.doc)
  {
    match value
    case NoValue => Ok(EmptyDoc)
    case Malformed => Err(ParseError)
    case Parsed(doc) => Ok(doc)
  }

  /** One row of the weekday table the dashboard renders. */
  datatype DayOption = DayOption(caption: string, value: int)

  const DaysOfWeek: seq<DayOption> := [
    DayOption("Sunday", 0), DayOption("Monday", 1), DayOption("Tuesday", 2),
    DayOption("Wednesday", 3), DayOption("Thursday", 4), DayOption("Friday", 5),
    DayOption("Saturday", 6)]

  /** The `filter(d => d !== day)` of a weekday toggle: every occurrence of `day`
      goes, every other element stays, each as often as before. */
  function RemoveAll(days: seq<int>, day: int): (r: seq<int>)
    ensures multiset(r) == multiset(days)[day := 0]
    ensures |r| == |days| - multiset(days)[day]
    ensures forall x :: x in r <==> x in days && x != day
  {
    if days == [] then []
    else
      assert days == [days[0]] + days[1..];
      var rest := RemoveAll(days[1..], day);
      if days[0] == day then rest else [days[0]] + rest
  }

  /** Filtering distributes over concatenation, so the kept elements keep their
      relative order. */
  lemma {:induction false} RemoveAllAppend(a: seq<int>, b: seq<int>, day: int)
    ensures RemoveAll(a + b, day) == RemoveAll(a, day) + RemoveAll(b, day)
  {
    if a == [] {
      assert a + b == b;
    } else {
      assert (a + b)[0] == a[0];
      assert (a + b)[1..] == a[1..] + b;
      RemoveAllAppend(a[1..], b, day);
    }
  }

  /** Filtering out a value that does not occur gives back the same list. */
  lemma {:induction false} RemoveAllAbsent(days: seq<int>, day: int)
    requires day !in days
    ensures RemoveAll(days, day) == days
  {
    if days != [] {
      assert days[0] != day;
      assert day !in days[1..];
      RemoveAllAbsent(days[1..], day);
      assert days == [days[0]] + days[1..];
    }
  }

  /** The new weekday list after a toggle: a present day is removed entirely,
      an absent day is appended at the end. */
  function Toggled(days: seq<int>, day: int): (r: seq<int>)
    ensures day in r <==> day !in days
    ensures forall x :: x != day ==> (x in r <==> x in days)
    ensures day in days ==> |r| < |days| && multiset(r) == multiset(days)[day := 0]
    ensures day !in days ==> r == days + [day]
  {
    if day in days then RemoveAll(days, day) else days + [day]
  }

  /** Toggling an absent weekday twice restores the list exactly. */
  lemma {:induction false} ToggleTwiceRestores(days: seq<int>, day: int)
    requires day !in days
    ensures Toggled(Toggled(days, day), day) == days
  {
    assert Toggled(days, day) == days + [day];
    RemoveAllAppend(days, [day], day);
    RemoveAllAbsent(days, day);
    assert RemoveAll([day], day) == [];
    assert days + [] == days;
  }

  /** `JSON.stringify(working) === JSON.stringify(baseline)`. An absent baseline
      field serialises to `undefined`, which never equals the text of a list. */
  function AreArraysEqual<T(==)>(working: seq<T>, baseline: Option<seq<T>>): (r: bool)
    ensures r <==> baseline.Some? && |working| == |baseline.value|
                   && forall i :: 0 <= i < |working| ==> working[i] == baseline.value[i]
  {
    match baseline
    case None => false
    case Some(b) =>
      assert |working| == |b| && (forall i :: 0 <= i < |working| ==> working[i] == b[i]) ==> working == b;
      working == b
  }

  /** `splice(start, 1)` outcome: the element at `start` is gone when `start` is an
      index of the list, and nothing changes otherwise. */
  ghost predicate RemovedAt<T>(before: seq<T>, after: seq<T>, start: nat)
  {
    if start < |before| then after == before[..start] + before[start + 1..]
    else after == before
  }

  /** Copies the list into a fresh array (`[...list]`) and splices one element
      out of it in place: the tail shifts left by one, the last slot is dropped. */
  method SpliceOne<T>(list: seq<T>, start: nat) returns (r: seq<T>)
    ensures RemovedAt(list, r, start)
    ensures start < |list| ==> |r| == |list| - 1
  {
    var a := new T[|list|](i requires 0 <= i < |list| => list[i]);
    if start >= a.Length {
      return a[..];
    }
    var k := start;
    while k + 1 < a.Length
      invariant start <= k < a.Length
      invariant forall j :: 0 <= j < start ==> a[j] == list[j]
      invariant forall j :: start <= j < k ==> a[j] == list[j + 1]
      invariant forall j :: k < j < a.Length ==> a[j] == list[j]
    {
      a[k] := a[k + 1];
      k := k + 1;
    }
    r := a[..a.Length - 1];
    assert forall j :: 0 <= j < |r| ==> r[j] == (list[..start] + list[start + 1..])[j];
  }

  datatype TargetKind = DateTarget | RangeTarget

  /** What the delete modal will remove: a position in the date or range list. */
  datatype DeleteTarget = DeleteTarget(kind: TargetKind, index: nat)

  /** The dashboard's component state. The baseline is the document the loader
      last returned; the handlers never reassign it, only a re-run of the loader
      does. */
  class Dashboard {
    var blockedDays: seq<int>
    var blockedDates: seq<string>
    var blockedRanges: seq<Range>
    var originalData: Doc
    var deleteModalOpen: bool
    var deleteTarget: Option<DeleteTarget>

    /** Initial state from the loaded document: absent lists start empty. Right
        after loading there are changes exactly when a list is absent from the
        document, because an absent baseline never compares equal. */
    constructor (data: Doc)
      ensures originalData == data
      ensures blockedDays == OrEmpty(data.blockedWeekdays)
      ensures blockedDates == OrEmpty(data.blockedDates)
      ensures blockedRanges == OrEmpty(data.blockedRanges)
      ensures deleteTarget == None && !deleteModalOpen
      ensures HasChanges() <==>
                data.blockedWeekdays.None? || data.blockedDates.None? || data.blockedRanges.None?
    {
      blockedDays := OrEmpty(data.blockedWeekdays);
      blockedDates := OrEmpty(data.blockedDates);
      blockedRanges := OrEmpty(data.blockedRanges);
      originalData := data;
      deleteModalOpen := false;
      deleteTarget := None;
    }

    /** Unsaved changes exist unless each working list equals its baseline list,
        element by element and in the same order; equivalently, unless a save
        would send back exactly the loaded document. */
    function HasChanges(): (r: bool)
      reads this
      ensures !r <==> originalData == Doc(Some(blockedDays), Some(blockedDates), Some(blockedRanges))
    {
      !AreArraysEqual(blockedDays, originalData.blockedWeekdays) ||
      !AreArraysEqual(blockedDates, originalData.blockedDates) ||
      !AreArraysEqual(blockedRanges, originalData.blockedRanges)
    }

    /** The weekday button: removes every occurrence of a blocked day, or
        appends an unblocked one. */
    method ToggleDay(dayValue: int)
      modifies this
      ensures originalData == old(originalData)
      ensures blockedDays == Toggled(old(blockedDays), dayValue)
      ensures blockedDates == old(blockedDates) && blockedRanges == old(blockedRanges)
      ensures deleteTarget == old(deleteTarget) && deleteModalOpen == old(deleteModalOpen)
      ensures old(!HasChanges()) ==> HasChanges()
    {
      blockedDays := Toggled(blockedDays, dayValue);
    }

    /** The add modal's Save action. `formatDate` turns a picker date into its
        `YYYY-MM-DD` text. A date is appended without a duplicate check, a range
        without checking that its start precedes its end. */
    method AddFromModal<D>(isRange: bool, selectedDate: D, rangeStart: D, rangeEnd: D,
                           formatDate: D -> string)
      modifies this
      ensures originalData == old(originalData)
      ensures isRange ==> blockedRanges == old(blockedRanges) + [Range(formatDate(rangeStart), formatDate(rangeEnd))]
                          && blockedDates == old(blockedDates)
      ensures !isRange ==> blockedDates == old(blockedDates) + [formatDate(selectedDate)]
                           && blockedRanges == old(blockedRanges)
      ensures blockedDays == old(blockedDays)
      ensures deleteTarget == old(deleteTarget) && deleteModalOpen == old(deleteModalOpen)
      ensures old(!HasChanges()) ==> HasChanges()
    {
      if isRange {
        blockedRanges := blockedRanges + [Range(formatDate(rangeStart), formatDate(rangeEnd))];
      } else {
        blockedDates := blockedDates + [formatDate(selectedDate)];
      }
    }

    /** A delete icon: records the target and opens the confirmation modal. */
    method HandleDeleteClick(kind: TargetKind, index: nat)
      modifies this
      ensures originalData == old(originalData)
      ensures deleteTarget == Some(DeleteTarget(kind, index)) && deleteModalOpen
      ensures blockedDays == old(blockedDays) && blockedDates == old(blockedDates)
      ensures blockedRanges == old(blockedRanges)
    {
      deleteTarget := Some(DeleteTarget(kind, index));
      deleteModalOpen := true;
    }

    /** "Yes" in the confirmation modal: removes the targeted element from its
        list (an index past the end removes nothing), then closes the modal. The
        target itself is kept. */
    method HandleConfirmDelete()
      modifies this
      ensures originalData == old(originalData)
      ensures !deleteModalOpen && deleteTarget == old(deleteTarget)
      ensures blockedDays == old(blockedDays)
      ensures deleteTarget.None? ==>
                blockedDates == old(blockedDates) && blockedRanges == old(blockedRanges)
      ensures deleteTarget.Some? && deleteTarget.value.kind == DateTarget ==>
                RemovedAt(old(blockedDates), blockedDates, deleteTarget.value.index)
                && blockedRanges == old(blockedRanges)
      ensures deleteTarget.Some? && deleteTarget.value.kind == RangeTarget ==>
                RemovedAt(old(blockedRanges), blockedRanges, deleteTarget.value.index)
                && blockedDates == old(blockedDates)
    {
      if deleteTarget.Some? {
        var target := deleteTarget.value;
        if target.kind == DateTarget {
          var updatedDates := SpliceOne(blockedDates, target.index);
          blockedDates := updatedDates;
        } else {
          var updatedRanges := SpliceOne(blockedRanges, target.index);
          blockedRanges := updatedRanges;
        }
      }
      deleteModalOpen := false;
    }

    /** "No" in the confirmation modal: only closes it. */
    method HandleCancelDelete()
      modifies this
      ensures originalData == old(originalData)
      ensures !deleteModalOpen && deleteTarget == old(deleteTarget)
      ensures blockedDays == old(blockedDays) && blockedDates == old(blockedDates)
      ensures blockedRanges == old(blockedRanges)
    {
      deleteModalOpen := false;
    }

    /** The save payload: the three current working lists, all present. The
        handler itself changes no state; in particular it does not reset the
        baseline, so the payload differs from it exactly when there are changes. */
    method HandleSave() returns (payload: Doc)
      ensures payload.blockedWeekdays == Some(blockedDays)
      ensures payload.blockedDates == Some(blockedDates)
      ensures payload.blockedRanges == Some(blockedRanges)
      ensures payload != originalData <==> HasChanges()
    {
      payload := Doc(Some(blockedDays), Some(blockedDates), Some(blockedRanges));
    }

    /** The re-render after the route loader runs again, as it does after a
        successful submission: `originalData` becomes the freshly loaded
        document, while `useState` keeps the working lists and the delete state.
        Reloading the document that was just saved leaves no changes. */
    method Revalidate(data: Doc)
      modifies this
      ensures originalData == data
      ensures blockedDays == old(blockedDays) && blockedDates == old(blockedDates)
      ensures blockedRanges == old(blockedRanges)
      ensures deleteTarget == old(deleteTarget) && deleteModalOpen == old(deleteModalOpen)
      ensures HasChanges() <==> data != Doc(Some(blockedDays), Some(blockedDates), Some(blockedRanges))
    {
      originalData := data;
    }
  }

  /** Deleting the second of three dates after confirming leaves the first and
      the third; cancelling instead leaves all three. */
  method ConfirmAndCancelExample()
  {
    var dates := ["2024-01-01", "2024-01-02", "2024-01-03"];
    var d := new Dashboard(Doc(Some([]), Some(dates), Some([])));
    d.HandleDeleteClick(DateTarget, 1);
    d.HandleCancelDelete();
    assert d.blockedDates == dates;
    d.HandleDeleteClick(DateTarget, 1);
    d.HandleConfirmDelete();
    assert d.blockedDates == ["2024-01-01", "2024-01-03"];
  }

  /** A toggle makes the page dirty and saving alone does not clean it; once the
      loader has re-read the saved document, there are no changes left. */
  method SaveThenRevalidateExample()
  {
    var d := new Dashboard(EmptyDoc);
    assert !d.HasChanges();
    d.ToggleDay(1);
    assert d.HasChanges();
    var payload := d.HandleSave();
    assert d.HasChanges();
    var reloaded := Loader(Parsed(payload));
    d.Revalidate(reloaded.value);
    assert !d.HasChanges();
  }
}
