/** The date filter of the Category and Search pages: the fixed option list and
    the `dateStart` a chosen option contributes to the article request. */
module DateOptions {
  import opened Js

  /** An option of the date dropdown; `value` is a start instant in milliseconds,
      or `null` for "Any date". */
  datatype DateOption = DateOption(labelText: string, value: Option<int>)

  const DayMillis := 24 * 60 * 60 * 1000

  /** The options, computed from the clock reading `now` (milliseconds). */
  function DateOptionsAt(now: int): (opts: seq<DateOption>)
    ensures |opts| == 4
    ensures opts[0].value.None?
    ensures forall i :: 1 <= i < 4 ==> opts[i].value.Some? && opts[i].value.value < now
    ensures opts[0].labelText == "Any date"
    ensures opts[1].labelText == "In the last 24h" && opts[1].value == Some(now - DayMillis)
    ensures opts[2].labelText == "In the last week" && opts[2].value == Some(now - 7 * DayMillis)
    ensures opts[3].labelText == "In the last month" && opts[3].value == Some(now - 30 * DayMillis)
    ensures forall i, j :: 1 <= i < j < 4 ==> opts[j].value.value < opts[i].value.value
  {
    [ DateOption("Any date", None),
      DateOption("In the last 24h", Some(now - DayMillis)),
      DateOption("In the last week", Some(now - 7 * DayMillis)),
      DateOption("In the last month", Some(now - 30 * DayMillis)) ]
  }

  /** `selectedDate?.value` when it is truthy: nothing while no option is chosen,
      for "Any date", or for an instant of 0. The `yyyy-MM-dd` formatting of the
      instant is not part of this model, so the instant itself is returned. */
  function DateStart(selected: Option<DateOption>): (r: Option<int>)
    ensures r.Some? <==> selected.Some? && selected.value.value.Some? && selected.value.value.value != 0
    ensures r.Some? ==> r.value == selected.value.value.value
  {
    if selected.Some? && selected.value.value.Some? && selected.value.value.value != 0
    then Some(selected.value.value.value)
    else None
  }

  /** Once the clock is past thirty days, only "Any date" leaves `dateStart` out. */
  lemma OnlyAnyDateOmitsStart(now: int, i: nat)
    requires now > 30 * DayMillis
    requires i < 4
    ensures DateStart(Some(DateOptionsAt(now)[i])).None? <==> i == 0
  {
  }
}
