/** The checks and values the two product-request forms share: the priority
    range, their error messages, and the date part of an ISO timestamp. */
module FormRules {
  import opened Wrappers
  import opened JsText

  /** `!priority || priority < 1 || priority > 10`, with `None` for an empty input. */
  predicate PriorityRejected(priority: Option<int>) {
    priority.None? || priority.value < 1 || priority.value > 10
  }

  const PriorityMessage := "Priority must be a number between 1 and 10."
  const RequiredByMessage := "Required-by date is required."

  /** `iso.split("T")[0]`: the text before the first `T`, or all of it. */
  function DatePart(iso: string): (date: string)
    ensures 'T' !in date
    ensures |date| <= |iso| && date == iso[..|date|]
    ensures |date| < |iso| ==> iso[|date|] == 'T'
  {
    var parts := Split(iso, 'T');
    JoinSplit(iso, 'T');
    assert |parts| > 1 ==> iso == parts[0] + ['T'] + Join(parts[1..], 'T');
    parts[0]
  }

  lemma {:induction false} DatePartOfTimestamp(date: string, time: string)
    requires 'T' !in date
    ensures DatePart(date + "T" + time) == date
  {
    SplitAfterFirst(date, time, 'T');
    assert date + "T" + time == date + ['T'] + time;
  }

  lemma {:induction false} DatePartOfDate(date: string)
    requires 'T' !in date
    ensures DatePart(date) == date
  {
    SplitWithoutSeparator(date, 'T');
  }
}
