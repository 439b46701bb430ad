/** The reporting periods of the dashboard and the filter that picks the rows
    of one period, after Scripts/prepare_dashboard_data.py. Dates are day
    numbers; `parse_date` is not part of this model, so a row's date is given
    already parsed, or `None` where it does not parse. */
module Periods {
  import opened Options

  /** One entry of `periods_config` (`caption` is its `label`): a trailing window of `days` days before
      today and up, or, with `exactDay`, the single day `days` days ago. */
  datatype Period = Period(key: string, days: nat, exactDay: bool, caption: string)

  const Config: seq<Period> := [
    Period("today", 0, false, "Сегодня"),
    Period("yesterday", 1, true, "Вчера"),
    Period("days_3", 2, false, "3 дня"),
    Period("days_7", 6, false, "7 дней"),
    Period("days_30", 29, false, "30 дней")
  ]

  /** Day `d` falls in period `p` seen from `today`: it is the target day
      `today - days` of an exact-day period, or no earlier than the start day
      `today - days` of a trailing one (later days, even future ones, count). */
  predicate InPeriod(p: Period, today: int, d: int) {
    if p.exactDay then d == today - p.days else d >= today - p.days
  }

  /** A row is kept when its date parses and falls in the period. */
  predicate Keeps<T>(dayOf: T -> Option<int>, p: Period, today: int, x: T) {
    dayOf(x).Some? && InPeriod(p, today, dayOf(x).value)
  }

  /** The rows of `items` a period keeps, in their original order. */
  function Selected<T>(items: seq<T>, dayOf: T -> Option<int>, p: Period, today: int): seq<T> {
    if |items| == 0 then []
    else
      var n := |items| - 1;
      Selected(items[..n], dayOf, p, today) + (if Keeps(dayOf, p, today, items[n]) then [items[n]] else [])
  }

  /** The filter loop of one period: rows whose date does not parse are
      skipped, the others are kept when they fall in the period. */
  method FilterByPeriod<T>(items: seq<T>, dayOf: T -> Option<int>, p: Period, today: int) returns (kept: seq<T>)
    ensures kept == Selected(items, dayOf, p, today)
  {
    kept := [];
    var i := 0;
    while i < |items|
      invariant 0 <= i <= |items|
      invariant kept == Selected(items[..i], dayOf, p, today)
    {
      var item := items[i];
      assert items[..i + 1][..i] == items[..i];
      i := i + 1;
      var dt := dayOf(item);
      if dt.None? {
        continue;
      }
      var d := dt.value;
      if p.exactDay {
        var targetDay := today - p.days;
        if d == targetDay {
          kept := kept + [item];
        }
      } else {
        var startDay := today - p.days;
        if d >= startDay {
          kept := kept + [item];
        }
      }
    }
    assert items[..i] == items;
  }

  /** A row is kept exactly when it is one of the input rows, its date parses
      and the date falls in the period. */
  lemma {:induction false} SelectedMembers<T>(items: seq<T>, dayOf: T -> Option<int>, p: Period, today: int)
    ensures forall x :: x in Selected(items, dayOf, p, today) <==> x in items && Keeps(dayOf, p, today, x)
  {
    if |items| > 0 {
      var n := |items| - 1;
      SelectedMembers(items[..n], dayOf, p, today);
      assert items == items[..n] + [items[n]];
      assert forall x :: x in items <==> x in items[..n] || x == items[n];
    }
  }

  /** Filtering keeps the original order: the rows kept from two stretches of
      input are the rows kept from the first, then those kept from the second. */
  lemma {:induction false} SelectedAppend<T>(a: seq<T>, b: seq<T>, dayOf: T -> Option<int>, p: Period, today: int)
    ensures Selected(a + b, dayOf, p, today) == Selected(a, dayOf, p, today) + Selected(b, dayOf, p, today)
  {
    if |b| == 0 {
      assert a + b == a;
    } else {
      var n := |b| - 1;
      SelectedAppend(a, b[..n], dayOf, p, today);
      assert (a + b)[..|a + b| - 1] == a + b[..n];
    }
  }

  /** A period whose days all lie in a wider one keeps no row the wider one
      drops: its rows are a sub-multiset of the wider period's rows. */
  lemma {:induction false} SelectedWithin<T>(items: seq<T>, dayOf: T -> Option<int>, p: Period, q: Period, today: int)
    requires forall d :: InPeriod(p, today, d) ==> InPeriod(q, today, d)
    ensures multiset(Selected(items, dayOf, p, today)) <= multiset(Selected(items, dayOf, q, today))
    ensures |Selected(items, dayOf, p, today)| <= |Selected(items, dayOf, q, today)|
  {
    if |items| > 0 {
      var n := |items| - 1;
      SelectedWithin(items[..n], dayOf, p, q, today);
    }
  }

  /** The configured windows nest: today within 3 days, yesterday within
      3 days, 3 days within 7 and 7 within 30; an exact-day period keeps the
      target day only. */
  lemma ConfigNests(today: int, d: int)
    ensures InPeriod(Config[0], today, d) ==> InPeriod(Config[2], today, d)
    ensures InPeriod(Config[1], today, d) ==> InPeriod(Config[2], today, d)
    ensures InPeriod(Config[2], today, d) ==> InPeriod(Config[3], today, d)
    ensures InPeriod(Config[3], today, d) ==> InPeriod(Config[4], today, d)
    ensures InPeriod(Config[1], today, d) <==> d == today - 1
    ensures InPeriod(Config[0], today, d) <==> d >= today
  {
  }

  /** A date field as the scripts see it: missing, `None` or empty (all
      falsy), or a non-empty text that `parse_date` turns into a day or fails
      on. */
  datatype DateText = Blank | Text(parsed: Option<int>)

  /** `parse_date(s)`: a falsy field has no date. */
  function ParseDate(t: DateText): Option<int> {
    match t
    case Blank => None
    case Text(parsed) => parsed
  }

  /** The day of a Wildberries row, `parse_date(item.get('date') or
      item.get('dateFull'))`: `dateFull` is read only when `date` is falsy,
      not when `date` is present but does not parse. */
  function WbDay(date: DateText, dateFull: DateText): (r: Option<int>)
    ensures date.Text? ==> r == date.parsed
    ensures date.Blank? ==> r == ParseDate(dateFull)
  {
    ParseDate(if date.Text? then date else dateFull)
  }
}
