/** The per-category and all-category rollups (TypeInfo in TypeInfo.cs,
    AllInfo in AllInfo.cs) over day records (TypeDay).

    Every number is a sum computed on read. As written, the `*Cumulative`
    numbers sum the daily `Paid` and `Free` fields, so they equal `Paid`
    and `Free`. */
module Rollups {
  import opened Options
  import opened Dictionaries

  /** The four numbers IWithNumbers exposes. */
  datatype Numbers = Numbers(paid: int, free: int, paidCumulative: int, freeCumulative: int)

  /** One day of one series: stored numbers. */
  datatype TypeDay = TypeDay(date: int, paid: int, free: int, paidCumulative: int, freeCumulative: int) {
    function AsNumbers(): Numbers {
      Numbers(paid, free, paidCumulative, freeCumulative)
    }
  }

  function DayPaid(d: TypeDay): int { d.paid }
  function DayFree(d: TypeDay): int { d.free }

  /** One category: its days by date. */
  datatype TypeInfo = TypeInfo(typeName: string, currentDay: Option<TypeDay>, days: Dict<int, TypeDay>) {
    function Paid(): int { SumOver(days.keys, days.items, DayPaid) }
    function Free(): int { SumOver(days.keys, days.items, DayFree) }
    function Total(): int { Paid() + Free() }
    function PaidCumulative(): int { SumOver(days.keys, days.items, DayPaid) }
    function FreeCumulative(): int { SumOver(days.keys, days.items, DayFree) }
    function AsNumbers(): Numbers {
      Numbers(Paid(), Free(), PaidCumulative(), FreeCumulative())
    }
  }

  function CategoryPaid(t: TypeInfo): int { t.Paid() }
  function CategoryFree(t: TypeInfo): int { t.Free() }

  /** All categories by category name (the AllInfo of AllInfo.cs). */
  datatype AllInfo = AllInfo(currentDay: Option<TypeDay>, appType: Dict<string, TypeInfo>, days: Dict<int, TypeDay>) {
    function Paid(): int { SumOver(appType.keys, appType.items, CategoryPaid) }
    function Free(): int { SumOver(appType.keys, appType.items, CategoryFree) }
    function PaidCumulative(): int { SumOver(appType.keys, appType.items, CategoryPaid) }
    function FreeCumulative(): int { SumOver(appType.keys, appType.items, CategoryFree) }
    function AsNumbers(): Numbers {
      Numbers(Paid(), Free(), PaidCumulative(), FreeCumulative())
    }
  }

  function DayTotal(d: TypeDay): int { d.paid + d.free }

  /** Summing paid plus free per day is summing each apart. */
  lemma {:induction false} SumDayTotal(s: seq<TypeDay>)
    ensures SumSeq(s, DayTotal) == SumSeq(s, DayPaid) + SumSeq(s, DayFree)
  {
    if s != [] {
      SumDayTotal(s[..|s| - 1]);
    }
  }

  /** `Total` is `Paid + Free`, and so the sum of every day's paid and free counts. */
  lemma TotalIsPaidPlusFree(t: TypeInfo)
    ensures t.Total() == t.Paid() + t.Free()
    ensures t.Total() == SumOver(t.days.keys, t.days.items, DayTotal)
  {
    SumDayTotal(ValuesOf(t.days.keys, t.days.items));
  }

  /** As written, the cumulative numbers of a category are its daily sums. */
  lemma CategoryCumulativeIsDaily(t: TypeInfo)
    ensures t.AsNumbers().paidCumulative == t.Paid() == SumSeq(ValuesOf(t.days.keys, t.days.items), DayPaid)
    ensures t.AsNumbers().freeCumulative == t.Free() == SumSeq(ValuesOf(t.days.keys, t.days.items), DayFree)
  {
  }

  /** As written, the cumulative numbers of all categories are their daily sums. */
  lemma AllCumulativeIsDaily(a: AllInfo)
    ensures a.AsNumbers().paidCumulative == a.Paid()
    ensures a.AsNumbers().freeCumulative == a.Free()
  {
  }

  /** No days, no counts. */
  lemma EmptyCategoryIsZero(name: string, current: Option<TypeDay>)
    ensures var t := TypeInfo(name, current, Empty());
      t.Total() == 0 && t.AsNumbers() == Numbers(0, 0, 0, 0)
  {
  }

  /** No categories, no counts. */
  lemma EmptyAllIsZero(current: Option<TypeDay>, days: Dict<int, TypeDay>)
    ensures AllInfo(current, Empty(), days).AsNumbers() == Numbers(0, 0, 0, 0)
  {
  }

  /** Recording a day under a new date adds exactly that day's counts;
      recording it under a date already present replaces that date's counts. */
  lemma {:induction false} PutDay(t: TypeInfo, date: int, day: TypeDay)
    requires Valid(t.days)
    ensures var t' := t.(days := Put(t.days, date, day));
      && (date !in t.days.items ==>
            t'.Paid() == t.Paid() + day.paid && t'.Free() == t.Free() + day.free)
      && (date in t.days.items ==>
            && t'.Paid() == t.Paid() - t.days.items[date].paid + day.paid
            && t'.Free() == t.Free() - t.days.items[date].free + day.free)
  {
    var d := t.days;
    if date in d.items {
      SumOverUpdate(d.keys, d.items, date, day, DayPaid);
      SumOverUpdate(d.keys, d.items, date, day, DayFree);
    } else {
      SumOverUnchanged(d.keys, d.items, date, day, DayPaid);
      SumOverUnchanged(d.keys, d.items, date, day, DayFree);
      SumOverAppend(d.keys, date, d.items[date := day], DayPaid);
      SumOverAppend(d.keys, date, d.items[date := day], DayFree);
    }
  }

  /** Every day of every category, categories in their order, days in theirs. */
  function AllDays(categories: seq<TypeInfo>): seq<TypeDay> {
    if categories == [] then []
    else
      var last := categories[|categories| - 1];
      AllDays(categories[..|categories| - 1]) + ValuesOf(last.days.keys, last.days.items)
  }

  /** The paid total of all categories is the paid count summed over every
      day of every category; likewise free. */
  lemma {:induction false} AllPaidIsSumOverEveryDay(a: AllInfo)
    ensures var days := AllDays(ValuesOf(a.appType.keys, a.appType.items));
      && a.Paid() == SumSeq(days, DayPaid)
      && a.Free() == SumSeq(days, DayFree)
  {
    SumOfCategories(ValuesOf(a.appType.keys, a.appType.items));
  }

  lemma {:induction false} SumOfCategories(categories: seq<TypeInfo>)
    ensures SumSeq(categories, CategoryPaid) == SumSeq(AllDays(categories), DayPaid)
    ensures SumSeq(categories, CategoryFree) == SumSeq(AllDays(categories), DayFree)
  {
    if categories != [] {
      var init := categories[..|categories| - 1];
      var last := categories[|categories| - 1];
      SumOfCategories(init);
      SumSeqConcat(AllDays(init), ValuesOf(last.days.keys, last.days.items), DayPaid);
      SumSeqConcat(AllDays(init), ValuesOf(last.days.keys, last.days.items), DayFree);
    }
  }
}
