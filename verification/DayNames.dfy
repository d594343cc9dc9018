// Day files are named by date so that names sort as days do.
module DayNames {

  import opened Strings

  datatype Date = Date(year: nat, month: nat, day: nat) {
    // What a four-digit year leaves room for.
    predicate Fits() { year < 10000 && month < 100 && day < 100 }

    predicate Before(other: Date) {
      || year < other.year
      || (year == other.year && month < other.month)
      || (year == other.year && month == other.month && day < other.day)
    }

    function Name(): string { Digits(year, 4) + "-" + Digits(month, 2) + "-" + Digits(day, 2) }
  }

  // The last `width` digits, with leading zeros.
  function Digits(n: nat, width: nat): (s: string)
    ensures |s| == width
  {
    if width == 0 then "" else Digits(n / 10, width - 1) + ['0' + (n % 10) as char]
  }

  function Power(width: nat): nat { if width == 0 then 1 else 10 * Power(width - 1) }

  lemma {:induction false} DigitsSort(m: nat, n: nat, width: nat)
    requires m < n < Power(width)
    ensures Less(Digits(m, width), Digits(n, width))
  {
    var low, high := ['0' + (m % 10) as char], ['0' + (n % 10) as char];
    if m / 10 < n / 10 {
      DigitsSort(m / 10, n / 10, width - 1);
      LessWhateverFollows(Digits(m / 10, width - 1), Digits(n / 10, width - 1), low, high);
    } else {
      assert m / 10 == n / 10 && low[0] < high[0];
      LessAfterSame(Digits(m / 10, width - 1), low, high);
    }
  }

  // An earlier date has the smaller name, so sorting names lists the days
  // oldest first.
  lemma NamesSortByDate(a: Date, b: Date)
    requires a.Fits() && b.Fits() && a.Before(b)
    ensures Less(a.Name(), b.Name())
  {
    assert Power(2) == 100 && Power(4) == 10000 by {
      assert Power(1) == 10 && Power(3) == 1000;
    }
    if a.year < b.year {
      DigitsSort(a.year, b.year, 4);
      YearDecides(a, b);
    } else if a.month < b.month {
      DigitsSort(a.month, b.month, 2);
      MonthDecides(a, b);
    } else {
      DigitsSort(a.day, b.day, 2);
      DayDecides(a, b);
    }
  }

  lemma YearDecides(a: Date, b: Date)
    requires Less(Digits(a.year, 4), Digits(b.year, 4))
    ensures Less(a.Name(), b.Name())
  {
    var x, y := "-" + Digits(a.month, 2) + "-" + Digits(a.day, 2), "-" + Digits(b.month, 2) + "-" + Digits(b.day, 2);
    LessWhateverFollows(Digits(a.year, 4), Digits(b.year, 4), x, y);
    assert a.Name() == Digits(a.year, 4) + x && b.Name() == Digits(b.year, 4) + y;
  }

  lemma MonthDecides(a: Date, b: Date)
    requires a.year == b.year && Less(Digits(a.month, 2), Digits(b.month, 2))
    ensures Less(a.Name(), b.Name())
  {
    var p, x, y := Digits(a.year, 4) + "-", "-" + Digits(a.day, 2), "-" + Digits(b.day, 2);
    LessWhateverFollows(Digits(a.month, 2), Digits(b.month, 2), x, y);
    LessAfterSame(p, Digits(a.month, 2) + x, Digits(b.month, 2) + y);
    assert a.Name() == p + (Digits(a.month, 2) + x) && b.Name() == p + (Digits(b.month, 2) + y);
  }

  lemma DayDecides(a: Date, b: Date)
    requires a.year == b.year && a.month == b.month && Less(Digits(a.day, 2), Digits(b.day, 2))
    ensures Less(a.Name(), b.Name())
  {
    var p := Digits(a.year, 4) + "-" + Digits(a.month, 2) + "-";
    LessAfterSame(p, Digits(a.day, 2), Digits(b.day, 2));
    assert a.Name() == p + Digits(a.day, 2) && b.Name() == p + Digits(b.day, 2);
  }

  // And no two dates share a name.
  lemma NamesTellDatesApart(a: Date, b: Date)
    requires a.Fits() && b.Fits()
    ensures Less(a.Name(), b.Name()) <==> a.Before(b)
    ensures a.Name() == b.Name() <==> a == b
  {
    if a.Before(b) {
      NamesSortByDate(a, b);
      LessIsStrict(a.Name(), b.Name(), a.Name());
    } else if b.Before(a) {
      NamesSortByDate(b, a);
      LessIsStrict(b.Name(), a.Name(), b.Name());
    } else {
      LessIsStrict(a.Name(), a.Name(), a.Name());
    }
  }
}
