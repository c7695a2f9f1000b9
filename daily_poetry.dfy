/**
 * The daily page's poem selection: a fixed collection, an index chosen on
 * mount from the day of the year, and previous/next navigation that moves
 * the date by one day and the index by one step around the collection.
 */
module DailyPoetry {

  datatype DailyPoem = DailyPoem(title: string, author: string, category: string, year: nat)

  /** The collection the page cycles through, in order. */
  const PoemCollection: seq<DailyPoem> := [
    DailyPoem("Hope is the thing with feathers", "Emily Dickinson", "Classic", 1861),
    DailyPoem("The Road Not Taken", "Robert Frost", "Classic", 1916),
    DailyPoem("Still I Rise", "Maya Angelou", "Modern", 1978)
  ]

  /** `(i + 1) % n`: the next index around a collection of `n`. */
  function Next(i: nat, n: nat): (r: nat)
    requires i < n
    ensures r < n
    ensures i + 1 < n ==> r == i + 1
    ensures i + 1 == n ==> r == 0
  {
    (i + 1) % n
  }

  /** `(i - 1 + n) % n`: the previous index around a collection of `n`. */
  function Prev(i: nat, n: nat): (r: nat)
    requires i < n
    ensures r < n
    ensures i > 0 ==> r == i - 1
    ensures i == 0 ==> r == n - 1
  {
    (i - 1 + n) % n
  }

  /** Previous undoes next. */
  lemma PrevAfterNext(i: nat, n: nat)
    requires i < n
    ensures Prev(Next(i, n), n) == i
  {
  }

  /** Next undoes previous. */
  lemma NextAfterPrev(i: nat, n: nat)
    requires i < n
    ensures Next(Prev(i, n), n) == i
  {
  }

  /** `k` successive next steps from `i`. */
  function NextTimes(i: nat, n: nat, k: nat): (r: nat)
    requires i < n
    ensures r < n
  {
    if k == 0 then i else Next(NextTimes(i, n, k - 1), n)
  }

  /** `k` next steps land on `(i + k) % n`. */
  lemma {:induction false} NextTimesIsShift(i: nat, n: nat, k: nat)
    requires i < n
    ensures NextTimes(i, n, k) == (i + k) % n
  {
    if k > 0 {
      NextTimesIsShift(i, n, k - 1);
      ModNext(i + k - 1, n);
    }
  }

  /** Division by `n` is determined by any quotient and remainder in range. */
  lemma DivModUnique(x: int, n: int, q: int, r: int)
    requires n > 0 && 0 <= r < n && x == q * n + r
    ensures x / n == q && x % n == r
  {
    var q', r' := x / n, x % n;
    assert (q - q') * n == r' - r;
    if q > q' {
      MultipleAtLeast(q - q', n);
    } else if q < q' {
      MultipleAtLeast(q' - q, n);
    }
  }

  lemma MultipleAtLeast(a: int, n: int)
    requires a >= 1 && n > 0
    ensures a * n >= n
  {
  }

  /** `(x % n + 1) % n == (x + 1) % n`. */
  lemma ModNext(x: nat, n: nat)
    requires n > 0
    ensures (x % n + 1) % n == (x + 1) % n
  {
    var q, r := x / n, x % n;
    if r + 1 < n {
      DivModUnique(x + 1, n, q, r + 1);
      DivModUnique(r + 1, n, 0, r + 1);
    } else {
      DivModUnique(x + 1, n, q + 1, 0);
      DivModUnique(r + 1, n, 1, 0);
    }
  }

  /** `n` next steps come back to where they started. */
  lemma {:induction false} FullCycle(i: nat, n: nat)
    requires i < n
    ensures NextTimes(i, n, n) == i
  {
    NextTimesIsShift(i, n, n);
    DivModUnique(i + n, n, 1, i);
  }

  /** The index chosen on mount: `dayOfYear % poemCollection.length`, always in range. */
  function MountIndex(dayOfYear: nat): (r: nat)
    ensures r < |PoemCollection|
    ensures (dayOfYear - r) % |PoemCollection| == 0
  {
    dayOfYear % |PoemCollection|
  }

  datatype Direction = Previous | Following

  class DailyPage {
    /** The shown date, as a day number. */
    var currentDate: int
    var dailyPoemIndex: nat

    ghost predicate Valid()
      reads this
    {
      dailyPoemIndex < |PoemCollection|
    }

    /** `dailyPoem = poemCollection[dailyPoemIndex]`. */
    function DailyPoem(): (p: DailyPoem)
      requires Valid()
      reads this
      ensures p in PoemCollection
    {
      PoemCollection[dailyPoemIndex]
    }

    /** The page as first rendered: today's date and index 0. */
    constructor (today: int)
      ensures Valid() && currentDate == today && dailyPoemIndex == 0
    {
      currentDate, dailyPoemIndex := today, 0;
    }

    /** The mount effect: the index becomes the day of the year modulo the collection size. */
    method Mount(dayOfYear: nat)
      requires Valid()
      modifies this`dailyPoemIndex
      ensures Valid()
      ensures dailyPoemIndex == MountIndex(dayOfYear)
    {
      dailyPoemIndex := dayOfYear % |PoemCollection|;
    }

    /** `navigateDate`: one day and one index step in the same direction. */
    method Navigate(direction: Direction)
      requires Valid()
      modifies this
      ensures Valid()
      ensures direction == Previous ==>
        currentDate == old(currentDate) - 1 && dailyPoemIndex == Prev(old(dailyPoemIndex), |PoemCollection|)
      ensures direction == Following ==>
        currentDate == old(currentDate) + 1 && dailyPoemIndex == Next(old(dailyPoemIndex), |PoemCollection|)
    {
      var n := |PoemCollection|;
      if direction == Previous {
        currentDate := currentDate - 1;
        dailyPoemIndex := (dailyPoemIndex - 1 + n) % n;
      } else {
        currentDate := currentDate + 1;
        dailyPoemIndex := (dailyPoemIndex + 1) % n;
      }
    }
  }

  /**
   * Pressing next `k` times from any mounted state moves the date `k` days
   * on and the index to `(start + k) % 3`; after three presses the same poem
   * shows again.
   */
  method PressNext(today: int, dayOfYear: nat, k: nat) returns (date: int, index: nat, start: nat)
    ensures start == dayOfYear % 3
    ensures date == today + k && index == (start + k) % 3
    ensures k == 3 ==> index == start
  {
    var page := new DailyPage(today);
    page.Mount(dayOfYear);
    start := page.dailyPoemIndex;
    var i := 0;
    while i < k
      invariant 0 <= i <= k
      invariant page.Valid()
      invariant page.currentDate == today + i
      invariant page.dailyPoemIndex == NextTimes(start, 3, i)
    {
      page.Navigate(Following);
      i := i + 1;
    }
    date, index := page.currentDate, page.dailyPoemIndex;
    NextTimesIsShift(start, 3, k);
    if k == 3 {
      FullCycle(start, 3);
    }
  }
}
