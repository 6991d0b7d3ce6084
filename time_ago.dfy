/** `timeAgo`: the age of an article as "<n> sec ago", "<n> min ago",
    "<n> h ago" or "<n> days ago". The clock reading and the parsed publication
    date are given as integer milliseconds. */
module TimeAgo {
  import opened Text

  const SecondMillis := 1000
  const MinuteMillis := 60 * SecondMillis
  const HourMillis := 60 * MinuteMillis
  const DayMillis := 24 * HourMillis

  /** A division with remainder determines the quotient: `Math.floor(a / d)` is
      the `q` with `a == q * d + r` and `0 <= r < d`. */
  lemma QuotientUnique(a: int, d: int, q: int, r: int)
    requires d > 0 && a == q * d + r && 0 <= r < d
    ensures a / d == q
  {
    var q0, r0 := a / d, a % d;
    assert (q0 - q) * d == r - r0;
    if q0 > q {
      MultipleAtLeastDivisor(q0 - q, d);
    } else if q0 < q {
      MultipleAtLeastDivisor(q - q0, d);
    }
  }

  /** A positive multiple of `d` is at least `d`. */
  lemma {:induction false} MultipleAtLeastDivisor(k: int, d: int)
    requires k >= 1 && d > 0
    ensures k * d >= d
    decreases k
  {
    if k > 1 {
      MultipleAtLeastDivisor(k - 1, d);
      assert k * d == (k - 1) * d + d;
    }
  }

  /** Two successive floor divisions are one floor division by the product. */
  lemma {:induction false} DivDiv(a: int, b: int, c: int)
    requires b > 0 && c > 0
    ensures a / b / c == a / (b * c)
  {
    var q, r := a / b, a % b;
    var q2, r2 := q / c, q % c;
    assert a == q * b + r;
    assert q == q2 * c + r2;
    assert a == q2 * (b * c) + (r2 * b + r) by {
      assert q * b == (q2 * c + r2) * b;
      assert (q2 * c + r2) * b == q2 * (b * c) + r2 * b;
    }
    assert 0 <= r2 * b + r < b * c by {
      MulMonotone(0, r2, b);
      MulMonotone(r2, c - 1, b);
      assert (c - 1) * b == b * c - b;
    }
    QuotientUnique(a, b * c, q2, r2 * b + r);
  }

  /** Multiplying by a non-negative factor keeps the order. */
  lemma {:induction false} MulMonotone(x: int, y: int, b: nat)
    requires x <= y
    ensures x * b <= y * b
    decreases b
  {
    if b > 0 {
      MulMonotone(x, y, b - 1);
      assert x * b == x * (b - 1) + x;
      assert y * b == y * (b - 1) + y;
    }
  }

  /** `Math.floor(q / d)` of a non-negative divisor bound: below the bound exactly
      when the dividend is below bound times divisor. */
  lemma {:induction false} DivBelow(a: int, d: int, n: int)
    requires d > 0
    ensures a / d < n <==> a < n * d
  {
    var q, r := a / d, a % d;
    assert a == q * d + r;
    if q < n {
      assert q + 1 <= n;
      assert (q + 1) * d <= n * d;
      assert a < (q + 1) * d;
    } else {
      assert q * d >= n * d;
    }
  }

  /** The unit `timeAgo` chooses and the number it prints. */
  datatype Elapsed = Seconds(n: int) | Minutes(n: int) | Hours(n: int) | Days(n: int)

  /** The bucketing of a difference of `diff` milliseconds. The source divides
      step by step; the contract states each count as a single floor division
      of the difference and each bucket as a range of differences. */
  function Bucket(diff: int): (e: Elapsed)
    ensures e.Seconds? <==> diff < MinuteMillis
    ensures e.Minutes? <==> MinuteMillis <= diff < HourMillis
    ensures e.Hours? <==> HourMillis <= diff < DayMillis
    ensures e.Days? <==> DayMillis <= diff
    ensures e.Seconds? ==> e.n == diff / SecondMillis && e.n < 60
    ensures e.Minutes? ==> e.n == diff / MinuteMillis && 1 <= e.n < 60
    ensures e.Hours? ==> e.n == diff / HourMillis && 1 <= e.n < 24
    ensures e.Days? ==> e.n == diff / DayMillis && 1 <= e.n
    ensures 0 <= diff ==> 0 <= e.n
  {
    var diffInSeconds := diff / 1000;
    var diffInMinutes := diffInSeconds / 60;
    var diffInHours := diffInMinutes / 60;
    var diffInDays := diffInHours / 24;
    DivDiv(diff, 1000, 60);
    DivDiv(diff, 60000, 60);
    DivDiv(diff, 3600000, 24);
    DivBelow(diff, 1000, 60);
    DivBelow(diff, 60000, 60);
    DivBelow(diff, 3600000, 24);
    DivBelow(diff, 60000, 1);
    DivBelow(diff, 3600000, 1);
    DivBelow(diff, 86400000, 1);
    if diffInSeconds < 60 then Seconds(diffInSeconds)
    else if diffInMinutes < 60 then Minutes(diffInMinutes)
    else if diffInHours < 24 then Hours(diffInHours)
    else Days(diffInDays)
  }

  /** The unit's suffix in the printed text. */
  function Suffix(e: Elapsed): string
  {
    match e
    case Seconds(_) => " sec ago"
    case Minutes(_) => " min ago"
    case Hours(_) => " h ago"
    case Days(_) => " days ago"
  }

  /** `timeAgo` for the clock reading `now` and the publication instant `date`. */
  function TimeAgo(now: int, date: int): (text: string)
    ensures var e := Bucket(now - date); text == IntToString(e.n) + Suffix(e)
  {
    var e := Bucket(now - date);
    IntToString(e.n) + Suffix(e)
  }

  /** A publication date in the future gives a negative count of seconds:
      one and a half seconds ahead reads "-2 sec ago". */
  lemma FutureDateCountsNegativeSeconds()
    ensures Bucket(-1500) == Seconds(-2)
  {
  }

  /** The printed number reads back as the count: after the optional sign, its
      digits denote the magnitude of the count. */
  lemma PrintedCount(now: int, date: int)
    requires date <= now
    ensures var e := Bucket(now - date);
      var text := TimeAgo(now, date);
      IsDigits(text[..|IntToString(e.n)|]) && DecimalValue(text[..|IntToString(e.n)|]) == e.n
  {
    var e := Bucket(now - date);
    assert TimeAgo(now, date)[..|IntToString(e.n)|] == IntToString(e.n);
  }
}
