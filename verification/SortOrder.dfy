/** What the order of sort keys means for the lots: product, place, unit, date and label, each in its own order. */
module SortOrder {
  import opened Basics
  import opened Lexicographic
  import opened LotKeys

  // ------------------------------------------------------------ texts of one width

  /** Two texts that start with pieces of one length: the pieces decide, then the rest. */
  lemma {:induction false} ConcatOrder(x: string, y: string, u: string, v: string)
    requires |x| == |y|
    ensures TextLess(x + u, y + v) <==> TextLess(x, y) || (x == y && TextLess(u, v))
    decreases |x|
  {
    if x == "" {
      assert x + u == u && y + v == v;
    } else {
      ConcatOrder(x[1..], y[1..], u, v);
      assert (x + u)[1..] == x[1..] + u && (y + v)[1..] == y[1..] + v;
      assert x == [x[0]] + x[1..] && y == [y[0]] + y[1..];
    }
  }

  /** A dash between the pieces changes nothing. */
  lemma DashOrder(x: string, y: string, u: string, v: string)
    requires |x| == |y|
    ensures TextLess(x + "-" + u, y + "-" + v) <==> TextLess(x, y) || (x == y && TextLess(u, v))
  {
    assert x + "-" + u == x + ("-" + u) && y + "-" + v == y + ("-" + v);
    ConcatOrder(x, y, "-" + u, "-" + v);
    assert ("-" + u)[1..] == u && ("-" + v)[1..] == v;
  }

  lemma DigitOrder(i: nat, j: nat)
    requires i < 16 && j < 16
    ensures TextLess([DIGITS[i]], [DIGITS[j]]) <==> i < j
  {
    var digits := ['0', '1', '2', '3', '4', '5', '6', '7', '8', '9', 'a', 'b', 'c', 'd', 'e', 'f'];
    assert DIGITS == digits;
    assert DIGITS[i] < DIGITS[j] <==> i < j;
  }

  /** Numerals of one width compare as the numbers do. */
  lemma {:induction false} NumeralOrder(n: nat, m: nat, base: nat, width: nat)
    requires base == 10 || base == 16
    requires n < Pow(base, width) && m < Pow(base, width)
    ensures TextLess(Numeral(n, base, width), Numeral(m, base, width)) <==> n < m
    decreases width
  {
    if width == 0 {
    } else if base == 10 {
      NumeralOrder(n / 10, m / 10, base, width - 1);
      NumeralSame(n / 10, m / 10, base, width - 1);
      DigitOrder(n % 10, m % 10);
      ConcatOrder(Numeral(n / 10, base, width - 1), Numeral(m / 10, base, width - 1), [DIGITS[n % 10]], [DIGITS[m % 10]]);
    } else {
      NumeralOrder(n / 16, m / 16, base, width - 1);
      NumeralSame(n / 16, m / 16, base, width - 1);
      DigitOrder(n % 16, m % 16);
      ConcatOrder(Numeral(n / 16, base, width - 1), Numeral(m / 16, base, width - 1), [DIGITS[n % 16]], [DIGITS[m % 16]]);
    }
  }

  lemma NumeralSame(n: nat, m: nat, base: nat, width: nat)
    requires base == 10 || base == 16
    requires n < Pow(base, width) && m < Pow(base, width)
    ensures Numeral(n, base, width) == Numeral(m, base, width) <==> n == m
  {
    if Numeral(n, base, width) == Numeral(m, base, width) {
      NumeralInjective(n, m, base, width);
    }
  }

  // ------------------------------------------------------------ identifiers

  lemma SplitOrder(g: string, h: string, at: nat, u: string, v: string)
    requires |g| == |h| && at <= |g|
    requires TextLess(u, v) <==> TextLess(g[at..], h[at..])
    ensures TextLess(g[..at] + "-" + u, h[..at] + "-" + v) <==> TextLess(g, h)
  {
    DashOrder(g[..at], h[..at], u, v);
    ConcatOrder(g[..at], h[..at], g[at..], h[at..]);
    assert g == g[..at] + g[at..] && h == h[..at] + h[at..];
  }

  lemma GroupedOrder(g: string, h: string)
    requires |g| == |h| == 32
    ensures TextLess(Grouped(g), Grouped(h)) <==> TextLess(g, h)
  {
    var g1, h1 := g[8..], h[8..];
    var g2, h2 := g1[4..], h1[4..];
    var g3, h3 := g2[4..], h2[4..];
    var u3, v3 := g3[..4] + "-" + g3[4..], h3[..4] + "-" + h3[4..];
    SplitOrder(g3, h3, 4, g3[4..], h3[4..]);
    var u2, v2 := g2[..4] + "-" + u3, h2[..4] + "-" + v3;
    SplitOrder(g2, h2, 4, u3, v3);
    var u1, v1 := g1[..4] + "-" + u2, h1[..4] + "-" + v2;
    SplitOrder(g1, h1, 4, u2, v2);
    SplitOrder(g, h, 8, u1, v1);
    GroupedNested(g);
    GroupedNested(h);
  }

  lemma GroupedNested(h: string)
    requires |h| == 32
    ensures var h1 := h[8..]; var h2 := h1[4..]; var h3 := h2[4..];
            Grouped(h) == h[..8] + "-" + (h1[..4] + "-" + (h2[..4] + "-" + (h3[..4] + "-" + h3[4..])))
  {
    var h1 := h[8..];
    var h2 := h1[4..];
    var h3 := h2[4..];
    assert h1[..4] == h[8..12] && h2[..4] == h[12..16] && h3[..4] == h[16..20] && h3[4..] == h[20..];
  }

  lemma UuidOrder(a: Uuid, b: Uuid)
    ensures TextLess(UuidText(a), UuidText(b)) <==> a < b
    ensures UuidText(a) == UuidText(b) <==> a == b
  {
    assert IsUuid(a) && IsUuid(b);
    GroupedOrder(Numeral(a, 16, 32), Numeral(b, 16, 32));
    NumeralOrder(a, b, 16, 32);
    if UuidText(a) == UuidText(b) {
      UuidTextInjective(a, b);
    }
  }

  // ------------------------------------------------------------ dates, places, labels

  predicate DayBefore(a: Day, b: Day) {
    || a.year < b.year
    || (a.year == b.year && a.month < b.month)
    || (a.year == b.year && a.month == b.month && a.day < b.day)
  }

  lemma IsoFormatOrder(a: Day, b: Day)
    ensures TextLess(IsoFormat(a), IsoFormat(b)) <==> DayBefore(a, b)
  {
    SmallPowers();
    hide Numeral, TextLess, Pow;
    var y, m, d := Numeral(a.year, 10, 4), Numeral(a.month, 10, 2), Numeral(a.day, 10, 2);
    var y', m', d' := Numeral(b.year, 10, 4), Numeral(b.month, 10, 2), Numeral(b.day, 10, 2);
    NumeralOrder(a.year, b.year, 10, 4);
    NumeralSame(a.year, b.year, 10, 4);
    NumeralOrder(a.month, b.month, 10, 2);
    NumeralSame(a.month, b.month, 10, 2);
    NumeralOrder(a.day, b.day, 10, 2);
    DashOrder(m, m', d, d');
    DashOrder(y, y', m + "-" + d, m' + "-" + d');
    assert IsoFormat(a) == y + "-" + (m + "-" + d) && IsoFormat(b) == y' + "-" + (m' + "-" + d');
  }

  /** No date comes before any date. */
  predicate DateBefore(a: Option<Day>, b: Option<Day>) {
    b.Some? && (a.None? || DayBefore(a.value, b.value))
  }

  lemma DateOrder(a: Option<Day>, b: Option<Day>)
    ensures TextLess(DateText(a), DateText(b)) <==> DateBefore(a, b)
    ensures DateText(a) == DateText(b) <==> a == b
  {
    if a.Some? && b.Some? {
      IsoFormatOrder(a.value, b.value);
    }
    if DateText(a) == DateText(b) {
      DateTextInjective(a, b);
    }
  }

  /** The first place where two texts differ decides. */
  lemma {:induction false} FirstDifference(a: string, b: string, i: nat)
    requires i < |a| && i < |b| && a[..i] == b[..i] && a[i] < b[i]
    ensures TextLess(a, b) && !TextLess(b, a)
    decreases i
  {
    if i == 0 {
    } else {
      assert a[0] == a[..i][0] && b[0] == b[..i][0];
      assert a[1..][..i - 1] == a[..i][1..] && b[1..][..i - 1] == b[..i][1..];
      FirstDifference(a[1..], b[1..], i - 1);
    }
  }

  function PlaceRank(l: StorageLocation): nat {
    match l
    case Counter => 0
    case Freezer => 1
    case Fridge => 2
    case Other => 3
    case Pantry => 4
  }

  lemma PlacesInOrder(a: StorageLocation, b: StorageLocation)
    requires PlaceRank(a) < PlaceRank(b)
    ensures TextLess(LocationValue(a), LocationValue(b)) && !TextLess(LocationValue(b), LocationValue(a))
  {
    var s, t := LocationValue(a), LocationValue(b);
    if a.Freezer? && b.Fridge? {
      assert s[..2] == t[..2] && s[2] < t[2];
      FirstDifference(s, t, 2);
    } else {
      assert s[0] < t[0];
      FirstDifference(s, t, 0);
    }
  }

  lemma PlaceOrder(a: StorageLocation, b: StorageLocation)
    ensures TextLess(LocationValue(a), LocationValue(b)) <==> PlaceRank(a) < PlaceRank(b)
    ensures LocationValue(a) == LocationValue(b) <==> a == b
  {
    if PlaceRank(a) < PlaceRank(b) {
      PlacesInOrder(a, b);
    } else if PlaceRank(b) < PlaceRank(a) {
      PlacesInOrder(b, a);
    }
    TextIrreflexive(LocationValue(a));
  }

  function LabelRank(l: Option<DateLabelType>): nat {
    if l.None? then 0 else if l.value.BestBefore? then 1 else 2
  }

  lemma LabelOrder(a: Option<DateLabelType>, b: Option<DateLabelType>)
    ensures TextLess(LabelText(a), LabelText(b)) <==> LabelRank(a) < LabelRank(b)
    ensures LabelText(a) == LabelText(b) <==> a == b
  {
    var s, t := LabelText(a), LabelText(b);
    TextIrreflexive(s);
    if a.Some? && b.Some? && a != b {
      FirstDifference("best_before", "use_by", 0);
    }
  }

  // ------------------------------------------------------------ the whole key

  lemma FiveDecide(a: seq<string>, b: seq<string>)
    requires |a| == |b| == 5
    ensures TupleLess(a, b) <==>
            || TextLess(a[0], b[0])
            || (a[0] == b[0] && TextLess(a[1], b[1]))
            || (a[0] == b[0] && a[1] == b[1] && TextLess(a[2], b[2]))
            || (a[0] == b[0] && a[1] == b[1] && a[2] == b[2] && TextLess(a[3], b[3]))
            || (a[0] == b[0] && a[1] == b[1] && a[2] == b[2] && a[3] == b[3] && TextLess(a[4], b[4]))
  {
    hide TextLess;
    assert a[1..][1..] == a[2..] && a[2..][1..] == a[3..] && a[3..][1..] == a[4..] && a[4..][1..] == [];
    assert b[1..][1..] == b[2..] && b[2..][1..] == b[3..] && b[3..][1..] == b[4..] && b[4..][1..] == [];
    assert !TupleLess([], []);
    assert TupleLess(a[4..], b[4..]) <==> TextLess(a[4], b[4]);
    assert TupleLess(a[3..], b[3..]) <==> TextLess(a[3], b[3]) || (a[3] == b[3] && TupleLess(a[4..], b[4..]));
    assert TupleLess(a[2..], b[2..]) <==> TextLess(a[2], b[2]) || (a[2] == b[2] && TupleLess(a[3..], b[3..]));
    assert TupleLess(a[1..], b[1..]) <==> TextLess(a[1], b[1]) || (a[1] == b[1] && TupleLess(a[2..], b[2..]));
  }

  /**
   * Lots are ordered by product number, then by place in alphabetical order, then by unit, then undated before dated
   * and earlier before later, then unlabelled, best-before, use-by.
   */
  lemma SortKeyReadsFields(a: LotKey, b: LotKey)
    ensures KeyLess(a, b) <==>
            || a.product < b.product
            || (a.product == b.product && PlaceRank(a.location) < PlaceRank(b.location))
            || (a.product == b.product && a.location == b.location && TextLess(a.unit, b.unit))
            || (a.product == b.product && a.location == b.location && a.unit == b.unit &&
                DateBefore(a.printedDate, b.printedDate))
            || (a.product == b.product && a.location == b.location && a.unit == b.unit &&
                a.printedDate == b.printedDate && LabelRank(a.labelType) < LabelRank(b.labelType))
  {
    UuidOrder(a.product, b.product);
    PlaceOrder(a.location, b.location);
    DateOrder(a.printedDate, b.printedDate);
    LabelOrder(a.labelType, b.labelType);
    hide TextLess, TupleLess, UuidText, LocationValue, DateText, LabelText;
    FiveDecide(SortKey(a), SortKey(b));
  }
}
