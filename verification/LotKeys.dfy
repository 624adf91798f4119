/** The grain of the snapshot: identifiers, dates, units, and the sort key that orders lots. */
module LotKeys {
  import opened Basics
  import opened Lexicographic

  // ---------------------------------------------------------------- numerals

  const DIGITS := "0123456789abcdef"

  ghost function Pow(base: nat, width: nat): (p: nat)
    requires base == 10 || base == 16
    ensures p >= 1
  {
    if width == 0 then 1
    else if base == 10 then 10 * Pow(base, width - 1)
    else 16 * Pow(base, width - 1)
  }

  /** `n` in the given base, padded with zeros to exactly `width` digits. */
  function Numeral(n: nat, base: nat, width: nat): (s: string)
    requires base == 10 || base == 16
    ensures |s| == width
    decreases width
  {
    if width == 0 then ""
    else if base == 10 then Numeral(n / 10, base, width - 1) + [DIGITS[n % 10]]
    else Numeral(n / 16, base, width - 1) + [DIGITS[n % 16]]
  }

  lemma DigitsDistinct(i: nat, j: nat)
    requires i < 16 && j < 16 && DIGITS[i] == DIGITS[j]
    ensures i == j
  {
    var digits := ['0', '1', '2', '3', '4', '5', '6', '7', '8', '9', 'a', 'b', 'c', 'd', 'e', 'f'];
    assert DIGITS == digits;
  }

  lemma {:induction false} NumeralInjective(n: nat, m: nat, base: nat, width: nat)
    requires base == 10 || base == 16
    requires n < Pow(base, width) && m < Pow(base, width)
    requires Numeral(n, base, width) == Numeral(m, base, width)
    ensures n == m
    decreases width
  {
    if width == 0 {
    } else {
      var s, t := Numeral(n, base, width), Numeral(m, base, width);
      assert s[width - 1] == t[width - 1] && s[..width - 1] == t[..width - 1];
      if base == 10 {
        assert s[..width - 1] == Numeral(n / 10, base, width - 1);
        assert t[..width - 1] == Numeral(m / 10, base, width - 1);
        DigitsDistinct(n % 10, m % 10);
        NumeralInjective(n / 10, m / 10, base, width - 1);
      } else {
        assert s[..width - 1] == Numeral(n / 16, base, width - 1);
        assert t[..width - 1] == Numeral(m / 16, base, width - 1);
        DigitsDistinct(n % 16, m % 16);
        NumeralInjective(n / 16, m / 16, base, width - 1);
      }
    }
  }

  // ------------------------------------------------------------- identifiers

  /** A UUID is its 128-bit value. */
  ghost predicate IsUuid(u: nat) {
    u < Pow(16, 32)
  }

  type Uuid = u: nat | IsUuid(u) witness 0

  function Grouped(h: string): (s: string)
    requires |h| == 32
    ensures |s| == 36
  {
    h[..8] + "-" + h[8..12] + "-" + h[12..16] + "-" + h[16..20] + "-" + h[20..]
  }

  lemma GroupedInjective(g: string, h: string)
    requires |g| == |h| == 32 && Grouped(g) == Grouped(h)
    ensures g == h
  {
    forall i | 0 <= i < 32
      ensures g[i] == h[i]
    {
      var at := if i < 8 then i else if i < 12 then i + 1 else if i < 16 then i + 2 else if i < 20 then i + 3 else i + 4;
      assert Grouped(g)[at] == g[i] && Grouped(h)[at] == h[i];
    }
  }

  /** `str(uuid)`: thirty-two hex digits in groups of 8-4-4-4-12. */
  function UuidText(u: Uuid): string {
    Grouped(Numeral(u, 16, 32))
  }

  lemma UuidTextInjective(a: Uuid, b: Uuid)
    requires UuidText(a) == UuidText(b)
    ensures a == b
  {
    GroupedInjective(Numeral(a, 16, 32), Numeral(b, 16, 32));
    assert IsUuid(a) && IsUuid(b);
    NumeralInjective(a, b, 16, 32);
  }

  // ------------------------------------------------------------------- dates

  datatype CalendarDate = CalendarDate(year: nat, month: nat, day: nat)

  type Day = d: CalendarDate | d.year <= 9999 && d.month <= 12 && d.day <= 31
    witness CalendarDate(1, 1, 1)

  /** `date.isoformat()`: YYYY-MM-DD. */
  function IsoFormat(d: Day): (s: string)
    ensures |s| == 10
  {
    Numeral(d.year, 10, 4) + "-" + Numeral(d.month, 10, 2) + "-" + Numeral(d.day, 10, 2)
  }

  lemma SmallPowers()
    ensures Pow(10, 2) == 100 && Pow(10, 4) == 10_000
  {
    assert Pow(10, 2) == 10 * Pow(10, 1) == 100;
    assert Pow(10, 4) == 10 * Pow(10, 3) == 100 * Pow(10, 2);
  }

  lemma IsoFormatInjective(a: Day, b: Day)
    requires IsoFormat(a) == IsoFormat(b)
    ensures a == b
  {
    SmallPowers();
    hide Numeral, Pow;
    var s, t := IsoFormat(a), IsoFormat(b);
    assert s[..4] == Numeral(a.year, 10, 4) && t[..4] == Numeral(b.year, 10, 4);
    assert s[5..7] == Numeral(a.month, 10, 2) && t[5..7] == Numeral(b.month, 10, 2);
    assert s[8..] == Numeral(a.day, 10, 2) && t[8..] == Numeral(b.day, 10, 2);
    hide IsoFormat;
    NumeralInjective(a.year, b.year, 10, 4);
    NumeralInjective(a.month, b.month, 10, 2);
    NumeralInjective(a.day, b.day, 10, 2);
  }

  // ------------------------------------------------------------------- enums

  datatype StorageLocation = Pantry | Fridge | Freezer | Counter | Other

  function LocationValue(l: StorageLocation): string {
    match l
    case Pantry => "pantry"
    case Fridge => "fridge"
    case Freezer => "freezer"
    case Counter => "counter"
    case Other => "other"
  }

  datatype DateLabelType = UseBy | BestBefore

  function LabelValue(l: DateLabelType): string {
    match l
    case UseBy => "use_by"
    case BestBefore => "best_before"
  }

  // ------------------------------------------------------------------- units

  /** The whitespace that `str.strip` removes. */
  predicate IsSpace(c: char) {
    || '\U{0009}' <= c <= '\U{000D}'
    || '\U{001C}' <= c <= '\U{0020}'
    || c == '\U{0085}'
    || c == '\U{00A0}'
    || c == '\U{1680}'
    || '\U{2000}' <= c <= '\U{200A}'
    || '\U{2028}' <= c <= '\U{2029}'
    || c == '\U{202F}'
    || c == '\U{205F}'
    || c == '\U{3000}'
  }

  function LowerChar(c: char): char {
    if 'A' <= c <= 'Z' then c - 'A' + 'a' else c
  }

  function Lower(s: string): (r: string)
    ensures |r| == |s|
    ensures forall i :: 0 <= i < |s| ==> r[i] == LowerChar(s[i])
  {
    if s == "" then "" else [LowerChar(s[0])] + Lower(s[1..])
  }

  function StripLeft(s: string): string {
    if s != "" && IsSpace(s[0]) then StripLeft(s[1..]) else s
  }

  function StripRight(s: string): string {
    if s != "" && IsSpace(s[|s| - 1]) then StripRight(s[..|s| - 1]) else s
  }

  function Strip(s: string): string {
    StripRight(StripLeft(s))
  }

  function NormalizeUnit(unit: string): string {
    Lower(Strip(unit))
  }

  predicate Stripped(s: string) {
    s == "" || (!IsSpace(s[0]) && !IsSpace(s[|s| - 1]))
  }

  lemma {:induction false} StripRightKeepsHead(s: string)
    requires s == "" || !IsSpace(s[0])
    ensures Stripped(StripRight(s))
    decreases |s|
  {
    if s != "" && IsSpace(s[|s| - 1]) {
      StripRightKeepsHead(s[..|s| - 1]);
    }
  }

  lemma {:induction false} StripLeftClearsHead(s: string)
    ensures var r := StripLeft(s); r == "" || !IsSpace(r[0])
    decreases |s|
  {
    if s != "" && IsSpace(s[0]) {
      StripLeftClearsHead(s[1..]);
    }
  }

  lemma StripStrips(s: string)
    ensures Stripped(Strip(s))
  {
    StripLeftClearsHead(s);
    StripRightKeepsHead(StripLeft(s));
  }

  lemma StrippedStays(s: string)
    requires Stripped(s)
    ensures Strip(s) == s
  {
  }

  lemma LowerAgain(s: string)
    ensures Lower(Lower(s)) == Lower(s)
    ensures Stripped(s) ==> Stripped(Lower(s))
  {
  }

  /** Normalising a unit twice changes nothing, so a stored unit stays in its lot. */
  lemma NormalizeUnitIdempotent(unit: string)
    ensures NormalizeUnit(NormalizeUnit(unit)) == NormalizeUnit(unit)
  {
    StripStrips(unit);
    hide Strip, StripLeft, StripRight, Stripped, Lower;
    LowerAgain(Strip(unit));
    StrippedStays(NormalizeUnit(unit));
  }

  lemma {:induction false} StripLeftMeans(s: string) returns (i: nat)
    ensures i <= |s| && StripLeft(s) == s[i..] && forall k :: 0 <= k < i ==> IsSpace(s[k])
    decreases |s|
  {
    i := 0;
    if s == "" || !IsSpace(s[0]) {
    } else {
      var j := StripLeftMeans(s[1..]);
      i := j + 1;
    }
  }

  lemma {:induction false} StripRightMeans(s: string) returns (j: nat)
    ensures j <= |s| && StripRight(s) == s[..j] && forall k :: j <= k < |s| ==> IsSpace(s[k])
    decreases |s|
  {
    j := |s|;
    if s == "" || !IsSpace(s[|s| - 1]) {
    } else {
      j := StripRightMeans(s[..|s| - 1]);
    }
  }

  /** A normalised unit is what lies between the surrounding whitespace, its ASCII capitals made small. */
  lemma NormalizeUnitMeans(unit: string) returns (i: nat, j: nat)
    ensures i <= j <= |unit|
    ensures forall k :: 0 <= k < i || j <= k < |unit| ==> IsSpace(unit[k])
    ensures i < j ==> !IsSpace(unit[i]) && !IsSpace(unit[j - 1])
    ensures |NormalizeUnit(unit)| == j - i
    ensures forall k :: i <= k < j ==>
              NormalizeUnit(unit)[k - i] == if 'A' <= unit[k] <= 'Z' then unit[k] - 'A' + 'a' else unit[k]
  {
    i := StripLeftMeans(unit);
    var rest := unit[i..];
    var n := StripRightMeans(rest);
    j := i + n;
    StripStrips(unit);
    assert Strip(unit) == rest[..n];
    assert forall k :: i <= k < j ==> rest[k - i] == unit[k];
    forall k | j <= k < |unit|
      ensures IsSpace(unit[k])
    {
      assert rest[k - i] == unit[k];
    }
  }

  lemma {:induction false} StripLeftLower(s: string)
    ensures StripLeft(Lower(s)) == Lower(StripLeft(s))
    decreases |s|
  {
    if s == "" || !IsSpace(s[0]) {
    } else {
      assert Lower(s)[1..] == Lower(s[1..]);
      StripLeftLower(s[1..]);
    }
  }

  lemma {:induction false} StripRightLower(s: string)
    ensures StripRight(Lower(s)) == Lower(StripRight(s))
    decreases |s|
  {
    if s == "" || !IsSpace(s[|s| - 1]) {
    } else {
      assert Lower(s)[..|s| - 1] == Lower(s[..|s| - 1]);
      StripRightLower(s[..|s| - 1]);
    }
  }

  /** Units that differ only in the case of ASCII letters are one unit. */
  lemma CaseNeverShows(a: string, b: string)
    requires |a| == |b| && forall i :: 0 <= i < |a| ==> LowerChar(a[i]) == LowerChar(b[i])
    ensures NormalizeUnit(a) == NormalizeUnit(b)
  {
    assert Lower(a) == Lower(b);
    hide Lower, StripLeft, StripRight;
    StripLeftLower(a);
    StripLeftLower(b);
    StripRightLower(StripLeft(a));
    StripRightLower(StripLeft(b));
  }

  // ---------------------------------------------------------------- lot keys

  datatype LotKey = LotKey(
    product: Uuid,
    location: StorageLocation,
    unit: string,
    printedDate: Option<Day>,
    labelType: Option<DateLabelType>)

  function DateText(d: Option<Day>): string {
    if d.Some? then IsoFormat(d.value) else ""
  }

  function LabelText(l: Option<DateLabelType>): string {
    if l.Some? then LabelValue(l.value) else ""
  }

  lemma DateTextInjective(a: Option<Day>, b: Option<Day>)
    requires DateText(a) == DateText(b)
    ensures a == b
  {
    if a.Some? && b.Some? {
      IsoFormatInjective(a.value, b.value);
    }
    assert |DateText(a)| == |DateText(b)|;
  }

  lemma LabelTextInjective(a: Option<DateLabelType>, b: Option<DateLabelType>)
    requires LabelText(a) == LabelText(b)
    ensures a == b
  {
    assert |LabelText(a)| == |LabelText(b)|;
  }

  function SortKey(k: LotKey): (s: seq<string>)
    ensures |s| == 5
  {
    [ UuidText(k.product),
      LocationValue(k.location),
      k.unit,
      DateText(k.printedDate),
      LabelText(k.labelType) ]
  }

  /** Lots are sorted by their sort keys, compared as Python compares tuples. */
  predicate KeyLess(a: LotKey, b: LotKey) {
    TupleLess(SortKey(a), SortKey(b))
  }

  lemma LocationValueInjective(a: StorageLocation, b: StorageLocation)
    requires LocationValue(a) == LocationValue(b)
    ensures a == b
  {
    assert LocationValue(a)[0] == LocationValue(b)[0];
    assert |LocationValue(a)| == |LocationValue(b)|;
  }

  /** Two different lots never share a sort key. */
  lemma SortKeyInjective(a: LotKey, b: LotKey)
    ensures SortKey(a) == SortKey(b) <==> a == b
  {
    hide DateText, LabelText, UuidText, LocationValue;
    if SortKey(a) == SortKey(b) {
      var s, t := SortKey(a), SortKey(b);
      assert s[0] == t[0] && s[1] == t[1] && s[2] == t[2] && s[3] == t[3] && s[4] == t[4];
      UuidTextInjective(a.product, b.product);
      LocationValueInjective(a.location, b.location);
      DateTextInjective(a.printedDate, b.printedDate);
      LabelTextInjective(a.labelType, b.labelType);
    }
  }

  /** The sort key is a strict total order on lot keys. */
  lemma KeyOrder(a: LotKey, b: LotKey, c: LotKey)
    ensures !KeyLess(a, a)
    ensures a == b || KeyLess(a, b) || KeyLess(b, a)
    ensures KeyLess(a, b) && KeyLess(b, c) ==> KeyLess(a, c)
    ensures !(KeyLess(a, b) && KeyLess(b, a))
  {
    SortKeyInjective(a, b);
    TupleIrreflexive(SortKey(a));
    TupleTotal(SortKey(a), SortKey(b));
    if KeyLess(a, b) && KeyLess(b, c) {
      TupleTransitive(SortKey(a), SortKey(b), SortKey(c));
    }
    if KeyLess(a, b) && KeyLess(b, a) {
      TupleTransitive(SortKey(a), SortKey(b), SortKey(a));
    }
  }
}
