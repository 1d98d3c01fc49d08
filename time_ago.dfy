/** The relative-time label shown beside a post: `formatTimeAgo` of
    components/social/PostCard.jsx. The clock read and the parsing of the
    post's timestamp are inputs: `now` is the current time in milliseconds
    and `posted` the post's creation time in milliseconds, or None when the
    timestamp does not parse (the JavaScript Date is then NaN). */
module TimeAgo {
  import opened Wrappers
  import opened Decimal

  const MillisPerSecond: nat := 1000
  const SecondsPerMinute: nat := 60
  const SecondsPerHour: nat := 3600
  const SecondsPerDay: nat := 86400

  datatype TimeUnit = Minute | Hour | Day

  /** What the label says: "just now", a count of whole units ago, or the
      label a NaN elapsed time falls through to. */
  datatype Label = JustNow | Ago(count: nat, unit: TimeUnit) | Undated

  const JustNowText: string := "ახლა ხანს"
  const AgoWord: string := " წინ"
  const NotANumber: string := "NaN"

  function UnitSeconds(u: TimeUnit): nat {
    match u
    case Minute => SecondsPerMinute
    case Hour => SecondsPerHour
    case Day => SecondsPerDay
  }

  /** The Georgian noun after the count, with its leading space. */
  function UnitWord(u: TimeUnit): string {
    match u
    case Minute => " წუთის"
    case Hour => " საათის"
    case Day => " დღის"
  }

  /** The plural ending chosen by `count > 1`: both arms are empty, so the
      ending never depends on the count. */
  function PluralSuffix(count: nat): (r: string)
    ensures r == []
  {
    if count > 1 then "" else ""
  }

  /** Whole seconds elapsed, rounded toward negative infinity as
      `Math.floor(ms / 1000)` does (a future timestamp gives a negative
      value). */
  function SecondsBetween(now: int, posted: int): (s: int)
    ensures MillisPerSecond * s <= now - posted < MillisPerSecond * (s + 1)
  {
    (now - posted) / MillisPerSecond
  }

  /** The labels the bucketing can produce: a positive count, below 60
      for minutes and below 24 for hours. */
  predicate WellFormed(l: Label) {
    match l
    case JustNow => true
    case Undated => true
    case Ago(c, u) =>
      && 1 <= c
      && (u == Minute ==> c < 60)
      && (u == Hour ==> c < 24)
  }

  /** The seconds whose label is the well-formed label l: for Ago(c, u),
      the whole interval in which the floor of seconds per unit is c. */
  predicate InBucket(s: int, l: Label) {
    match l
    case JustNow => s < SecondsPerMinute
    case Undated => false
    case Ago(c, u) => UnitSeconds(u) * c <= s < UnitSeconds(u) * (c + 1)
  }

  /** The four buckets of `formatTimeAgo`, chosen from the elapsed seconds. */
  function Classify(s: int): (l: Label)
    ensures WellFormed(l) && InBucket(s, l)
    ensures l.JustNow? <==> s < SecondsPerMinute
    ensures l.Ago? && l.unit == Minute <==> SecondsPerMinute <= s < SecondsPerHour
    ensures l.Ago? && l.unit == Hour <==> SecondsPerHour <= s < SecondsPerDay
    ensures l.Ago? && l.unit == Day <==> SecondsPerDay <= s
  {
    if s < SecondsPerMinute then JustNow
    else if s < SecondsPerHour then Ago(s / SecondsPerMinute, Minute)
    else if s < SecondsPerDay then Ago(s / SecondsPerHour, Hour)
    else Ago(s / SecondsPerDay, Day)
  }

  /** The text of a label, as the template literals build it. */
  function Render(l: Label): string {
    match l
    case JustNow => JustNowText
    case Ago(c, u) => NatToString(c) + UnitWord(u) + PluralSuffix(c) + AgoWord
    case Undated => NotANumber + UnitWord(Day) + AgoWord
  }

  /** `formatTimeAgo(timestamp)` at clock reading `now`. */
  function FormatTimeAgo(now: int, posted: Option<int>): (r: string)
    ensures posted.None? ==> r == "NaN დღის წინ"
    ensures posted.Some? ==> (r == "ახლა ხანს" <==> now - posted.value < 60_000)
    ensures posted.Some? && 60_000 <= now - posted.value < 3_600_000 ==>
              r == NatToString((now - posted.value) / 60_000) + " წუთის წინ"
    ensures posted.Some? && 3_600_000 <= now - posted.value < 86_400_000 ==>
              r == NatToString((now - posted.value) / 3_600_000) + " საათის წინ"
    ensures posted.Some? && 86_400_000 <= now - posted.value ==>
              r == NatToString((now - posted.value) / 86_400_000) + " დღის წინ"
  {
    match posted
    case None => Render(Undated)
    case Some(t) =>
      var l := Classify(SecondsBetween(now, t));
      RenderIsJustNow(l);
      if l.Ago? then
        FloorOfFloor(now - t, l.count, UnitSeconds(l.unit));
        Render(l)
      else
        Render(l)
  }

  /** The first character of a label's text tells the three kinds apart:
      a digit for a count, 'N' for NaN, a Georgian letter for "just now". */
  lemma RenderStart(l: Label)
    ensures |Render(l)| > 0
    ensures IsDigit(Render(l)[0]) <==> l.Ago?
    ensures Render(l)[0] == 'N' <==> l.Undated?
  {
  }

  /** Only the "just now" label renders as the "just now" text. */
  lemma RenderIsJustNow(l: Label)
    ensures Render(l) == JustNowText <==> l.JustNow?
  {
  }

  /** Flooring milliseconds to seconds and then seconds to units gives the
      same count as flooring milliseconds to units directly. */
  lemma FloorOfFloor(ms: int, c: nat, unit: nat)
    requires unit > 0
    requires unit * c <= ms / MillisPerSecond < unit * (c + 1)
    ensures c == ms / (MillisPerSecond * unit)
  {
    var s := ms / MillisPerSecond;
    var w := MillisPerSecond * unit;
    assert MillisPerSecond * s <= ms < MillisPerSecond * (s + 1);
    assert MillisPerSecond * (unit * c) <= MillisPerSecond * s;
    assert w * c <= ms by {
      assert w * c == MillisPerSecond * (unit * c);
    }
    assert ms < w * (c + 1) by {
      assert MillisPerSecond * (s + 1) <= MillisPerSecond * (unit * (c + 1));
      assert w * (c + 1) == MillisPerSecond * (unit * (c + 1));
    }
    var q := ms / w;
    UniqueQuotient(ms, w, q, c);
  }

  /** The buckets partition the integers: a well-formed label is produced
      for exactly the seconds in its bucket. */
  lemma ClassifyExactly(s: int, l: Label)
    requires WellFormed(l)
    ensures Classify(s) == l <==> InBucket(s, l)
  {
  }

  /** An integer lies in exactly one interval [u * a, u * (a + 1)). */
  lemma UniqueQuotient(s: int, u: nat, a: int, b: int)
    requires u > 0
    requires u * a <= s < u * (a + 1)
    requires u * b <= s < u * (b + 1)
    ensures a == b
  {
  }

  /** The text of a label determines the label. */
  lemma RenderInjective(l1: Label, l2: Label)
    requires Render(l1) == Render(l2)
    ensures l1 == l2
  {
    RenderStart(l1);
    RenderStart(l2);
    if l1.Ago? && l2.Ago? {
      var d1, d2 := NatToString(l1.count), NatToString(l2.count);
      var w1, w2 := UnitWord(l1.unit) + AgoWord, UnitWord(l2.unit) + AgoWord;
      assert Render(l1) == d1 + w1;
      assert Render(l2) == d2 + w2;
      SplitAtFirstSpace(d1, w1, d2, w2);
      NatToStringInjective(l1.count, l2.count);
      assert UnitWord(l1.unit) == UnitWord(l2.unit);
    }
  }

  /** Two posts show the same label exactly when their elapsed seconds fall
      in the same bucket with the same count: the elapsed seconds alone
      determine the text, and the text identifies the bucket. */
  lemma SameTextIffSameLabel(now1: int, posted1: int, now2: int, posted2: int)
    ensures FormatTimeAgo(now1, Some(posted1)) == FormatTimeAgo(now2, Some(posted2))
        <==> Classify(SecondsBetween(now1, posted1)) == Classify(SecondsBetween(now2, posted2))
  {
    var l1 := Classify(SecondsBetween(now1, posted1));
    var l2 := Classify(SecondsBetween(now2, posted2));
    if FormatTimeAgo(now1, Some(posted1)) == FormatTimeAgo(now2, Some(posted2)) {
      RenderInjective(l1, l2);
    }
  }

  /** Order of labels along elapsed time. */
  function UnitRank(u: TimeUnit): nat {
    match u
    case Minute => 0
    case Hour => 1
    case Day => 2
  }

  predicate NoLaterThan(l1: Label, l2: Label) {
    || l1.JustNow?
    || (&& l1.Ago? && l2.Ago?
        && (|| UnitRank(l1.unit) < UnitRank(l2.unit)
            || (l1.unit == l2.unit && l1.count <= l2.count)))
  }

  /** As the clock advances, the label never moves back: it leaves "just
      now" for minutes, hours and days in that order, and the count within
      one unit never decreases. */
  lemma LabelAdvancesWithClock(now1: int, now2: int, posted: int)
    requires now1 <= now2
    ensures NoLaterThan(Classify(SecondsBetween(now1, posted)), Classify(SecondsBetween(now2, posted)))
  {
  }
}
