/** `VideoRow`, the row of a video in a list: the view-count label, the duration
    label, the caption made of the two, and the buttons that open the video. */
module VideoRow {
  import opened Wrappers
  import opened Text
  import opened SwiftNumbers
  import opened VideoModel
  import opened Navigation

  // ------------------------------------------------------------ view counts

  /** The divisor of the band `n` falls in: thousands below a million, millions above. */
  function Unit(n: nat): nat {
    if n < 1_000_000 then 1000 else 1_000_000
  }

  /** The suffix of that band. */
  function Suffix(n: nat): char {
    if n < 1_000_000 then 'k' else 'M'
  }

  /** `%.1f` of `tenths / 10`: the whole part, a point and one decimal digit. */
  function OneDecimal(tenths: nat): string {
    NatToString(tenths / 10) + "." + [DigitChar(tenths % 10)]
  }

  /** `n / unit` as `formatViews` prints it: `%.0f` when the quotient is whole, else
      `%.1f`, rounded to the nearest tenth (half up). */
  function Mantissa(n: nat, unit: nat): string
    requires unit == 1000 || unit == 1_000_000
  {
    if n % unit == 0 then NatToString(n / unit) else OneDecimal(RoundedTenths(n, unit))
  }

  /** `n / unit` in tenths, rounded half up. */
  function RoundedTenths(n: nat, unit: nat): nat
    requires unit == 1000 || unit == 1_000_000
  {
    (10 * n + unit / 2) / unit
  }

  /** The value `w.d` stands for in units of `unit`, for `t` tenths. */
  function TenthsValue(t: nat, unit: nat): nat
    requires unit == 1000 || unit == 1_000_000
  {
    (t / 10) * unit + (t % 10) * (unit / 10)
  }

  predicate IsCountChar(c: char) {
    IsDigit(c) || c == '.' || c == 'k' || c == 'M'
  }

  /** `formatViews`: the plain digits below a thousand, otherwise the quotient by the
      band's divisor followed by `k` or `M`; a decimal point appears exactly when the
      count is not a whole multiple of the divisor. */
  function FormatViews(n: nat): (s: string)
    ensures |s| >= 1 && forall i :: 0 <= i < |s| ==> IsCountChar(s[i])
    ensures n < 1000 <==> AllDigits(s)
    ensures 1000 <= n < 1_000_000 <==> s[|s| - 1] == 'k'
    ensures n >= 1_000_000 <==> s[|s| - 1] == 'M'
    ensures '.' in s <==> n >= 1000 && n % Unit(n) != 0
  {
    if n < 1000 then NatToString(n) else Mantissa(n, Unit(n)) + [Suffix(n)]
  }

  /** Reads a count label back: digits, optionally with one decimal, then `k` or `M`. */
  function ParseCount(s: string): Option<nat> {
    if s == [] then None
    else if s[|s| - 1] == 'k' then ParseScaled(s[..|s| - 1], 1000)
    else if s[|s| - 1] == 'M' then ParseScaled(s[..|s| - 1], 1_000_000)
    else ParseNat(s)
  }

  function ParseScaled(m: string, unit: nat): Option<nat>
    requires unit == 1000 || unit == 1_000_000
  {
    if |m| >= 3 && m[|m| - 2] == '.' && IsDigit(m[|m| - 1]) then
      match ParseNat(m[..|m| - 2])
      case Some(w) => Some(w * unit + DigitValue(m[|m| - 1]) * (unit / 10))
      case None => None
    else
      match ParseNat(m)
      case Some(q) => Some(q * unit)
      case None => None
  }

  /** A count label reads back as the count itself when it is below a thousand or a
      whole multiple of its band's divisor, and otherwise as the count rounded to the
      nearest tenth of that divisor. */
  lemma {:induction false} FormatViewsReadsBack(n: nat)
    ensures ParseCount(FormatViews(n)).Some?
    ensures n < 1000 || n % Unit(n) == 0 ==> ParseCount(FormatViews(n)) == Some(n)
    ensures n >= 1000 ==>
      10 * n - Unit(n) / 2 < 10 * ParseCount(FormatViews(n)).value <= 10 * n + Unit(n) / 2
  {
    if n < 1000 {
      var s := FormatViews(n);
      NatToStringRoundTrip(n);
      assert s[|s| - 1] != 'k' && s[|s| - 1] != 'M';
    } else {
      BandReadsBack(n);
    }
  }

  lemma {:induction false} BandReadsBack(n: nat)
    requires n >= 1000
    ensures ParseCount(FormatViews(n)) == ParseScaled(Mantissa(n, Unit(n)), Unit(n))
    ensures n % Unit(n) == 0 ==> ParseScaled(Mantissa(n, Unit(n)), Unit(n)) == Some(n)
    ensures n % Unit(n) != 0 ==> ParseScaled(Mantissa(n, Unit(n)), Unit(n)).Some?
    ensures n % Unit(n) != 0 ==>
      10 * n - Unit(n) / 2 < 10 * ParseScaled(Mantissa(n, Unit(n)), Unit(n)).value <= 10 * n + Unit(n) / 2
  {
    var u := Unit(n);
    var s := FormatViews(n);
    assert s[..|s| - 1] == Mantissa(n, u);
    MantissaReadsBack(n, u);
  }

  lemma MantissaReadsBack(n: nat, u: nat)
    requires u == 1000 || u == 1_000_000
    ensures n % u == 0 ==> ParseScaled(Mantissa(n, u), u) == Some(n)
    ensures n % u != 0 ==> ParseScaled(Mantissa(n, u), u).Some?
    ensures n % u != 0 ==> 10 * n - u / 2 < 10 * ParseScaled(Mantissa(n, u), u).value <= 10 * n + u / 2
  {
    if n % u == 0 {
      WholeMantissaReadsBack(n, u);
    } else {
      RoundedMantissaReadsBack(n, u);
    }
  }

  lemma {:induction false} WholeMantissaReadsBack(n: nat, u: nat)
    requires u == 1000 || u == 1_000_000
    requires n % u == 0
    ensures ParseScaled(Mantissa(n, u), u) == Some(n)
  {
    assert Mantissa(n, u) == NatToString(n / u);
    WholeReadsBack(n / u, u);
    assert (n / u) * u == n;
  }

  lemma {:induction false} RoundedMantissaReadsBack(n: nat, u: nat)
    requires u == 1000 || u == 1_000_000
    requires n % u != 0
    ensures ParseScaled(Mantissa(n, u), u).Some?
    ensures 10 * n - u / 2 < 10 * ParseScaled(Mantissa(n, u), u).value <= 10 * n + u / 2
  {
    var t := RoundedTenths(n, u);
    assert Mantissa(n, u) == OneDecimal(t);
    OneDecimalReadsBack(t, u);
    TenthsBounds(n, u);
  }

  lemma {:induction false} WholeReadsBack(q: nat, u: nat)
    requires u == 1000 || u == 1_000_000
    ensures ParseScaled(NatToString(q), u) == Some(q * u)
  {
    var m := NatToString(q);
    NatToStringRoundTrip(q);
    assert |m| >= 3 ==> IsDigit(m[|m| - 2]);
  }

  lemma {:induction false} OneDecimalReadsBack(t: nat, u: nat)
    requires u == 1000 || u == 1_000_000
    ensures ParseScaled(OneDecimal(t), u) == Some(TenthsValue(t, u))
  {
    var m := OneDecimal(t);
    NatToStringRoundTrip(t / 10);
    DigitValueOfChar(t % 10);
    assert m[..|m| - 2] == NatToString(t / 10);
  }

  /** The arithmetic of rounding to tenths, one band at a time. */
  lemma TenthsBounds(n: nat, u: nat)
    requires u == 1000 || u == 1_000_000
    ensures 10 * n - u / 2 < 10 * TenthsValue(RoundedTenths(n, u), u) <= 10 * n + u / 2
  {
    var t := RoundedTenths(n, u);
    if u == 1000 {
      assert (t / 10) * 1000 + (t % 10) * 100 == 100 * t;
    } else {
      assert (t / 10) * 1_000_000 + (t % 10) * 100_000 == 100_000 * t;
    }
  }

  // ---------------------------------------------------------------- durations

  /** `formatDuration`: `Int(seconds)` split into hours, minutes and seconds with
      Swift's integer `/` and `%`, printed `%d:%02d:%02d` when there is at least one
      hour and `%d:%02d` otherwise. */
  function FormatDuration(seconds: real): (s: string)
    ensures forall i :: 0 <= i < |s| ==> IsClockChar(s[i])
  {
    var total := Trunc(seconds);
    ClockLabel(Quot(total, 3600), Quot(Rem(total, 3600), 60), Rem(total, 60))
  }

  /** The label of an hours, minutes and seconds triple, as both `formatDuration`s
      print it. */
  function ClockLabel(hrs: int, mins: int, secs: int): (s: string)
    ensures forall i :: 0 <= i < |s| ==> IsClockChar(s[i])
  {
    var secsField := ":" + Pad2(secs);
    ClockCharsJoin(":" , Pad2(secs));
    if hrs > 0 then
      var minsField := ":" + Pad2(mins);
      ClockCharsJoin(":", Pad2(mins));
      ClockCharsJoin(IntToString(hrs), minsField);
      ClockCharsJoin(IntToString(hrs) + minsField, secsField);
      IntToString(hrs) + minsField + secsField
    else
      ClockCharsJoin(IntToString(mins), secsField);
      IntToString(mins) + secsField
  }

  predicate IsClockChar(c: char) {
    IsDigit(c) || c == ':' || c == '-'
  }

  lemma ClockCharsJoin(a: string, b: string)
    requires forall i :: 0 <= i < |a| ==> IsClockChar(a[i])
    requires forall i :: 0 <= i < |b| ==> IsClockChar(b[i])
    ensures forall i :: 0 <= i < |a + b| ==> IsClockChar((a + b)[i])
  {
  }

  /** A label with an hours field: two colons, three and six places from the end. */
  predicate HasHours(s: string) {
    |s| >= 7 && s[|s| - 3] == ':' && s[|s| - 6] == ':'
  }

  /** Reads a clock label back as a number of seconds. */
  function ParseClock(s: string): Option<nat> {
    if HasHours(s) then
      match (ParseNat(s[..|s| - 6]), ParseNat(s[|s| - 5..|s| - 3]), ParseNat(s[|s| - 2..]))
      case (Some(h), Some(m), Some(x)) => Some(3600 * h + 60 * m + x)
      case _ => None
    else if |s| >= 4 && s[|s| - 3] == ':' then
      match (ParseNat(s[..|s| - 3]), ParseNat(s[|s| - 2..]))
      case (Some(m), Some(x)) => Some(60 * m + x)
      case _ => None
    else None
  }

  /** For a non-negative whole number of seconds the split is exact: minutes and
      seconds are in `[0, 60)` and recombine with the hours to the total. */
  lemma Decomposition(total: int)
    requires total >= 0
    ensures 0 <= Quot(Rem(total, 3600), 60) < 60 && 0 <= Rem(total, 60) < 60
    ensures Quot(total, 3600) >= 0
    ensures 3600 * Quot(total, 3600) + 60 * Quot(Rem(total, 3600), 60) + Rem(total, 60) == total
  {
  }

  /** The label of a triple with minutes and seconds in `[0, 60)` reads back as the
      number of seconds it stands for, and has an hours field exactly when `hrs > 0`. */
  lemma ClockLabelReadsBack(hrs: nat, mins: nat, secs: nat)
    requires mins < 60 && secs < 60
    ensures ParseClock(ClockLabel(hrs, mins, secs)) == Some(3600 * hrs + 60 * mins + secs)
    ensures HasHours(ClockLabel(hrs, mins, secs)) <==> hrs > 0
  {
    if hrs > 0 {
      LongLabelReadsBack(hrs, mins, secs);
    } else {
      ShortLabelReadsBack(mins, secs);
    }
  }

  lemma {:induction false} LongLabelReadsBack(hrs: nat, mins: nat, secs: nat)
    requires hrs > 0 && mins < 60 && secs < 60
    ensures ParseClock(ClockLabel(hrs, mins, secs)) == Some(3600 * hrs + 60 * mins + secs)
    ensures HasHours(ClockLabel(hrs, mins, secs))
  {
    var h, m, x := NatToString(hrs), Pad2(mins), Pad2(secs);
    assert ClockLabel(hrs, mins, secs) == h + ":" + m + ":" + x;
    Pad2RoundTrip(mins);
    Pad2RoundTrip(secs);
    NatToStringRoundTrip(hrs);
    ParseLong(h, m, x, hrs, mins, secs);
  }

  lemma {:induction false} ShortLabelReadsBack(mins: nat, secs: nat)
    requires mins < 60 && secs < 60
    ensures ParseClock(ClockLabel(0, mins, secs)) == Some(60 * mins + secs)
    ensures !HasHours(ClockLabel(0, mins, secs))
  {
    var m, x := NatToString(mins), Pad2(secs);
    assert ClockLabel(0, mins, secs) == m + ":" + x;
    Pad2RoundTrip(secs);
    NatToStringRoundTrip(mins);
    ParseShort(m, x, mins, secs);
  }

  /** A three-field label reads back field by field. */
  lemma ParseLong(h: string, m: string, x: string, hv: nat, mv: nat, xv: nat)
    requires |m| == 2 && |x| == 2
    requires ParseNat(h) == Some(hv) && ParseNat(m) == Some(mv) && ParseNat(x) == Some(xv)
    ensures ParseClock(h + ":" + m + ":" + x) == Some(3600 * hv + 60 * mv + xv)
    ensures HasHours(h + ":" + m + ":" + x)
  {
    var s := h + ":" + m + ":" + x;
    assert |h| >= 1;
    assert s[..|s| - 6] == h && s[|s| - 5..|s| - 3] == m && s[|s| - 2..] == x;
  }

  /** A two-field label with at most two minute digits reads back field by field. */
  lemma ParseShort(m: string, x: string, mv: nat, xv: nat)
    requires |m| <= 2 && |x| == 2
    requires ParseNat(m) == Some(mv) && ParseNat(x) == Some(xv)
    ensures ParseClock(m + ":" + x) == Some(60 * mv + xv)
    ensures !HasHours(m + ":" + x)
  {
    var s := m + ":" + x;
    assert |m| >= 1;
    assert s[..|s| - 3] == m && s[|s| - 2..] == x;
  }

  /** For a non-negative duration the label reads back as its whole number of seconds,
      and has three fields exactly when the duration is at least an hour. */
  lemma FormatDurationReadsBack(seconds: real)
    requires seconds >= 0.0
    ensures ParseClock(FormatDuration(seconds)) == Some(seconds.Floor)
    ensures HasHours(FormatDuration(seconds)) <==> seconds >= 3600.0
  {
    var total := Trunc(seconds);
    var hrs, mins, secs := Quot(total, 3600), Quot(Rem(total, 3600), 60), Rem(total, 60);
    assert FormatDuration(seconds) == ClockLabel(hrs, mins, secs);
    Decomposition(total);
    ClockLabelReadsBack(hrs, mins, secs);
    assert hrs > 0 <==> total >= 3600;
  }

  // ------------------------------------------------------------------ caption

  /** The separator `VideoRow` places before the duration: the UTF-8 bytes of the
      bullet `•` read back as Latin-1/Windows-1252 characters. */
  const MojibakeSeparator: string := " â€¢ "

  /** The separator the other copy of the row uses, a bullet. */
  const BulletSeparator: string := " • "

  /** `"<views> views"`, followed by the separator and the duration label when the
      video has a duration. */
  function CaptionWith(separator: string, v: Video): (s: string)
    ensures StartsWith(s, FormatViews(v.views) + " views")
    ensures v.duration.None? ==> s == FormatViews(v.views) + " views"
  {
    FormatViews(v.views) + " views" + (if v.duration.Some? then separator + FormatDuration(v.duration.value) else "")
  }

  /** The caption as `VideoRow` writes it. */
  function Caption(v: Video): string {
    CaptionWith(MojibakeSeparator, v)
  }

  /** The caption as intended, and as the channel page's copy of the row writes it. */
  function IntendedCaption(v: Video): string {
    CaptionWith(BulletSeparator, v)
  }

  /** No character of a count label, the word ` views` or a duration label is a bullet
      or one of the mojibake characters. */
  lemma {:induction false} PartsAreAscii(v: Video, c: char)
    requires c == '•' || c == 'â'
    ensures c !in FormatViews(v.views) + " views"
    ensures v.duration.Some? ==> c !in FormatDuration(v.duration.value)
  {
    var views := FormatViews(v.views);
    assert forall i :: 0 <= i < |views| ==> views[i] != c;
    var w := views + " views";
    assert forall i :: 0 <= i < |w| ==> w[i] != c by {
      forall i | 0 <= i < |w| ensures w[i] != c {
        if i < |views| {
          assert w[i] == views[i];
        }
      }
    }
  }

  /** As written, a caption with a duration shows the three mojibake characters and
      never the bullet. */
  lemma {:induction false} CaptionShowsMojibake(v: Video)
    requires v.duration.Some?
    ensures Contains(Caption(v), "â€¢")
    ensures '•' !in Caption(v)
  {
    var head := FormatViews(v.views) + " views";
    var d := FormatDuration(v.duration.value);
    assert Caption(v) == head + MojibakeSeparator + d;
    PartsAreAscii(v, '•');
    MojibakeBetween(head, d);
  }

  /** Any two bullet-free strings joined by the mojibake separator. */
  lemma {:induction false} MojibakeBetween(head: string, d: string)
    requires '•' !in head && '•' !in d
    ensures Contains(head + MojibakeSeparator + d, "â€¢")
    ensures '•' !in head + MojibakeSeparator + d
  {
    var s := head + MojibakeSeparator + d;
    var n := |head|;
    assert s[n + 1] == 'â' && s[n + 2] == '€' && s[n + 3] == '¢';
    assert s[n + 1..n + 4] == "â€¢";
    ContainsAt(s, "â€¢", n + 1);
    forall i | 0 <= i < |s| ensures s[i] != '•' {
      if i < n {
        assert s[i] == head[i];
      } else if i >= n + 5 {
        assert s[i] == d[i - n - 5];
      }
    }
  }

  /** The intended caption shows the bullet exactly when the video has a duration, and
      never a mojibake character. */
  lemma {:induction false} IntendedCaptionShowsBullet(v: Video)
    ensures '•' in IntendedCaption(v) <==> v.duration.Some?
    ensures 'â' !in IntendedCaption(v)
  {
    var head := FormatViews(v.views) + " views";
    var s := IntendedCaption(v);
    PartsAreAscii(v, '•');
    PartsAreAscii(v, 'â');
    if v.duration.Some? {
      var d := FormatDuration(v.duration.value);
      assert s == head + BulletSeparator + d;
      assert s[|head| + 1] == '•';
      assert forall i :: 0 <= i < |s| ==> s[i] != 'â' by {
        forall i | 0 <= i < |s| ensures s[i] != 'â' {
          if i < |head| {
            assert s[i] == head[i];
          } else if i >= |head| + 3 {
            assert s[i] == d[i - |head| - 3];
          }
        }
      }
    } else {
      assert s == head;
    }
  }

  // ------------------------------------------------------------------ buttons

  /** Both buttons of the row, the thumbnail and the title, open the video. */
  method WatchTapped(b: Bindings, video: Video)
    modifies b`selection, b`currentVideoID
    ensures b.selection == WatchVideo && b.currentVideoID == video.id
  {
    b.selection := WatchVideo;
    b.currentVideoID := video.id;
  }
}
