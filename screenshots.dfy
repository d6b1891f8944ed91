/** Screenshot file names: `layout_discovery_<YYYYMMDD_HHMMSS>.png` inside the screenshot
    directory, and the glob `layout_discovery_*.png` that cleanup uses to find old ones. */
module Screenshots {
  import opened Wrappers
  import opened Files

  const SHOT_PREFIX := "layout_discovery_"
  const SHOT_SUFFIX := ".png"

  /** A local wall-clock time as `datetime.now()` yields it (microseconds play no part). */
  datatype DateTime = DateTime(year: int, month: int, day: int, hour: int, minute: int, second: int)

  function DaysInMonth(year: int, month: int): int
    requires 1 <= month <= 12
  {
    if month == 2 then (if (year % 4 == 0 && year % 100 != 0) || year % 400 == 0 then 29 else 28)
    else if month in {4, 6, 9, 11} then 30
    else 31
  }

  /** The range a Python `datetime` guarantees for each field. */
  predicate ValidDateTime(t: DateTime)
  {
    && 1 <= t.year <= 9999
    && 1 <= t.month <= 12
    && 1 <= t.day <= DaysInMonth(t.year, t.month)
    && 0 <= t.hour < 24
    && 0 <= t.minute < 60
    && 0 <= t.second < 60
  }

  predicate IsDigit(c: char) { '0' <= c <= '9' }

  function Digit(d: int): (c: char)
    requires 0 <= d < 10
    ensures IsDigit(c)
  {
    (('0' as int) + d) as char
  }

  function DigitValue(c: char): int
    requires IsDigit(c)
  {
    (c as int) - ('0' as int)
  }

  /** `%m`, `%d`, `%H`, `%M`, `%S`: two decimal digits, zero-padded. */
  function Pad2(n: int): (s: string)
    requires 0 <= n < 100
    ensures |s| == 2 && IsDigit(s[0]) && IsDigit(s[1])
  {
    [Digit(n / 10), Digit(n % 10)]
  }

  /** `%Y`: four decimal digits, zero-padded. */
  function Pad4(n: int): (s: string)
    requires 0 <= n < 10000
    ensures |s| == 4 && forall i :: 0 <= i < 4 ==> IsDigit(s[i])
  {
    [Digit(n / 1000), Digit(n / 100 % 10), Digit(n / 10 % 10), Digit(n % 10)]
  }

  /** The decimal value of a string of digits. */
  function Decimal(s: string): int
    requires forall i :: 0 <= i < |s| ==> IsDigit(s[i])
  {
    if s == [] then 0 else Decimal(s[..|s| - 1]) * 10 + DigitValue(s[|s| - 1])
  }

  lemma DigitRoundTrip(d: int)
    requires 0 <= d < 10
    ensures DigitValue(Digit(d)) == d
  {
  }

  lemma Pad2Value(n: int)
    requires 0 <= n < 100
    ensures Decimal(Pad2(n)) == n
  {
    var s := Pad2(n);
    DigitRoundTrip(n / 10);
    DigitRoundTrip(n % 10);
    assert s[..1][..0] == [];
    assert Decimal(s[..1]) == n / 10;
    assert Decimal(s) == Decimal(s[..1]) * 10 + n % 10;
  }

  lemma Pad4Value(n: int)
    requires 0 <= n < 10000
    ensures Decimal(Pad4(n)) == n
  {
    var s := Pad4(n);
    DigitRoundTrip(n / 1000);
    DigitRoundTrip(n / 100 % 10);
    DigitRoundTrip(n / 10 % 10);
    DigitRoundTrip(n % 10);
    assert s[..1][..0] == [];
    assert s[..2][..1] == s[..1];
    assert s[..3][..2] == s[..2];
    assert Decimal(s[..1]) == n / 1000;
    assert Decimal(s[..2]) == n / 100;
    assert Decimal(s[..3]) == n / 10;
    assert Decimal(s) == Decimal(s[..3]) * 10 + n % 10;
  }

  /** `strftime("%Y%m%d_%H%M%S")`. */
  function Stamp(t: DateTime): (s: string)
    requires ValidDateTime(t)
  {
    Pad4(t.year) + Pad2(t.month) + Pad2(t.day) + "_" + Pad2(t.hour) + Pad2(t.minute) + Pad2(t.second)
  }

  /** The stamp is 15 characters: eight digits, an underscore, six digits. */
  predicate StampShaped(s: string)
  {
    && |s| == 15
    && s[8] == '_'
    && (forall i :: 0 <= i < 8 ==> IsDigit(s[i]))
    && (forall i :: 9 <= i < 15 ==> IsDigit(s[i]))
  }

  /** The inverse of `Stamp`: reads a 15-character stamp back as a time. */
  function ParseStamp(s: string): (r: Option<DateTime>)
    ensures r.Some? ==> ValidDateTime(r.value)
  {
    if !StampShaped(s) then None
    else
      var t := DateTime(Decimal(s[0..4]), Decimal(s[4..6]), Decimal(s[6..8]),
                        Decimal(s[9..11]), Decimal(s[11..13]), Decimal(s[13..15]));
      if ValidDateTime(t) then Some(t) else None
  }

  lemma StampRoundTrip(t: DateTime)
    requires ValidDateTime(t)
    ensures StampShaped(Stamp(t))
    ensures ParseStamp(Stamp(t)) == Some(t)
  {
    var s := Stamp(t);
    assert s[0..4] == Pad4(t.year);
    assert s[4..6] == Pad2(t.month);
    assert s[6..8] == Pad2(t.day);
    assert s[9..11] == Pad2(t.hour);
    assert s[11..13] == Pad2(t.minute);
    assert s[13..15] == Pad2(t.second);
    Pad4Value(t.year);
    Pad2Value(t.month);
    Pad2Value(t.day);
    Pad2Value(t.hour);
    Pad2Value(t.minute);
    Pad2Value(t.second);
  }

  /** A directory entry the glob `layout_discovery_*.png` matches (`*` may be empty). */
  predicate IsShotName(name: string)
  {
    && '/' !in name
    && |name| >= |SHOT_PREFIX| + |SHOT_SUFFIX|
    && name[..|SHOT_PREFIX|] == SHOT_PREFIX
    && name[|name| - |SHOT_SUFFIX|..] == SHOT_SUFFIX
  }

  /** The name `capture_screenshot` gives the new image. */
  function ShotName(t: DateTime): string
    requires ValidDateTime(t)
  {
    SHOT_PREFIX + Stamp(t) + SHOT_SUFFIX
  }

  /** The part of a matching name that the glob's `*` stands for, read back as a time. */
  function ParseShotName(name: string): Option<DateTime>
  {
    if IsShotName(name) then ParseStamp(name[|SHOT_PREFIX|..|name| - |SHOT_SUFFIX|]) else None
  }

  /** The screenshot name matches the cleanup glob and encodes its time exactly, so two
      captures get the same name only when they fall in the same second. */
  lemma ShotNameRoundTrip(t: DateTime)
    requires ValidDateTime(t)
    ensures IsShotName(ShotName(t))
    ensures ParseShotName(ShotName(t)) == Some(t)
  {
    StampRoundTrip(t);
    FramedStamp(Stamp(t));
  }

  /** Framing a stamp with the prefix and the suffix gives a matching name that reads back as
      the stamp. */
  lemma FramedStamp(s: string)
    requires StampShaped(s)
    ensures IsShotName(SHOT_PREFIX + s + SHOT_SUFFIX)
    ensures ParseShotName(SHOT_PREFIX + s + SHOT_SUFFIX) == ParseStamp(s)
  {
    var name := SHOT_PREFIX + s + SHOT_SUFFIX;
    assert name[..|SHOT_PREFIX|] == SHOT_PREFIX;
    assert name[|name| - |SHOT_SUFFIX|..] == SHOT_SUFFIX;
    assert name[|SHOT_PREFIX|..|name| - |SHOT_SUFFIX|] == s;
    forall i | 0 <= i < |name|
      ensures name[i] != '/'
    {
      if i >= |SHOT_PREFIX| && i < |SHOT_PREFIX| + 15 {
        assert name[i] == s[i - |SHOT_PREFIX|];
      }
    }
  }

  /** `os.path.join(SCREENSHOTS_DIR, f"layout_discovery_{timestamp}.png")`. */
  function ShotPath(dir: string, t: DateTime): string
    requires ValidDateTime(t)
  {
    Join(dir, ShotName(t))
  }

  /** A path that `glob.glob(os.path.join(dir, "layout_discovery_*.png"))` reports. */
  predicate InGlob(dir: string, path: string)
  {
    var n := EntryName(dir, path);
    n.Some? && IsShotName(n.value)
  }

  /** The glob's result, as a set: every stored file of the directory whose name matches. */
  function Matches(files: map<string, FileData>, dir: string): (m: set<string>)
    ensures m <= files.Keys
    ensures forall p :: p in m <==> p in files && InGlob(dir, p)
  {
    set p | p in files && InGlob(dir, p)
  }

  lemma ShotPathInGlob(dir: string, t: DateTime)
    requires ValidDateTime(t)
    ensures InGlob(dir, ShotPath(dir, t))
    ensures EntryName(dir, ShotPath(dir, t)) == Some(ShotName(t))
  {
    ShotNameRoundTrip(t);
    EntryNameOfJoin(dir, ShotName(t));
  }

  /** After cleanup removed `removed` (some of the old matches) and the new image was written,
      the glob finds exactly the old matches whose removal failed, plus the new image. */
  lemma MatchesAfterCapture(files: map<string, FileData>, dir: string, removed: set<string>, t: DateTime)
    requires ValidDateTime(t)
    requires removed <= Matches(files, dir)
    ensures Matches((files - removed)[ShotPath(dir, t) := Png], dir)
            == (Matches(files, dir) - removed) + {ShotPath(dir, t)}
  {
    ShotPathInGlob(dir, t);
  }

  /** Hence, when every removal succeeded, exactly one matching file remains: the new one. */
  lemma OnlyNewShotRemains(files: map<string, FileData>, dir: string, t: DateTime)
    requires ValidDateTime(t)
    ensures Matches((files - Matches(files, dir))[ShotPath(dir, t) := Png], dir) == {ShotPath(dir, t)}
  {
    MatchesAfterCapture(files, dir, Matches(files, dir), t);
  }
}
