/**
 * File names the client builds: the net-log file name (a local timestamp plus the
 * sanitised server address) and the `Mapshots/shotNNNN.vxl` names searched for a free slot.
 */
module FileNames {
  import opened Types

  predicate IsDigit(c: char) { '0' <= c <= '9' }

  predicate AllDigits(s: string) { forall i :: 0 <= i < |s| ==> IsDigit(s[i]) }

  function DigitChar(d: nat): (c: char)
    requires d < 10
    ensures IsDigit(c) && c as int - '0' as int == d
  {
    ('0' as int + d) as char
  }

  function Pow10(k: nat): (p: nat)
    ensures p >= 1
  {
    if k == 0 then 1 else 10 * Pow10(k - 1)
  }

  /** The decimal digits of n, most significant first, without leading zeros. */
  function Decimal(n: nat): (s: string)
    ensures 1 <= |s| && AllDigits(s)
  {
    if n < 10 then [DigitChar(n)] else Decimal(n / 10) + [DigitChar(n % 10)]
  }

  /** The number a string of decimal digits denotes. */
  function DigitsValue(s: string): nat
    requires AllDigits(s)
  {
    if s == [] then 0 else DigitsValue(s[..|s| - 1]) * 10 + (s[|s| - 1] as int - '0' as int)
  }

  function Zeros(k: nat): (s: string)
    ensures |s| == k && AllDigits(s)
  {
    seq(k, _ => '0')
  }

  /** C's `printf("%0<width>d", n)`: a minus sign for negative n, then zeros up to the field width. */
  function PrintfZeroPadded(n: int, width: nat): string {
    if n < 0 then
      var d := Decimal(-n);
      "-" + (if |d| + 1 < width then Zeros(width - 1 - |d|) else "") + d
    else
      var d := Decimal(n);
      (if |d| < width then Zeros(width - |d|) else "") + d
  }

  lemma {:induction false} DecimalValue(n: nat)
    ensures DigitsValue(Decimal(n)) == n
  {
    if n >= 10 {
      var d := Decimal(n);
      assert d[..|d| - 1] == Decimal(n / 10);
      DecimalValue(n / 10);
    }
  }

  lemma {:induction false} DecimalLength(n: nat, w: nat)
    requires 1 <= w && n < Pow10(w)
    ensures |Decimal(n)| <= w
  {
    if n >= 10 {
      assert w != 1 by { assert Pow10(1) == 10; }
      assert n / 10 < Pow10(w - 1);
      DecimalLength(n / 10, w - 1);
    }
  }

  lemma {:induction false} LeadingZerosValue(z: nat, s: string)
    requires AllDigits(s)
    ensures AllDigits(Zeros(z) + s) && DigitsValue(Zeros(z) + s) == DigitsValue(s)
  {
    var t := Zeros(z) + s;
    if s == [] {
      assert t == Zeros(z);
      ZerosValue(z);
    } else {
      assert t[..|t| - 1] == Zeros(z) + s[..|s| - 1];
      LeadingZerosValue(z, s[..|s| - 1]);
    }
  }

  lemma {:induction false} ZerosValue(z: nat)
    ensures DigitsValue(Zeros(z)) == 0
  {
    if z > 0 {
      assert Zeros(z)[..z - 1] == Zeros(z - 1);
      ZerosValue(z - 1);
    }
  }

  /** A value that fits the field is printed as exactly `width` digits that read back as the value. */
  lemma PaddedFits(n: nat, width: nat)
    requires 1 <= width && n < Pow10(width)
    ensures |PrintfZeroPadded(n, width)| == width
    ensures AllDigits(PrintfZeroPadded(n, width))
    ensures DigitsValue(PrintfZeroPadded(n, width)) == n
  {
    var d := Decimal(n);
    DecimalLength(n, width);
    DecimalValue(n);
    var z := width - |d|;
    LeadingZerosValue(z, d);
    assert PrintfZeroPadded(n, width) == Zeros(z) + d by {
      if z == 0 {
        assert Zeros(0) + d == d;
      }
    }
  }

  // ---------------------------------------------------------------- net-log file name

  /** The fields of the C library's `struct tm` that the name uses (tm_year counts from 1900, tm_mon from 0). */
  datatype LocalTime = LocalTime(year: int, mon: int, mday: int, hour: int, min: int, sec: int)

  /** The `"%04d%02d%02d%02d%02d%02d_"` prefix: calendar year, month 1-12, day, hour, minute, second. */
  function Timestamp(t: LocalTime): string {
    PrintfZeroPadded(t.year + 1900, 4) + PrintfZeroPadded(t.mon + 1, 2) + PrintfZeroPadded(t.mday, 2)
    + PrintfZeroPadded(t.hour, 2) + PrintfZeroPadded(t.min, 2) + PrintfZeroPadded(t.sec, 2) + "_"
  }

  /** Every field fits its printf width (a four-digit year, two digits for the others). */
  predicate FitsWidths(t: LocalTime) {
    && 0 <= t.year + 1900 < 10000
    && 0 <= t.mon + 1 < 100
    && 0 <= t.mday < 100
    && 0 <= t.hour < 100
    && 0 <= t.min < 100
    && 0 <= t.sec < 100
  }

  /** Reads the fields back from a 15-character timestamp. */
  function DecodeTimestamp(s: string): LocalTime
    requires |s| == 15 && AllDigits(s[..14])
  {
    var digits := s[..14];
    LocalTime(DigitsValue(digits[0..4]) - 1900, DigitsValue(digits[4..6]) - 1, DigitsValue(digits[6..8]),
              DigitsValue(digits[8..10]), DigitsValue(digits[10..12]), DigitsValue(digits[12..14]))
  }

  /** Six digit fields of widths 4, 2, 2, 2, 2, 2 followed by '_' cut back into the same fields. */
  lemma SixFields(y: string, mo: string, d: string, h: string, mi: string, se: string)
    requires |y| == 4 && |mo| == 2 && |d| == 2 && |h| == 2 && |mi| == 2 && |se| == 2
    requires AllDigits(y) && AllDigits(mo) && AllDigits(d) && AllDigits(h) && AllDigits(mi) && AllDigits(se)
    ensures var s := y + mo + d + h + mi + se + "_";
      && |s| == 15 && s[14] == '_' && AllDigits(s[..14])
      && s[..14][0..4] == y && s[..14][4..6] == mo && s[..14][6..8] == d
      && s[..14][8..10] == h && s[..14][10..12] == mi && s[..14][12..14] == se
  {
    var digits := y + mo + d + h + mi + se;
    var s := digits + "_";
    assert s[..14] == digits;
    assert AllDigits(digits) by {
      forall i | 0 <= i < |digits|
        ensures IsDigit(digits[i])
      {
        if i < 4 { assert digits[i] == y[i]; }
        else if i < 6 { assert digits[i] == mo[i - 4]; }
        else if i < 8 { assert digits[i] == d[i - 6]; }
        else if i < 10 { assert digits[i] == h[i - 8]; }
        else if i < 12 { assert digits[i] == mi[i - 10]; }
        else { assert digits[i] == se[i - 12]; }
      }
    }
    assert digits[0..4] == y;
    assert digits[4..6] == mo;
    assert digits[6..8] == d;
    assert digits[8..10] == h;
    assert digits[10..12] == mi;
    assert digits[12..14] == se;
  }

  /** When every field fits, the timestamp is 14 digits and '_' and it reads back as the same time. */
  lemma TimestampRoundTrip(t: LocalTime)
    requires FitsWidths(t)
    ensures |Timestamp(t)| == 15 && Timestamp(t)[14] == '_' && AllDigits(Timestamp(t)[..14])
    ensures DecodeTimestamp(Timestamp(t)) == t
  {
    assert Pow10(2) == 100 && Pow10(4) == 10000;
    PaddedFits(t.year + 1900, 4);
    PaddedFits(t.mon + 1, 2);
    PaddedFits(t.mday, 2);
    PaddedFits(t.hour, 2);
    PaddedFits(t.min, 2);
    PaddedFits(t.sec, 2);
    SixFields(PrintfZeroPadded(t.year + 1900, 4), PrintfZeroPadded(t.mon + 1, 2), PrintfZeroPadded(t.mday, 2),
              PrintfZeroPadded(t.hour, 2), PrintfZeroPadded(t.min, 2), PrintfZeroPadded(t.sec, 2));
  }

  predicate IsAsciiAlnum(c: char) {
    ('a' <= c <= 'z') || ('A' <= c <= 'Z') || ('0' <= c <= '9')
  }

  /** One character of the host part: ASCII letters and digits stay, anything else becomes '_'. */
  function SanitizeChar(c: char): char {
    if IsAsciiAlnum(c) then c else '_'
  }

  /** The host part of the net-log name. */
  function Sanitized(host: string): (r: string)
    ensures |r| == |host|
    ensures forall i :: 0 <= i < |r| ==> IsAsciiAlnum(r[i]) || r[i] == '_'
    ensures forall i :: 0 <= i < |r| ==> (IsAsciiAlnum(host[i]) ==> r[i] == host[i])
    ensures forall i :: 0 <= i < |r| ==> (!IsAsciiAlnum(host[i]) ==> r[i] == '_')
  {
    seq(|host|, i requires 0 <= i < |host| => SanitizeChar(host[i]))
  }

  /** The whole net-log path `NetLogs/<timestamp>_<host>.log`. */
  function NetLogPath(host: string, t: LocalTime): string {
    "NetLogs/" + Timestamp(t) + Sanitized(host) + ".log"
  }

  /** Layout of the net-log path: fixed prefix and suffix, a 15-character timestamp, the sanitised host in between. */
  lemma NetLogPathLayout(host: string, t: LocalTime)
    requires FitsWidths(t)
    ensures var p := NetLogPath(host, t);
      && |p| == 8 + 15 + |host| + 4
      && p[..8] == "NetLogs/"
      && p[8..23] == Timestamp(t)
      && p[22] == '_'
      && p[23..23 + |host|] == Sanitized(host)
      && p[23 + |host|..] == ".log"
  {
    TimestampRoundTrip(t);
    FourParts("NetLogs/", Timestamp(t), Sanitized(host), ".log");
  }

  /** Slicing a four-part concatenation back into its parts. */
  lemma FourParts(a: string, b: string, c: string, d: string)
    ensures var p := a + b + c + d;
      && |p| == |a| + |b| + |c| + |d|
      && p[..|a|] == a
      && p[|a|..|a| + |b|] == b
      && p[|a| + |b|..|a| + |b| + |c|] == c
      && p[|a| + |b| + |c|..] == d
  {
  }

  /**
   * Builds the net-log path the way the client does: the timestamp prefix first, then
   * the host string one character at a time.
   */
  method BuildNetLogPath(host: string, t: LocalTime) returns (path: string)
    ensures path == NetLogPath(host, t)
  {
    var fn2 := AppendSanitized(Timestamp(t), host);
    path := "NetLogs/" + fn2 + ".log";
  }

  /** The host loop: appends each host character, or '_' in its place, to `ts`. */
  method AppendSanitized(ts: string, host: string) returns (fn2: string)
    ensures fn2 == ts + Sanitized(host)
  {
    fn2 := ts;
    var i := 0;
    while i < |host|
      invariant 0 <= i <= |host|
      invariant |fn2| == |ts| + i && fn2[..|ts|] == ts
      invariant forall j :: 0 <= j < i ==> fn2[|ts| + j] == SanitizeChar(host[j])
    {
      var c := host[i];
      if ('a' <= c <= 'z') || ('A' <= c <= 'Z') || ('0' <= c <= '9') {
        fn2 := fn2 + [c];
      } else {
        fn2 := fn2 + ['_'];
      }
      i := i + 1;
    }
    assert fn2[|ts|..] == Sanitized(host);
    assert fn2 == ts + Sanitized(host);
  }

  // ---------------------------------------------------------------- map-shot names

  /** Number of distinct map-shot names; the counter wraps at this value. */
  const ShotSlots: int := 10000

  /** `"Mapshots/shot%04d.vxl"` for index i. */
  function ShotFileName(i: int): string {
    "Mapshots/shot" + PrintfZeroPadded(i, 4) + ".vxl"
  }

  /** Recovers the index from a map-shot name, if it has that form. */
  function ParseShotIndex(name: string): Option<nat> {
    if |name| == 21 && name[..13] == "Mapshots/shot" && name[17..] == ".vxl" && AllDigits(name[13..17])
    then Some(DigitsValue(name[13..17]))
    else None
  }

  lemma ShotFileNameRoundTrip(i: int)
    requires 0 <= i < ShotSlots
    ensures ParseShotIndex(ShotFileName(i)) == Some(i)
  {
    assert Pow10(4) == 10000;
    PaddedFits(i, 4);
    var digits := PrintfZeroPadded(i, 4);
    var name := ShotFileName(i);
    assert name[..13] == "Mapshots/shot";
    assert name[13..17] == digits;
    assert name[17..] == ".vxl";
  }

  /** Distinct indices give distinct names, so a file can block only its own index. */
  lemma ShotFileNameInjective(i: int, j: int)
    requires 0 <= i < ShotSlots && 0 <= j < ShotSlots
    ensures ShotFileName(i) == ShotFileName(j) ==> i == j
  {
    ShotFileNameRoundTrip(i);
    ShotFileNameRoundTrip(j);
  }

  /** The index k increments after `start`, wrapping to 0 at ShotSlots. */
  function ShotWrap(start: int, k: int): (i: int)
    requires 0 <= start < ShotSlots && 0 <= k <= ShotSlots
    ensures 0 <= i < ShotSlots
  {
    if start + k < ShotSlots then start + k else start + k - ShotSlots
  }

  /** The first free index met from the k-th probe on, or None when the probes run out. */
  function FreeShotFrom(start: int, existing: set<string>, k: int): (r: Option<int>)
    requires 0 <= start < ShotSlots && 0 <= k <= ShotSlots
    ensures r.Some? ==> 0 <= r.value < ShotSlots && ShotFileName(r.value) !in existing
    decreases ShotSlots - k
  {
    if k == ShotSlots then None
    else if ShotFileName(ShotWrap(start, k)) !in existing then Some(ShotWrap(start, k))
    else FreeShotFrom(start, existing, k + 1)
  }

  /** The index MapShotPath settles on, starting from the counter value `start`. */
  function FirstFreeShot(start: int, existing: set<string>): Option<int>
    requires 0 <= start < ShotSlots
  {
    FreeShotFrom(start, existing, 0)
  }

  /** Every probe from k up to the answer was taken. */
  lemma {:induction false} FreeShotFromSkipsTaken(start: int, existing: set<string>, k: int, m: int)
    requires 0 <= start < ShotSlots && 0 <= k <= m < ShotSlots
    requires FreeShotFrom(start, existing, k) != Some(ShotWrap(start, m))
    requires forall q :: k <= q < m ==> ShotFileName(ShotWrap(start, q)) in existing
    ensures ShotFileName(ShotWrap(start, m)) in existing
    decreases m - k
  {
    if k < m {
      FreeShotFromSkipsTaken(start, existing, k + 1, m);
    }
  }

  /** The scan picks the first free index in probe order. */
  lemma {:induction false} FirstFreeShotIsFirst(start: int, existing: set<string>, m: int)
    requires 0 <= start < ShotSlots && 0 <= m < ShotSlots
    requires forall q :: 0 <= q < m ==> ShotFileName(ShotWrap(start, q)) in existing
    requires ShotFileName(ShotWrap(start, m)) !in existing
    ensures FirstFreeShot(start, existing) == Some(ShotWrap(start, m))
  {
    if FirstFreeShot(start, existing) != Some(ShotWrap(start, m)) {
      FreeShotFromSkipsTaken(start, existing, 0, m);
    }
  }

  /** When the scan from probe k fails, every probe from k on was taken. */
  lemma {:induction false} FreeShotFromNone(start: int, existing: set<string>, k: int)
    requires 0 <= start < ShotSlots && 0 <= k <= ShotSlots
    requires FreeShotFrom(start, existing, k) == None
    ensures forall q :: k <= q < ShotSlots ==> ShotFileName(ShotWrap(start, q)) in existing
    decreases ShotSlots - k
  {
    if k < ShotSlots {
      assert ShotFileName(ShotWrap(start, k)) in existing;
      FreeShotFromNone(start, existing, k + 1);
      forall q | k <= q < ShotSlots
        ensures ShotFileName(ShotWrap(start, q)) in existing
      {
        if q > k {
          assert k + 1 <= q;
        }
      }
    }
  }

  /** The search fails exactly when all 10000 names exist, whatever the starting counter. */
  lemma FirstFreeShotNoneIffFull(start: int, existing: set<string>)
    requires 0 <= start < ShotSlots
    ensures FirstFreeShot(start, existing) == None <==> forall i :: 0 <= i < ShotSlots ==> ShotFileName(i) in existing
  {
    if FirstFreeShot(start, existing) == None {
      FreeShotFromNone(start, existing, 0);
      forall i | 0 <= i < ShotSlots
        ensures ShotFileName(i) in existing
      {
        var q := if i >= start then i - start else i + ShotSlots - start;
        assert ShotWrap(start, q) == i;
      }
    }
  }

  /** With shot0000 to shot0042 present, a scan from 0 picks index 43. */
  lemma FirstFreeAfterFortyThree(existing: set<string>)
    requires forall i :: 0 <= i < 43 ==> ShotFileName(i) in existing
    requires forall name :: name in existing ==> exists i :: 0 <= i < 43 && name == ShotFileName(i)
    ensures FirstFreeShot(0, existing) == Some(43)
  {
    if ShotFileName(43) in existing {
      var i :| 0 <= i < 43 && ShotFileName(43) == ShotFileName(i);
      ShotFileNameInjective(43, i);
    }
    FirstFreeShotIsFirst(0, existing, 43);
  }
}
