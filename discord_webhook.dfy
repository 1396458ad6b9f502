/**
 * src/utils/discord-webhook.ts: every five minutes, a status report built from
 * the counters is posted to a Discord webhook and the counters are reset. The
 * model covers the text formatting of byte counts and uptime, the status
 * colour, the "N/A" guards, the reset rule of `sendReport` and the interval
 * handle that `start`/`stopDiscordReporter` keep. The environment variable,
 * the clock, the process's memory figures and the outcome of the HTTP post
 * are parameters.
 */
module DiscordWebhook {
  import opened Wrappers
  import opened Ascii
  import opened Telemetry

  /** `REPORT_INTERVAL_MS`: five minutes. */
  const REPORT_INTERVAL_MS: nat := 5 * 60 * 1000

  const KIB: nat := 1024
  const MIB: nat := 1024 * 1024

  // ---------------------------------------------------------------- bytes

  /**
   * `(num / unit).toFixed(2)` in hundredths: the integer nearest to
   * `100 * num / unit`, the larger one on a tie. For a power-of-two unit the
   * quotient is exact in a double, so this is the value `toFixed` prints.
   */
  function Rounded(num: nat, unit: nat): nat
    requires unit > 0
  {
    (200 * num + unit) / (2 * unit)
  }

  /** The printed hundredths are within half a hundredth of `num / unit`. */
  lemma RoundedIsNearest(num: nat, unit: nat)
    requires unit > 0
    ensures var n := Rounded(num, unit);
            2 * (unit * n) <= 200 * num + unit < 2 * (unit * n) + 2 * unit
  {
    var n := Rounded(num, unit);
    var x := 200 * num + unit;
    var d := 2 * unit;
    assert x == d * (x / d) + x % d;
    assert d * n == 2 * (unit * n);
  }

  /** The `toFixed(2)` text of `num / unit`: whole part, '.', two digits. */
  function FixedTwo(num: nat, unit: nat): string
    requires unit > 0
  {
    PointText(Rounded(num, unit))
  }

  /** `n` hundredths printed with two decimals: the whole part, '.', the tenths and hundredths digits. */
  function PointText(n: nat): string {
    DecimalText(n / 100) + "." + [DigitChar(n % 100 / 10), DigitChar(n % 10)]
  }

  /** The hundredths a text `<digits>.<two digits>` denotes, `None` for any other text. */
  function Hundredths(t: string): Option<nat> {
    var p := Split(t, '.');
    if |p| == 2 && |p[0]| >= 1 && |p[1]| == 2 && AllDigits(p[0]) && AllDigits(p[1]) then
      Some(DigitsValue(p[0]) * 100 + DigitsValue(p[1]))
    else None
  }

  /** Two digit characters read back as the two-digit number. */
  lemma TwoDigitsValue(a: nat, b: nat)
    requires a < 10 && b < 10
    ensures AllDigits([DigitChar(a), DigitChar(b)])
    ensures DigitsValue([DigitChar(a), DigitChar(b)]) == 10 * a + b
  {
    var t := [DigitChar(a), DigitChar(b)];
    assert t[..1] == [DigitChar(a)];
    assert [DigitChar(a)][..0] == [];
    assert DigitsValue([DigitChar(a)]) == a;
    assert DigitsValue(t) == DigitsValue(t[..1]) * 10 + DigitValue(t[1]);
  }

  /** A `toFixed(2)` text reads back as the hundredths it was printed from. */
  lemma FixedTwoReadsBack(num: nat, unit: nat)
    requires unit > 0
    ensures Hundredths(FixedTwo(num, unit)) == Some(Rounded(num, unit))
  {
    PointTextReadsBack(Rounded(num, unit));
  }

  /** Hundredths printed with two decimals read back as themselves. */
  lemma PointTextReadsBack(n: nat)
    ensures Hundredths(PointText(n)) == Some(n)
  {
    PointFieldsReadBack(n / 100, n % 100 / 10, n % 10);
    HundredthsDigits(n);
  }

  /** The whole part, the tenths digit and the hundredths digit recompose the hundredths. */
  lemma HundredthsDigits(n: nat)
    ensures n / 100 * 100 + (10 * (n % 100 / 10) + n % 10) == n
  {
    var r := n % 100;
    assert n == 100 * (n / 100) + r;
    assert r == 10 * (r / 10) + r % 10;
    assert r % 10 == n % 10 by {
      assert n == 10 * (10 * (n / 100) + r / 10) + r % 10;
    }
  }

  /** A whole part, '.', and two digits read back as that many hundredths. */
  lemma PointFieldsReadBack(whole: nat, tens: nat, ones: nat)
    requires tens < 10 && ones < 10
    ensures Hundredths(DecimalText(whole) + "." + [DigitChar(tens), DigitChar(ones)])
            == Some(whole * 100 + (10 * tens + ones))
  {
    var w := DecimalText(whole);
    var frac := [DigitChar(tens), DigitChar(ones)];
    DecimalTextHasNo(whole, '.');
    SplitWithout(frac, '.');
    SplitJoin(w, '.', frac);
    assert w + "." + frac == w + ['.'] + frac;
    DecimalTextRoundTrip(whole);
    TwoDigitsValue(tens, ones);
  }

  /** `formatBytes(bytes)`: plain bytes below 1 KiB, else KiB below 1 MiB, else MiB. */
  function FormatBytes(bytes: nat): string {
    if bytes < KIB then DecimalText(bytes) + " B"
    else if bytes < MIB then FixedTwo(bytes, KIB) + " KB"
    else FixedTwo(bytes, MIB) + " MB"
  }

  /**
   * A byte count's text is a number, a space and a unit. The unit is B
   * exactly below 1024 bytes, KB exactly from 1024 below 1048576 and MB
   * from 1048576 up. Under B the number is the count itself; otherwise it is
   * the count in that unit, in hundredths.
   */
  lemma FormatBytesMeaning(bytes: nat)
    ensures var parts := Split(FormatBytes(bytes), ' ');
            && |parts| == 2
            && (parts[1] == "B" <==> bytes < KIB)
            && (parts[1] == "KB" <==> KIB <= bytes < MIB)
            && (parts[1] == "MB" <==> MIB <= bytes)
            && (bytes < KIB ==> AllDigits(parts[0]) && DigitsValue(parts[0]) == bytes)
            && (KIB <= bytes < MIB ==> Hundredths(parts[0]) == Some(Rounded(bytes, KIB)))
            && (MIB <= bytes ==> Hundredths(parts[0]) == Some(Rounded(bytes, MIB)))
  {
    var number := if bytes < KIB then DecimalText(bytes) else if bytes < MIB then FixedTwo(bytes, KIB)
                  else FixedTwo(bytes, MIB);
    var unit := if bytes < KIB then "B" else if bytes < MIB then "KB" else "MB";
    assert FormatBytes(bytes) == number + [' '] + unit;
    if bytes < KIB {
      DecimalTextHasNo(bytes, ' ');
      DecimalTextRoundTrip(bytes);
    } else {
      FixedTwoReadsBack(bytes, if bytes < MIB then KIB else MIB);
      assert ' ' !in number by {
        var n := Rounded(bytes, if bytes < MIB then KIB else MIB);
        DecimalTextHasNo(n / 100, ' ');
      }
    }
    SplitWithout(unit, ' ');
    SplitJoin(number, ' ', unit);
  }

  // ---------------------------------------------------------------- uptime

  /** JavaScript's `a % b` for `b > 0`: the remainder with the sign of `a`. */
  function JsRem(a: int, b: nat): (r: int)
    requires b > 0
    ensures -(b as int) < r < b
    ensures a >= 0 ==> r >= 0
    ensures a < 0 ==> r <= 0
  {
    if a >= 0 then a % b else -((-a) % b)
  }

  /** The four figures `formatUptime` computes. */
  datatype Uptime = Uptime(days: int, hours: int, minutes: int, secs: int)

  /** The figures for `ms` milliseconds: floors, and JavaScript remainders. */
  function UptimeOf(ms: int): Uptime {
    var seconds := ms / 1000;
    Uptime(seconds / 86400, JsRem(seconds, 86400) / 3600, JsRem(seconds, 3600) / 60, JsRem(seconds, 60))
  }

  /** A figure and its unit letter, as the template literal prints it. */
  function Word(n: int, unit: char): string {
    IntText(n) + [unit]
  }

  /** The word of a figure that is pushed only when positive. */
  function Optional(n: int, unit: char): seq<string> {
    if n > 0 then [Word(n, unit)] else []
  }

  /** The words `formatUptime` pushes: days, hours and minutes only when positive, always the seconds. */
  function UptimeWords(u: Uptime): seq<string> {
    Optional(u.days, 'd') + (Optional(u.hours, 'h') + (Optional(u.minutes, 'm') + [Word(u.secs, 's')]))
  }

  /** Four lists appended left to right are the same as appended right to left. */
  lemma Reassociate<T>(a: seq<T>, b: seq<T>, c: seq<T>, d: seq<T>)
    ensures a + b + c + d == a + (b + (c + d))
  {
  }

  /** The text `formatUptime(ms)` returns. */
  function UptimeText(ms: int): string {
    Join(UptimeWords(UptimeOf(ms)), ' ')
  }

  /** `formatUptime(ms)`: the words pushed onto `parts` one by one, then joined with spaces. */
  method FormatUptime(ms: int) returns (text: string)
    ensures text == UptimeText(ms)
  {
    var seconds := ms / 1000;
    var days := seconds / 86400;
    var hours := JsRem(seconds, 86400) / 3600;
    var minutes := JsRem(seconds, 3600) / 60;
    var secs := JsRem(seconds, 60);
    var parts: seq<string> := [];
    if days > 0 {
      parts := parts + [Word(days, 'd')];
    }
    assert parts == Optional(days, 'd');
    if hours > 0 {
      parts := parts + [Word(hours, 'h')];
    }
    assert parts == Optional(days, 'd') + Optional(hours, 'h');
    if minutes > 0 {
      parts := parts + [Word(minutes, 'm')];
    }
    assert parts == Optional(days, 'd') + Optional(hours, 'h') + Optional(minutes, 'm');
    Reassociate(Optional(days, 'd'), Optional(hours, 'h'), Optional(minutes, 'm'), [Word(secs, 's')]);
    parts := parts + [Word(secs, 's')];
    text := Join(parts, ' ');
  }

  /**
   * For a non-negative duration the figures decompose the whole seconds:
   * days, then hours below 24, minutes below 60 and seconds below 60.
   */
  lemma UptimeDecomposition(ms: nat)
    ensures var u := UptimeOf(ms);
            && u.days * 86400 + u.hours * 3600 + u.minutes * 60 + u.secs == ms / 1000
            && u.days >= 0 && 0 <= u.hours < 24 && 0 <= u.minutes < 60 && 0 <= u.secs < 60
  {
    var s := ms / 1000;
    var r1 := s % 86400;
    var r2 := s % 3600;
    assert s == 86400 * (s / 86400) + r1;
    assert r1 == 3600 * (r1 / 3600) + r1 % 3600;
    assert r1 % 3600 == r2 by {
      assert s == 3600 * (24 * (s / 86400) + r1 / 3600) + r1 % 3600;
    }
    assert r2 == 60 * (r2 / 60) + r2 % 60;
    assert r2 % 60 == s % 60 by {
      assert s == 60 * (60 * (24 * (s / 86400) + r1 / 3600) + r2 / 60) + r2 % 60;
    }
  }

  /** The unit letters, in the order the words appear. */
  function Rank(unit: char): nat {
    match unit
    case 'd' => 0
    case 'h' => 1
    case 'm' => 2
    case 's' => 3
    case _ => 4
  }

  /** The unit letter a word ends with (a space for the empty word). */
  function UnitOf(w: string): char {
    if w == [] then ' ' else w[|w| - 1]
  }

  /** The units of the words strictly follow the order d, h, m, s. */
  predicate Ascending(ws: seq<string>) {
    forall i, j :: 0 <= i < j < |ws| ==> Rank(UnitOf(ws[i])) < Rank(UnitOf(ws[j]))
  }

  /** Every word but the last reads as a positive number of seconds. */
  predicate LeadingPositive(ws: seq<string>) {
    forall i :: 0 <= i < |ws| - 1 ==> WordSeconds(ws[i]).Some? && WordSeconds(ws[i]).value > 0
  }

  /** Every word's unit ranks above `unit`. */
  predicate AllAfter(ws: seq<string>, unit: char) {
    forall i :: 0 <= i < |ws| ==> Rank(unit) < Rank(UnitOf(ws[i]))
  }

  /** Prepending an optional word of a lower unit keeps the words in order and their leading figures positive. */
  lemma PrependOptional(n: int, unit: char, rest: seq<string>)
    requires n >= 0 && UnitSeconds(unit) > 0 && |rest| >= 1
    requires Ascending(rest) && LeadingPositive(rest) && AllAfter(rest, unit)
    ensures Ascending(Optional(n, unit) + rest) && LeadingPositive(Optional(n, unit) + rest)
    ensures forall i :: 0 <= i < |Optional(n, unit) + rest| ==> Rank(unit) <= Rank(UnitOf((Optional(n, unit) + rest)[i]))
  {
    if n > 0 {
      WordReadsBack(n, unit);
      PositiveProduct(n, UnitSeconds(unit));
      assert UnitOf(Word(n, unit)) == unit;
      PrependWord(Word(n, unit), unit, rest);
    } else {
      assert Optional(n, unit) + rest == rest;
    }
  }

  /** Prepending a word of a positive figure and a lower unit keeps the words in order and their leading figures positive. */
  lemma PrependWord(w: string, unit: char, rest: seq<string>)
    requires UnitOf(w) == unit && WordSeconds(w).Some? && WordSeconds(w).value > 0 && |rest| >= 1
    requires Ascending(rest) && LeadingPositive(rest) && AllAfter(rest, unit)
    ensures Ascending([w] + rest) && LeadingPositive([w] + rest)
    ensures forall i :: 0 <= i < |[w] + rest| ==> Rank(unit) <= Rank(UnitOf(([w] + rest)[i]))
  {
    var ws := [w] + rest;
    assert forall i :: 1 <= i < |ws| ==> ws[i] == rest[i - 1];
  }

  /** A product of two positive numbers is positive. */
  lemma PositiveProduct(a: nat, b: nat)
    requires a > 0 && b > 0
    ensures a * b > 0
  {
    assert a * b >= a * 1;
  }

  /** Seconds per unit letter; 0 for a letter that is not a unit. */
  function UnitSeconds(unit: char): nat {
    match unit
    case 'd' => 86400
    case 'h' => 3600
    case 'm' => 60
    case 's' => 1
    case _ => 0
  }

  /** The seconds one word denotes: digits followed by a unit letter. */
  function WordSeconds(w: string): Option<nat> {
    if |w| >= 2 && AllDigits(w[..|w| - 1]) && UnitSeconds(w[|w| - 1]) > 0 then
      Some(DigitsValue(w[..|w| - 1]) * UnitSeconds(w[|w| - 1]))
    else None
  }

  /**
   * The total of `read` over a list of words, `None` when any word fails to
   * read; with `read := WordSeconds`, the seconds the words denote.
   */
  function SumWords(ws: seq<string>, read: string -> Option<nat>): Option<nat> {
    if ws == [] then Some(0) else Plus(read(ws[0]), SumWords(ws[1..], read))
  }

  /** The sum of two readings, `None` when either failed. */
  function Plus(a: Option<nat>, b: Option<nat>): Option<nat> {
    if a.Some? && b.Some? then Some(a.value + b.value) else None
  }

  /** Reading two lists of words one after the other adds their seconds. */
  lemma {:induction false} SumAppend(x: seq<string>, y: seq<string>, read: string -> Option<nat>)
    ensures SumWords(x + y, read) == Plus(SumWords(x, read), SumWords(y, read))
  {
    if x != [] {
      SumAppend(x[1..], y, read);
      assert (x + y)[1..] == x[1..] + y;
    } else {
      assert x + y == y;
    }
  }

  /** Reading an uptime text back: split at spaces and add up the words. */
  function ReadUptime(text: string): Option<nat> {
    SumWords(Split(text, ' '), WordSeconds)
  }

  /** A word printed from a non-negative figure reads back as that many units. */
  lemma WordReadsBack(n: nat, unit: char)
    requires UnitSeconds(unit) > 0
    ensures ' ' !in Word(n, unit)
    ensures WordSeconds(Word(n, unit)) == Some(n * UnitSeconds(unit))
  {
    var w := Word(n, unit);
    assert w[..|w| - 1] == DecimalText(n);
    DecimalTextRoundTrip(n);
    DecimalTextHasNo(n, ' ');
  }

  /** An optional word adds its figure's seconds, or nothing when the figure is not positive. */
  lemma SumOptional(n: int, unit: char, k: nat)
    requires n >= 0 && k > 0 && UnitSeconds(unit) == k
    ensures SumWords(Optional(n, unit), WordSeconds) == Some(n * k)
  {
    if n > 0 {
      WordReadsBack(n, unit);
      SumSingle(Word(n, unit), WordSeconds);
    }
  }

  /** A single word adds up to its own seconds. */
  lemma SumSingle(w: string, read: string -> Option<nat>)
    requires read(w).Some?
    ensures SumWords([w], read) == read(w)
  {
    assert [w][1..] == [];
  }

  /** The words of non-negative figures hold no space. */
  lemma WordsHaveNoSpace(u: Uptime)
    requires u.days >= 0 && u.hours >= 0 && u.minutes >= 0 && u.secs >= 0
    ensures forall i :: 0 <= i < |UptimeWords(u)| ==> ' ' !in UptimeWords(u)[i]
  {
    OptionalHasNoSpace(u.days, 'd');
    OptionalHasNoSpace(u.hours, 'h');
    OptionalHasNoSpace(u.minutes, 'm');
    WordReadsBack(u.secs, 's');
    var ws := UptimeWords(u);
    assert forall w | w in ws :: ' ' !in w;
    forall i | 0 <= i < |ws|
      ensures ' ' !in ws[i]
    {
      assert ws[i] in ws;
    }
  }

  /** The optional word of a non-negative figure holds no space. */
  lemma OptionalHasNoSpace(n: int, unit: char)
    requires n >= 0 && UnitSeconds(unit) > 0
    ensures forall w | w in Optional(n, unit) :: ' ' !in w
  {
    if n > 0 {
      WordReadsBack(n, unit);
    }
  }

  /** The words of non-negative figures add up to the seconds the figures stand for. */
  lemma SumOfFigures(u: Uptime)
    requires u.days >= 0 && u.hours >= 0 && u.minutes >= 0 && u.secs >= 0
    ensures SumWords(UptimeWords(u), WordSeconds) == Some(u.days * 86400 + u.hours * 3600 + u.minutes * 60 + u.secs)
  {
    WordReadsBack(u.secs, 's');
    SumSingle(Word(u.secs, 's'), WordSeconds);
    SumOptional(u.days, 'd', 86400);
    SumOptional(u.hours, 'h', 3600);
    SumOptional(u.minutes, 'm', 60);
    SumOfFour(Optional(u.days, 'd'), Optional(u.hours, 'h'), Optional(u.minutes, 'm'), [Word(u.secs, 's')],
              u.days * 86400, u.hours * 3600, u.minutes * 60, u.secs, WordSeconds);
  }

  /** Four lists of words read one after the other add their seconds. */
  lemma SumOfFour(dw: seq<string>, hw: seq<string>, mw: seq<string>, sw: seq<string>, a: nat, b: nat, c: nat, d: nat,
                  read: string -> Option<nat>)
    requires SumWords(dw, read) == Some(a) && SumWords(hw, read) == Some(b)
    requires SumWords(mw, read) == Some(c) && SumWords(sw, read) == Some(d)
    ensures SumWords(dw + (hw + (mw + sw)), read) == Some(a + b + c + d)
  {
    SumAppend(mw, sw, read);
    SumAppend(hw, mw + sw, read);
    SumAppend(dw, hw + (mw + sw), read);
  }

  /** The uptime text of a non-negative duration reads back as its whole seconds. */
  lemma UptimeReadsBack(ms: nat)
    ensures ReadUptime(UptimeText(ms)) == Some(ms / 1000)
  {
    var u := UptimeOf(ms);
    UptimeDecomposition(ms);
    SumOfFigures(u);
    WordsHaveNoSpace(u);
    SplitOfJoin(UptimeWords(u), ' ');
  }

  /**
   * The shape of a non-negative uptime: the words carry their units in the
   * order d, h, m, s, each at most once; the last is the seconds; every word
   * before it shows a positive figure.
   */
  lemma UptimeShape(ms: nat)
    ensures var ws := UptimeWords(UptimeOf(ms));
            && |ws| >= 1
            && UnitOf(ws[|ws| - 1]) == 's'
            && Ascending(ws)
            && LeadingPositive(ws)
  {
    var u := UptimeOf(ms);
    UptimeDecomposition(ms);
    var sw := [Word(u.secs, 's')];
    assert UnitOf(Word(u.secs, 's')) == 's';
    PrependOptional(u.minutes, 'm', sw);
    PrependOptional(u.hours, 'h', Optional(u.minutes, 'm') + sw);
    PrependOptional(u.days, 'd', Optional(u.hours, 'h') + (Optional(u.minutes, 'm') + sw));
    var ws := UptimeWords(u);
    assert ws[|ws| - 1] == Word(u.secs, 's');
  }

  /** A negative duration, as a clock set back yields, prints its seconds alone, with a sign. */
  lemma NegativeUptimeSecondsOnly(ms: int)
    requires ms < 0
    ensures UptimeText(ms) == IntText(JsRem(ms / 1000, 60)) + "s"
  {
  }

  // ---------------------------------------------------------------- colour and ratios

  const GREEN: nat := 0x2ecc71
  const RED: nat := 0xe74c3c
  const ORANGE: nat := 0xf39c12

  /** The embed colour: green without errors, red above ten, orange in between. */
  function ReportColor(mojangErrors: nat): (c: nat)
    ensures c == GREEN <==> mojangErrors == 0
    ensures c == RED <==> mojangErrors > 10
    ensures c == ORANGE <==> 1 <= mojangErrors <= 10
  {
    if mojangErrors == 0 then GREEN else if mojangErrors > 10 then RED else ORANGE
  }

  /**
   * The cache hit rate in percent, before `toFixed(1)`; `None` is "N/A", shown
   * exactly when there were no lookups.
   */
  function HitRate(c: Counters): (r: Option<real>)
    ensures r.None? <==> c.uuidCacheHits + c.skinCacheHits + c.uuidCacheMisses + c.skinCacheMisses == 0
    ensures r.Some? ==> 0.0 <= r.value <= 100.0
    ensures r.Some? ==> (r.value == 100.0 <==> c.uuidCacheMisses + c.skinCacheMisses == 0)
    ensures r.Some? ==> (r.value == 0.0 <==> c.uuidCacheHits + c.skinCacheHits == 0)
  {
    var hits := c.uuidCacheHits + c.skinCacheHits;
    var lookups := hits + c.uuidCacheMisses + c.skinCacheMisses;
    if lookups > 0 then Some(RatioPercent(hits, lookups)) else None
  }

  /** `part / whole * 100` for `part <= whole`. */
  function RatioPercent(part: nat, whole: nat): (p: real)
    requires 0 < whole && part <= whole
    ensures 0.0 <= p <= 100.0
    ensures p == 100.0 <==> part == whole
    ensures p == 0.0 <==> part == 0
    ensures p * whole as real == 100.0 * part as real
  {
    var q := part as real / whole as real;
    assert q * whole as real == part as real;
    QuotientAtMostOne(part as real, whole as real);
    q * 100.0
  }

  /** A quotient whose dividend is at most its positive divisor is at most one. */
  lemma QuotientAtMostOne(a: real, b: real)
    requires 0.0 <= a <= b && b > 0.0
    ensures a / b <= 1.0
  {
  }

  /** The average batch size, before `toFixed(1)`; `None` is "N/A", shown exactly when no batch ran. */
  function AverageBatchSize(c: Counters): (r: Option<real>)
    ensures r.None? <==> c.batchesProcessed == 0
    ensures r.Some? ==> r.value * c.batchesProcessed as real == c.usernamesBatched as real
  {
    if c.batchesProcessed > 0 then Some(c.usernamesBatched as real / c.batchesProcessed as real) else None
  }

  // ---------------------------------------------------------------- the report

  /** `process.memoryUsage()`, the three figures the report prints. */
  datatype MemoryUsage = MemoryUsage(heapUsed: nat, heapTotal: nat, rss: nat)

  /** The parts of the embed that the model covers. */
  datatype Report = Report(
    color: nat, uptime: string, memory: string, rss: string,
    totalRequests: nat, hitRate: Option<real>, averageBatchSize: Option<real>,
    sent: string, received: string, counters: Counters)

  /** The embed `sendReport` builds from the counters, the start time, the time `now` and the memory figures. */
  function ReportOf(c: Counters, startedAt: int, now: int, mem: MemoryUsage): Report {
    Report(ReportColor(c.mojangErrors), UptimeText(now - startedAt),
           FormatBytes(mem.heapUsed) + " / " + FormatBytes(mem.heapTotal), FormatBytes(mem.rss),
           c.uuidRequests + c.skinRequests, HitRate(c), AverageBatchSize(c),
           FormatBytes(c.bytesSentToMojang), FormatBytes(c.bytesReceivedFromMojang), c)
  }

  /** `!process.env.DISCORD_WEBHOOK` is false: the variable is set and not empty. */
  predicate Configured(webhook: Option<string>) {
    webhook.Some? && webhook.value != ""
  }

  /**
   * The module state: the `reportInterval` handle (held or `null`), the
   * number of intervals still scheduled (a second `start` overwrites the
   * handle without clearing the first interval), the reports the webhook
   * received, and the shared counters.
   */
  class DiscordReporter {
    var reportInterval: bool
    var liveIntervals: nat
    var delivered: seq<Report>
    const metrics: Metrics

    ghost predicate Valid()
      reads this
    {
      reportInterval ==> liveIntervals >= 1
    }

    constructor (metrics: Metrics)
      ensures Valid()
      ensures !reportInterval && liveIntervals == 0 && delivered == [] && this.metrics == metrics
    {
      reportInterval := false;
      liveIntervals := 0;
      delivered := [];
      this.metrics := metrics;
    }

    /** `startDiscordReporter()`: schedules `sendReport` only when the webhook is configured. */
    method Start(webhook: Option<string>)
      requires Valid()
      modifies this
      ensures Valid()
      ensures !Configured(webhook) ==> unchanged(this)
      ensures Configured(webhook) ==> reportInterval && liveIntervals == old(liveIntervals) + 1
      ensures delivered == old(delivered)
    {
      if !Configured(webhook) {
        return;
      }
      reportInterval := true;
      liveIntervals := liveIntervals + 1;
    }

    /**
     * `stopDiscordReporter()`: clears the held interval and drops the handle;
     * with no handle it does nothing, so stopping twice is stopping once.
     */
    method Stop()
      requires Valid()
      modifies this
      ensures Valid()
      ensures !reportInterval
      ensures !old(reportInterval) ==> unchanged(this)
      ensures old(reportInterval) ==> liveIntervals == old(liveIntervals) - 1
      ensures delivered == old(delivered)
    {
      if reportInterval {
        liveIntervals := liveIntervals - 1;
        reportInterval := false;
      }
    }

    /**
     * `sendReport()` at time `now`, the post succeeding or not, the reset
     * reading the clock at `resetAt`. Without the webhook nothing happens and
     * the counters keep counting; with it the counters are reset whether or
     * not the post went through.
     */
    method SendReport(webhook: Option<string>, now: int, mem: MemoryUsage, postSucceeds: bool, resetAt: int)
      modifies this, metrics
      ensures !Configured(webhook) ==> unchanged(this) && unchanged(metrics)
      ensures Configured(webhook) ==>
                && metrics.Snapshot() == ZERO
                && metrics.startedAt == old(metrics.startedAt)
                && metrics.lastReportAt == resetAt
                && delivered == old(delivered)
                     + (if postSucceeds then [ReportOf(old(metrics.Snapshot()), old(metrics.startedAt), now, mem)] else [])
      ensures reportInterval == old(reportInterval) && liveIntervals == old(liveIntervals)
    {
      if !Configured(webhook) {
        return;
      }
      var c := metrics.Snapshot();
      var uptime := FormatUptime(now - metrics.startedAt);
      var report := Report(ReportColor(c.mojangErrors), uptime,
                           FormatBytes(mem.heapUsed) + " / " + FormatBytes(mem.heapTotal), FormatBytes(mem.rss),
                           c.uuidRequests + c.skinRequests, HitRate(c), AverageBatchSize(c),
                           FormatBytes(c.bytesSentToMojang), FormatBytes(c.bytesReceivedFromMojang), c);
      if postSucceeds {
        delivered := delivered + [report];
      }
      metrics.Reset(resetAt);
    }
  }
}
