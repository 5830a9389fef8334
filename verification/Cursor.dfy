/** The opaque statement cursor: ISO text of the timestamp, a bar, the entry id, all in base64. */
module Cursor {
  import opened Tables
  import opened Calendar
  import opened Numerals
  import opened Base64

  // --- printing, each part in front of what follows it -----------------------------

  function PrintDate(d: Date, rest: string): string {
    Pad(d.year, 4) + (['-'] + (Pad(d.month, 2) + (['-'] + (Pad(d.day, 2) + rest))))
  }

  /** The microseconds are printed only when there are any. */
  function PrintMicro(micro: nat, rest: string): string {
    if micro == 0 then rest else ['.'] + (Pad(micro, 6) + rest)
  }

  function PrintClock(c: Clock, rest: string): string {
    Pad(c.hour, 2) + ([':'] + (Pad(c.minute, 2) + ([':'] + (Pad(c.second, 2) + PrintMicro(c.micro, rest)))))
  }

  function Abs(n: int): nat {
    if n < 0 then -n else n
  }

  /** The sign, hours and minutes; seconds and microseconds only when they are not zero. */
  function PrintOffset(o: Option<int>): string {
    match o
    case None => ""
    case Some(off) => [if off < 0 then '-' else '+'] + PrintMagnitude(Abs(off))
  }

  function PrintMagnitude(a: nat): string {
    Pad(a / HOUR, 2) + ([':'] + (Pad(a % HOUR / MINUTE, 2) + PrintSeconds(a % HOUR % MINUTE)))
  }

  function PrintSeconds(a: nat): string {
    if a == 0 then "" else [':'] + (Pad(a / SECOND, 2) + PrintMicro(a % SECOND, ""))
  }

  /** datetime.isoformat() */
  function Iso(t: Timestamp): string {
    PrintDate(t.date, ['T'] + PrintClock(t.clock, PrintOffset(t.offset)))
  }

  function PrintInt(i: int): string {
    if i < 0 then ['-'] + Show(-i) else Show(i)
  }

  // --- reading -------------------------------------------------------------------

  /** `width` digits off the front. */
  function Digits(s: string, width: nat): Option<(nat, string)> {
    if |s| >= width && AllDigits(s[..width]) then Some((Number(s[..width]), s[width..])) else None
  }

  function Skip(s: string, c: char): Option<string> {
    if s != "" && s[0] == c then Some(s[1..]) else None
  }

  /** A separator, then `width` digits. */
  function Next(s: string, c: char, width: nat): Option<(nat, string)> {
    match Skip(s, c)
    case None => None
    case Some(rest) => Digits(rest, width)
  }

  function ReadDate(s: string): (r: Option<(Date, string)>)
    ensures r.Some? ==> ValidDate(r.value.0)
  {
    match Digits(s, 4)
    case None => None
    case Some((year, s1)) =>
      match Next(s1, '-', 2)
      case None => None
      case Some((month, s2)) =>
        match Next(s2, '-', 2)
        case None => None
        case Some((day, s3)) => if ValidDate(Date(year, month, day)) then Some((Date(year, month, day), s3)) else None
  }

  function ReadMicro(s: string): Option<(nat, string)> {
    if s != "" && s[0] == '.' then Digits(s[1..], 6) else Some((0, s))
  }

  function ReadClock(s: string): (r: Option<(Clock, string)>)
    ensures r.Some? ==> ValidClock(r.value.0)
  {
    match Digits(s, 2)
    case None => None
    case Some((hour, s1)) =>
      match Next(s1, ':', 2)
      case None => None
      case Some((minute, s2)) =>
        match Next(s2, ':', 2)
        case None => None
        case Some((second, s3)) =>
          match ReadMicro(s3)
          case None => None
          case Some((micro, s4)) =>
            var c := Clock(hour, minute, second, micro);
            if ValidClock(c) then Some((c, s4)) else None
  }

  function ReadSeconds(s: string): Option<nat> {
    if s == "" then Some(0)
    else
      match Next(s, ':', 2)
      case None => None
      case Some((second, s1)) =>
        match ReadMicro(s1)
        case None => None
        case Some((micro, s2)) => if s2 == "" then Some(second * SECOND + micro) else None
  }

  function ReadMagnitude(s: string): Option<nat> {
    match Digits(s, 2)
    case None => None
    case Some((hour, s1)) =>
      match Next(s1, ':', 2)
      case None => None
      case Some((minute, s2)) =>
        match ReadSeconds(s2)
        case None => None
        case Some(rest) => Some(hour * HOUR + minute * MINUTE + rest)
  }

  function ReadOffset(s: string): (r: Option<Option<int>>)
    ensures r.Some? ==> ValidOffset(r.value)
  {
    if s == "" then Some(None)
    else if s[0] != '+' && s[0] != '-' then None
    else
      match ReadMagnitude(s[1..])
      case None => None
      case Some(a) => if a < DAY then Some(Some(if s[0] == '-' then 0 - a else a)) else None
  }

  /** datetime.fromisoformat(), on text in the form that isoformat prints. */
  function FromIso(s: string): (r: Option<Timestamp>)
    ensures r.Some? ==> Valid(r.value)
  {
    match ReadDate(s)
    case None => None
    case Some((date, s1)) =>
      if s1 == "" then None
      else
        match ReadClock(s1[1..])
        case None => None
        case Some((clock, s2)) =>
          match ReadOffset(s2)
          case None => None
          case Some(offset) => Some(Timestamp(date, clock, offset))
  }

  /** int(), on a sign and ASCII digits. */
  function ReadInt(s: string): Option<int> {
    if s == "" then None
    else if s[0] == '-' || s[0] == '+' then
      if |s| > 1 && AllDigits(s[1..]) then
        var n: int := Number(s[1..]);
        Some(if s[0] == '-' then -n else n)
      else None
    else if AllDigits(s) then Some(Number(s)) else None
  }

  // --- the cursor -----------------------------------------------------------------

  predicate IsAscii(s: string) {
    forall k :: 0 <= k < |s| ==> s[k] < '\U{80}'
  }

  function ToBytes(s: string): (bs: seq<byte>)
    requires IsAscii(s)
    ensures |bs| == |s|
  {
    seq(|s|, k requires 0 <= k < |s| => s[k] as int)
  }

  function FromBytes(bs: seq<byte>): Option<string> {
    if forall k :: 0 <= k < |bs| ==> bs[k] < 128 then
      Some(seq(|bs|, k requires 0 <= k < |bs| => bs[k] as char))
    else None
  }

  /** rsplit("|", 1): around the last bar. */
  function SplitLast(s: string): Option<(string, string)> {
    if s == "" then None
    else if s[|s| - 1] == '|' then Some((s[..|s| - 1], ""))
    else
      match SplitLast(s[..|s| - 1])
      case None => None
      case Some((left, right)) => Some((left, right + [s[|s| - 1]]))
  }

  function Raw(t: Timestamp, id: int): (s: string)
    ensures IsAscii(s)
  {
    IsoIsAscii(t);
    Iso(t) + (['|'] + PrintInt(id))
  }

  function EncodeCursor(t: Timestamp, id: int): string {
    StripPadding(Encode(ToBytes(Raw(t, id))))
  }

  function DecodeText(s: string): (r: Option<(Timestamp, int)>)
    ensures r.Some? ==> Valid(r.value.0)
  {
    match SplitLast(s)
    case None => None
    case Some((ts, entry)) =>
      match FromIso(ts)
      case None => None
      case Some(t) =>
        match ReadInt(entry)
        case None => None
        case Some(id) => Some((t, id))
  }

  /** Nothing at all for a malformed cursor: the caller then shows page one. What does decode is a real
      date and time, whatever text was sent. */
  function DecodeCursor(cursor: string): (r: Option<(Timestamp, int)>)
    ensures r.Some? ==> Valid(r.value.0)
  {
    match Decode(RestorePadding(cursor))
    case None => None
    case Some(bs) =>
      match FromBytes(bs)
      case None => None
      case Some(s) => DecodeText(s)
  }

  // --- the printed text is ASCII ------------------------------------------------------

  lemma AsciiAppend(a: string, b: string)
    requires IsAscii(a) && IsAscii(b)
    ensures IsAscii(a + b)
  {
  }

  lemma MicroIsAscii(micro: nat, rest: string)
    requires IsAscii(rest)
    ensures IsAscii(PrintMicro(micro, rest))
  {
    AsciiAppend(Pad(micro, 6), rest);
  }

  lemma OffsetIsAscii(o: Option<int>)
    ensures IsAscii(PrintOffset(o))
  {
    if o.Some? {
      var a := Abs(o.value);
      SecondsIsAscii(a % HOUR % MINUTE);
      AsciiAppend(Pad(a % HOUR / MINUTE, 2), PrintSeconds(a % HOUR % MINUTE));
    }
  }

  lemma SecondsIsAscii(a: nat)
    ensures IsAscii(PrintSeconds(a))
  {
    MicroIsAscii(a % SECOND, "");
  }

  lemma ClockIsAscii(c: Clock, rest: string)
    requires IsAscii(rest)
    ensures IsAscii(PrintClock(c, rest))
  {
    MicroIsAscii(c.micro, rest);
    AsciiAppend(Pad(c.second, 2), PrintMicro(c.micro, rest));
    AsciiAppend(Pad(c.minute, 2), [':'] + (Pad(c.second, 2) + PrintMicro(c.micro, rest)));
  }

  lemma IsoIsAscii(t: Timestamp)
    ensures IsAscii(Iso(t))
  {
    OffsetIsAscii(t.offset);
    ClockIsAscii(t.clock, PrintOffset(t.offset));
    var rest := ['T'] + PrintClock(t.clock, PrintOffset(t.offset));
    AsciiAppend(Pad(t.date.day, 2), rest);
    AsciiAppend(Pad(t.date.month, 2), ['-'] + (Pad(t.date.day, 2) + rest));
  }

  // --- reading back what was printed ------------------------------------------------

  lemma DigitsPad(n: nat, width: nat, rest: string)
    requires n < Power(width)
    ensures Digits(Pad(n, width) + rest, width) == Some((n, rest))
  {
    PadNumber(n, width);
    assert (Pad(n, width) + rest)[..width] == Pad(n, width) && (Pad(n, width) + rest)[width..] == rest;
  }

  lemma SmallPowers()
    ensures Power(2) == 100 && Power(4) == 10_000 && Power(6) == 1_000_000
  {
    assert Power(3) == 1000;
  }

  lemma NextPad(c: char, n: nat, width: nat, rest: string)
    requires n < Power(width)
    ensures Next([c] + (Pad(n, width) + rest), c, width) == Some((n, rest))
  {
    DigitsPad(n, width, rest);
    assert ([c] + (Pad(n, width) + rest))[1..] == Pad(n, width) + rest;
  }

  lemma ReadPrintedDate(d: Date, rest: string)
    requires ValidDate(d)
    ensures ReadDate(PrintDate(d, rest)) == Some((d, rest))
  {
    SmallPowers();
    DigitsPad(d.year, 4, ['-'] + (Pad(d.month, 2) + (['-'] + (Pad(d.day, 2) + rest))));
    NextPad('-', d.month, 2, ['-'] + (Pad(d.day, 2) + rest));
    NextPad('-', d.day, 2, rest);
  }

  lemma ReadPrintedMicro(micro: nat, rest: string)
    requires micro < SECOND && (rest != "" ==> rest[0] != '.')
    ensures ReadMicro(PrintMicro(micro, rest)) == Some((micro, rest))
  {
    SmallPowers();
    if micro != 0 {
      DigitsPad(micro, 6, rest);
      assert PrintMicro(micro, rest)[1..] == Pad(micro, 6) + rest;
    }
  }

  lemma ReadPrintedClock(c: Clock, rest: string)
    requires ValidClock(c) && (rest != "" ==> rest[0] != '.')
    ensures ReadClock(PrintClock(c, rest)) == Some((c, rest))
  {
    SmallPowers();
    var micro := PrintMicro(c.micro, rest);
    DigitsPad(c.hour, 2, [':'] + (Pad(c.minute, 2) + ([':'] + (Pad(c.second, 2) + micro))));
    NextPad(':', c.minute, 2, [':'] + (Pad(c.second, 2) + micro));
    NextPad(':', c.second, 2, micro);
    ReadPrintedMicro(c.micro, rest);
  }

  lemma ReadPrintedSeconds(a: nat)
    requires a < MINUTE
    ensures ReadSeconds(PrintSeconds(a)) == Some(a)
  {
    SmallPowers();
    if a != 0 {
      NextPad(':', a / SECOND, 2, PrintMicro(a % SECOND, ""));
      ReadPrintedMicro(a % SECOND, "");
    }
  }

  lemma ReadParts(hours: nat, minutes: nat, rest: nat, seconds: string)
    requires hours < Power(2) && minutes < Power(2) && ReadSeconds(seconds) == Some(rest)
    ensures ReadMagnitude(Pad(hours, 2) + ([':'] + (Pad(minutes, 2) + seconds))) ==
            Some(hours * HOUR + minutes * MINUTE + rest)
  {
    DigitsPad(hours, 2, [':'] + (Pad(minutes, 2) + seconds));
    NextPad(':', minutes, 2, seconds);
  }

  lemma ReadJoined(hours: nat, minutes: nat, rest: nat)
    requires hours < 100 && minutes < 100 && rest < MINUTE
    ensures ReadMagnitude(Pad(hours, 2) + ([':'] + (Pad(minutes, 2) + PrintSeconds(rest)))) ==
            Some(hours * HOUR + minutes * MINUTE + rest)
  {
    SmallPowers();
    ReadPrintedSeconds(rest);
    ReadParts(hours, minutes, rest, PrintSeconds(rest));
  }

  lemma ReadPrintedMagnitude(a: nat)
    requires a < DAY
    ensures ReadMagnitude(PrintMagnitude(a)) == Some(a)
  {
    OffsetParts(a);
    ReadJoined(a / HOUR, a % HOUR / MINUTE, a % HOUR % MINUTE);
  }

  lemma ReadPrintedOffset(o: Option<int>)
    requires ValidOffset(o)
    ensures ReadOffset(PrintOffset(o)) == Some(o)
  {
    if o.Some? {
      ReadPrintedMagnitude(Abs(o.value));
      assert PrintOffset(o)[1..] == PrintMagnitude(Abs(o.value));
    }
  }

  lemma OffsetParts(a: nat)
    requires a < DAY
    ensures a / HOUR < 24 && a % HOUR / MINUTE < 60
    ensures a / HOUR * HOUR + a % HOUR / MINUTE * MINUTE + a % HOUR % MINUTE == a
  {
    var rest := a % HOUR;
    assert a == a / HOUR * HOUR + rest;
    assert rest == rest / MINUTE * MINUTE + rest % MINUTE;
  }

  lemma FromIsoIso(t: Timestamp)
    requires Valid(t)
    ensures FromIso(Iso(t)) == Some(t)
  {
    var offset := PrintOffset(t.offset);
    ReadPrintedDate(t.date, ['T'] + PrintClock(t.clock, offset));
    assert (['T'] + PrintClock(t.clock, offset))[1..] == PrintClock(t.clock, offset);
    ReadPrintedClock(t.clock, offset);
    ReadPrintedOffset(t.offset);
  }

  lemma ReadPrintedInt(i: int)
    ensures ReadInt(PrintInt(i)) == Some(i)
  {
    ShowNumber(Abs(i));
    if i < 0 {
      assert PrintInt(i)[1..] == Show(-i);
    } else {
      assert IsDigit(Show(i)[0]);
    }
  }

  /** The last bar is the separator, whatever stands before it. */
  lemma {:induction false} SplitPrinted(left: string, right: string)
    requires '|' !in right
    ensures SplitLast(left + (['|'] + right)) == Some((left, right))
  {
    var s := left + (['|'] + right);
    if right == "" {
      assert s[..|s| - 1] == left;
    } else {
      var n := |right| - 1;
      SplitPrinted(left, right[..n]);
      assert s[..|s| - 1] == left + (['|'] + right[..n]);
      assert right[..n] + [right[n]] == right;
    }
  }

  lemma BytesAndBack(s: string)
    requires IsAscii(s)
    ensures FromBytes(ToBytes(s)) == Some(s)
  {
    var bs := ToBytes(s);
    assert forall k :: 0 <= k < |s| ==> bs[k] as char == s[k];
    assert seq(|bs|, k requires 0 <= k < |bs| => bs[k] as char) == s;
  }

  lemma DecodeRaw(t: Timestamp, id: int)
    requires Valid(t)
    ensures DecodeText(Raw(t, id)) == Some((t, id))
  {
    assert '|' !in PrintInt(id);
    SplitPrinted(Iso(t), PrintInt(id));
    FromIsoIso(t);
    ReadPrintedInt(id);
  }

  lemma DecodeBytes(cursor: string, s: string)
    requires IsAscii(s) && Decode(RestorePadding(cursor)) == Some(ToBytes(s))
    ensures DecodeCursor(cursor) == DecodeText(s)
  {
    BytesAndBack(s);
  }

  /** The cursor of any timestamp and entry id decodes to exactly them, and is URL-safe as it stands. */
  lemma CursorRoundTrip(t: Timestamp, id: int)
    requires Valid(t)
    ensures DecodeCursor(EncodeCursor(t, id)) == Some((t, id))
    ensures UrlSafe(EncodeCursor(t, id))
  {
    StrippedRoundTrip(ToBytes(Raw(t, id)));
    DecodeBytes(EncodeCursor(t, id), Raw(t, id));
    DecodeRaw(t, id);
  }

  /** So no two positions share a cursor. */
  lemma CursorInjective(t: Timestamp, id: int, u: Timestamp, other: int)
    requires Valid(t) && Valid(u) && EncodeCursor(t, id) == EncodeCursor(u, other)
    ensures t == u && id == other
  {
    CursorRoundTrip(t, id);
    CursorRoundTrip(u, other);
  }

  // --- positions -------------------------------------------------------------------

  function PositionAt(decoded: Option<(Timestamp, int)>, zone: int): Option<(int, int)>
    requires decoded.Some? ==> Valid(decoded.value.0)
  {
    if decoded == None then None else Some((Instant(decoded.value.0, zone), decoded.value.1))
  }

  /** The position that a page request's cursor stands for; none on page one or for a malformed cursor. */
  function PositionOf(cursor: string, zone: int): Option<(int, int)> {
    if cursor == "" then None else PositionAt(DecodeCursor(cursor), zone)
  }

  lemma EmptyCursor()
    ensures DecodeCursor("") == None
  {
    assert Decode(RestorePadding("")) == Some([]);
    assert DecodeText("") == None;
  }

  /** In whatever offset a row's created_at is rendered, its cursor carries the row's instant and id. */
  lemma CursorCarriesInstant(t: Timestamp, id: int, zone: int)
    requires Valid(t)
    ensures PositionOf(EncodeCursor(t, id), zone) == Some((Instant(t, zone), id))
  {
    var cursor := EncodeCursor(t, id);
    assert DecodeCursor(cursor) == Some((t, id)) by {
      CursorRoundTrip(t, id);
    }
    EmptyCursor();
    assert PositionOf(cursor, zone) == PositionAt(Some((t, id)), zone);
  }

  /** Two cursors stand for one position exactly when they were made from one id and from renderings of
      one instant, at whatever offsets. */
  lemma SamePosition(t: Timestamp, id: int, u: Timestamp, other: int, zone: int)
    requires Valid(t) && Valid(u)
    ensures PositionOf(EncodeCursor(t, id), zone) == PositionOf(EncodeCursor(u, other), zone) <==>
            Instant(t, zone) == Instant(u, zone) && id == other
  {
    CursorCarriesInstant(t, id, zone);
    CursorCarriesInstant(u, other, zone);
  }

  /** At one offset, cursors are ordered as the datetimes they were made from. */
  lemma CursorOrders(t: Timestamp, id: int, u: Timestamp, other: int, zone: int)
    requires Valid(t) && Valid(u) && t.offset == u.offset
    ensures PositionOf(EncodeCursor(t, id), zone).Some? && PositionOf(EncodeCursor(u, other), zone).Some?
    ensures Before(t, u) <==>
            PositionOf(EncodeCursor(t, id), zone).value.0 < PositionOf(EncodeCursor(u, other), zone).value.0
  {
    CursorCarriesInstant(t, id, zone);
    CursorCarriesInstant(u, other, zone);
    InstantOrders(t, u, zone);
  }

  // --- the layout, character by character -------------------------------------------

  /** The number n stands in s, in `width` digits from position i on. */
  predicate StandsAt(s: string, i: nat, width: nat, n: nat) {
    i + width <= |s| && AllDigits(s[i..i + width]) && Number(s[i..i + width]) == n
  }

  lemma FieldFirst(n: nat, width: nat, rest: string)
    requires n < Power(width)
    ensures var s := Pad(n, width) + rest;
            |s| == width + |rest| && s[width..] == rest && StandsAt(s, 0, width, n)
  {
    PadNumber(n, width);
    assert (Pad(n, width) + rest)[..width] == Pad(n, width);
  }

  /** What stands in a tail of s stands in s. */
  lemma Behind(s: string, k: nat, i: nat, width: nat, n: nat)
    requires k <= |s| && StandsAt(s[k..], i, width, n)
    ensures StandsAt(s, k + i, width, n)
  {
    assert s[k..][i..i + width] == s[k + i..k + i + width];
  }

  /** Two digits, a separator and more. */
  lemma Pair(n: nat, width: nat, c: char, rest: string)
    requires n < Power(width)
    ensures var s := Pad(n, width) + ([c] + rest);
            |s| == width + 1 + |rest| && StandsAt(s, 0, width, n) && s[width] == c && s[width + 1..] == rest
  {
    FieldFirst(n, width, [c] + rest);
  }

  lemma DateLayout(d: Date, rest: string)
    requires ValidDate(d)
    ensures var s := PrintDate(d, rest);
            && |s| == 10 + |rest| && s[10..] == rest && s[4] == s[7] == '-'
            && StandsAt(s, 0, 4, d.year) && StandsAt(s, 5, 2, d.month) && StandsAt(s, 8, 2, d.day)
  {
    var s := PrintDate(d, rest);
    assert Power(4) == 10000 && Power(2) == 100;
    var fromDay := Pad(d.day, 2) + rest;
    var fromMonth := Pad(d.month, 2) + (['-'] + fromDay);
    Pair(d.year, 4, '-', fromMonth);
    Pair(d.month, 2, '-', fromDay);
    FieldFirst(d.day, 2, rest);
    Behind(s, 5, 0, 2, d.month);
    assert s[8..] == fromMonth[3..];
    Behind(s, 8, 0, 2, d.day);
    assert s[10..] == s[8..][2..];
  }

  lemma ClockLayout(c: Clock, rest: string)
    requires ValidClock(c)
    ensures var s := PrintClock(c, rest);
            && |s| >= 8 && s[2] == s[5] == ':' && s[8..] == PrintMicro(c.micro, rest)
            && StandsAt(s, 0, 2, c.hour) && StandsAt(s, 3, 2, c.minute) && StandsAt(s, 6, 2, c.second)
  {
    var s, micro := PrintClock(c, rest), PrintMicro(c.micro, rest);
    assert Power(2) == 100;
    var fromSecond := Pad(c.second, 2) + micro;
    var fromMinute := Pad(c.minute, 2) + ([':'] + fromSecond);
    Pair(c.hour, 2, ':', fromMinute);
    Pair(c.minute, 2, ':', fromSecond);
    FieldFirst(c.second, 2, micro);
    Behind(s, 3, 0, 2, c.minute);
    assert s[6..] == fromMinute[3..];
    Behind(s, 6, 0, 2, c.second);
    assert s[8..] == s[6..][2..];
  }

  lemma MicroLayout(micro: nat, rest: string)
    requires micro < SECOND
    ensures var s := PrintMicro(micro, rest);
            if micro == 0 then s == rest
            else |s| == 7 + |rest| && s[0] == '.' && s[7..] == rest && StandsAt(s, 1, 6, micro)
  {
    if micro > 0 {
      assert Power(6) == 1_000_000;
      FieldFirst(micro, 6, rest);
      var s := PrintMicro(micro, rest);
      assert s[1..] == Pad(micro, 6) + rest;
      Behind(s, 1, 0, 6, micro);
      assert s[7..] == s[1..][6..];
    }
  }

  lemma BehindDate(s: string, clock: string, c: Clock)
    requires |s| >= 11 && s[11..] == clock && |clock| >= 8 && clock[2] == clock[5] == ':'
    requires StandsAt(clock, 0, 2, c.hour) && StandsAt(clock, 3, 2, c.minute) && StandsAt(clock, 6, 2, c.second)
    ensures |s| >= 19 && s[13] == s[16] == ':' && s[19..] == clock[8..]
    ensures StandsAt(s, 11, 2, c.hour) && StandsAt(s, 14, 2, c.minute) && StandsAt(s, 17, 2, c.second)
  {
    Behind(s, 11, 0, 2, c.hour);
    Behind(s, 11, 3, 2, c.minute);
    Behind(s, 11, 6, 2, c.second);
  }

  lemma BehindClock(s: string, micro: nat, rest: string)
    requires |s| >= 19 && 0 < micro < SECOND && s[19..] == PrintMicro(micro, rest)
    ensures |s| == 26 + |rest| && s[19] == '.' && StandsAt(s, 20, 6, micro) && s[26..] == rest
  {
    MicroLayout(micro, rest);
    Behind(s, 19, 1, 6, micro);
    assert s[26..] == s[19..][7..];
  }

  predicate LaidOut(s: string, t: Timestamp, offset: string) {
    && |s| >= 19 && s[4] == s[7] == '-' && s[10] == 'T' && s[13] == s[16] == ':'
    && StandsAt(s, 0, 4, t.date.year) && StandsAt(s, 5, 2, t.date.month) && StandsAt(s, 8, 2, t.date.day)
    && StandsAt(s, 11, 2, t.clock.hour) && StandsAt(s, 14, 2, t.clock.minute) && StandsAt(s, 17, 2, t.clock.second)
    && if t.clock.micro == 0 then s[19..] == offset
       else |s| == 26 + |offset| && s[19] == '.' && StandsAt(s, 20, 6, t.clock.micro) && s[26..] == offset
  }

  lemma DateAndClock(d: Date, c: Clock, offset: string)
    requires ValidDate(d) && ValidClock(c)
    ensures LaidOut(PrintDate(d, ['T'] + PrintClock(c, offset)), Timestamp(d, c, None), offset)
  {
    var clock := PrintClock(c, offset);
    var s := PrintDate(d, ['T'] + clock);
    DateLayout(d, ['T'] + clock);
    ClockLayout(c, offset);
    assert s[11..] == s[10..][1..];
    BehindDate(s, clock, c);
    if c.micro == 0 {
      MicroLayout(0, offset);
    } else {
      BehindClock(s, c.micro, offset);
    }
  }

  /** A timestamp is printed as YYYY-MM-DDThh:mm:ss, then .ffffff unless it is zero, then the offset. */
  lemma IsoLayout(t: Timestamp)
    requires Valid(t)
    ensures LaidOut(Iso(t), t, PrintOffset(t.offset))
  {
    DateAndClock(t.date, t.clock, PrintOffset(t.offset));
  }
}
