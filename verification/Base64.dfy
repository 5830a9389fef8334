/** URL-safe base64 (section 5 of RFC 4648), with the padding stripped (section 3.2) and restored;
    decoding is as lenient as the standard library's: characters outside the alphabet are skipped. */
module Base64 {
  import opened Tables

  type byte = b: int | 0 <= b < 256
  type sextet = v: int | 0 <= v < 64

  function Symbol(v: sextet): char {
    if v < 26 then ('A' as int + v) as char
    else if v < 52 then ('a' as int + v - 26) as char
    else if v < 62 then ('0' as int + v - 52) as char
    else if v == 62 then '-' else '_'
  }

  /** The value of a symbol; the two symbols of the plain alphabet are read as well. */
  function Value(c: char): Option<sextet> {
    if 'A' <= c <= 'Z' then Some(c as int - 'A' as int)
    else if 'a' <= c <= 'z' then Some(c as int - 'a' as int + 26)
    else if '0' <= c <= '9' then Some(c as int - '0' as int + 52)
    else if c == '-' || c == '+' then Some(62)
    else if c == '_' || c == '/' then Some(63)
    else None
  }

  lemma ValueSymbol(v: sextet)
    ensures Value(Symbol(v)) == Some(v) && Symbol(v) != '='
  {
  }

  /** Only symbols of the URL-safe alphabet. */
  predicate UrlSafe(s: string) {
    forall k :: 0 <= k < |s| ==> IsSymbol(s[k])
  }

  predicate IsSymbol(c: char) {
    'A' <= c <= 'Z' || 'a' <= c <= 'z' || '0' <= c <= '9' || c == '-' || c == '_'
  }

  /** Three bytes as four symbols. */
  function Quad(a: byte, b: byte, c: byte): (s: string)
    ensures |s| == 4 && UrlSafe(s)
  {
    [Symbol(a / 4), Symbol(a % 4 * 16 + b / 16), Symbol(b % 16 * 4 + c / 64), Symbol(c % 64)]
  }

  function Encode(bs: seq<byte>): string {
    if bs == [] then ""
    else if |bs| == 1 then [Symbol(bs[0] / 4), Symbol(bs[0] % 4 * 16), '=', '=']
    else if |bs| == 2 then [Symbol(bs[0] / 4), Symbol(bs[0] % 4 * 16 + bs[1] / 16), Symbol(bs[1] % 16 * 4), '=']
    else Quad(bs[0], bs[1], bs[2]) + Encode(bs[3..])
  }

  /** One byte in front of what the rest decodes to. */
  function Emit(b: byte, rest: Option<seq<byte>>): Option<seq<byte>> {
    match rest
    case None => None
    case Some(bs) => Some([b] + bs)
  }

  /** Decoding from the middle of a quad: `pos` symbols of it read, the last of which left the bits
      `left`, and `pads` padding characters seen. A complete padding ends the input. */
  function Scan(s: string, pos: nat, left: sextet, pads: nat): Option<seq<byte>>
    requires pos < 4 && (pos == 2 ==> left < 16) && (pos == 3 ==> left < 4)
  {
    if s == "" then if pos == 0 then Some([]) else None
    else if s[0] == '=' then
      if pos >= 2 && pos + pads + 1 >= 4 then Some([]) else Scan(s[1..], pos, left, if pos >= 2 then pads + 1 else pads)
    else
      match Value(s[0])
      case None => Scan(s[1..], pos, left, pads)
      case Some(v) =>
        if pos == 0 then Scan(s[1..], 1, v, 0)
        else if pos == 1 then Emit(left * 4 + v / 16, Scan(s[1..], 2, v % 16, 0))
        else if pos == 2 then Emit(left * 16 + v / 4, Scan(s[1..], 3, v % 4, 0))
        else Emit(left * 64 + v, Scan(s[1..], 0, 0, 0))
  }

  function Decode(s: string): Option<seq<byte>> {
    Scan(s, 0, 0, 0)
  }

  function StripPadding(s: string): string {
    if s != "" && s[|s| - 1] == '=' then StripPadding(s[..|s| - 1]) else s
  }

  function Repeat(c: char, n: nat): string {
    if n == 0 then "" else [c] + Repeat(c, n - 1)
  }

  /** As many padding characters as `-len(s) % 4` asks for. */
  function RestorePadding(s: string): string {
    s + Repeat('=', (-|s|) % 4)
  }

  /** Reading one symbol. */
  lemma ScanSymbol(v: sextet, rest: string, pos: nat, left: sextet, pads: nat)
    requires pos < 4 && (pos == 2 ==> left < 16) && (pos == 3 ==> left < 4)
    ensures Scan([Symbol(v)] + rest, pos, left, pads) ==
            if pos == 0 then Scan(rest, 1, v, 0)
            else if pos == 1 then Emit(left * 4 + v / 16, Scan(rest, 2, v % 16, 0))
            else if pos == 2 then Emit(left * 16 + v / 4, Scan(rest, 3, v % 4, 0))
            else Emit(left * 64 + v, Decode(rest))
  {
    ValueSymbol(v);
    assert ([Symbol(v)] + rest)[1..] == rest;
  }

  /** The first byte of a group, spread over two symbols. */
  lemma ScanFirst(a: byte, high: nat, rest: string)
    requires high < 16
    ensures Decode([Symbol(a / 4), Symbol(a % 4 * 16 + high)] + rest) == Emit(a, Scan(rest, 2, high, 0))
  {
    var second := [Symbol(a % 4 * 16 + high)] + rest;
    assert [Symbol(a / 4), Symbol(a % 4 * 16 + high)] + rest == [Symbol(a / 4)] + second;
    ScanSymbol(a / 4, second, 0, 0, 0);
    ScanSymbol(a % 4 * 16 + high, rest, 1, a / 4, 0);
    assert (a % 4 * 16 + high) / 16 == a % 4 && (a % 4 * 16 + high) % 16 == high;
  }

  lemma ScanSecond(b: byte, high: nat, rest: string)
    requires high < 4
    ensures Scan([Symbol(b % 16 * 4 + high)] + rest, 2, b / 16, 0) == Emit(b, Scan(rest, 3, high, 0))
  {
    ScanSymbol(b % 16 * 4 + high, rest, 2, b / 16, 0);
    assert (b % 16 * 4 + high) / 4 == b % 16 && (b % 16 * 4 + high) % 4 == high;
  }

  lemma ScanQuad(a: byte, b: byte, c: byte, rest: string)
    ensures Decode(Quad(a, b, c) + rest) == Emit(a, Emit(b, Emit(c, Decode(rest))))
  {
    var quad := Quad(a, b, c);
    var fourth := [Symbol(c % 64)] + rest;
    var third := [Symbol(b % 16 * 4 + c / 64)] + fourth;
    assert quad + rest == [quad[0], quad[1]] + third;
    ScanFirst(a, b / 16, third);
    ScanSecond(b, c / 64, fourth);
    ScanSymbol(c % 64, rest, 3, c / 64, 0);
  }

  lemma ScanOne(a: byte)
    ensures Decode([Symbol(a / 4), Symbol(a % 4 * 16), '=', '=']) == Some([a])
  {
    var s := [Symbol(a / 4), Symbol(a % 4 * 16), '=', '='];
    assert s == [Symbol(a / 4), Symbol(a % 4 * 16 + 0)] + ['=', '='];
    ScanFirst(a, 0, ['=', '=']);
    assert ['=', '='][1..] == ['='];
    assert Scan(['='], 2, 0, 1) == Some([]);
    assert Scan(['=', '='], 2, 0, 0) == Some([]);
    assert [a] + [] == [a];
  }

  lemma ScanTwo(a: byte, b: byte)
    ensures Decode([Symbol(a / 4), Symbol(a % 4 * 16 + b / 16), Symbol(b % 16 * 4), '=']) == Some([a, b])
  {
    var s := [Symbol(a / 4), Symbol(a % 4 * 16 + b / 16), Symbol(b % 16 * 4), '='];
    assert s == [s[0], s[1]] + ([Symbol(b % 16 * 4 + 0)] + ['=']);
    ScanFirst(a, b / 16, [Symbol(b % 16 * 4 + 0)] + ['=']);
    ScanSecond(b, 0, ['=']);
    assert Scan(['='], 3, 0, 0) == Some([]);
    assert [a] + ([b] + []) == [a, b];
  }

  lemma {:induction false} DecodeEncode(bs: seq<byte>)
    ensures Decode(Encode(bs)) == Some(bs)
  {
    if |bs| == 1 {
      ScanOne(bs[0]);
      assert bs == [bs[0]];
    } else if |bs| == 2 {
      ScanTwo(bs[0], bs[1]);
      assert bs == [bs[0], bs[1]];
    } else if |bs| >= 3 {
      ScanQuad(bs[0], bs[1], bs[2], Encode(bs[3..]));
      DecodeEncode(bs[3..]);
      assert bs == [bs[0]] + ([bs[1]] + ([bs[2]] + bs[3..]));
    }
  }

  /** The encoding without its padding: the symbols alone. */
  function Core(bs: seq<byte>): (s: string)
    ensures UrlSafe(s)
  {
    if bs == [] then ""
    else if |bs| == 1 then [Symbol(bs[0] / 4), Symbol(bs[0] % 4 * 16)]
    else if |bs| == 2 then [Symbol(bs[0] / 4), Symbol(bs[0] % 4 * 16 + bs[1] / 16), Symbol(bs[1] % 16 * 4)]
    else Quad(bs[0], bs[1], bs[2]) + Core(bs[3..])
  }

  lemma RestoreBehind(quad: string, rest: string)
    requires |quad| == 4
    ensures RestorePadding(quad + rest) == quad + RestorePadding(rest)
  {
    PadCount(|rest|);
    assert |quad + rest| == |rest| + 4;
  }

  lemma PadCount(n: int)
    ensures (-(n + 4)) % 4 == (-n) % 4
  {
  }

  lemma RestoreShort(s: string)
    requires |s| == 2 || |s| == 3
    ensures RestorePadding(s) == s + if |s| == 2 then ['=', '='] else ['=']
  {
    assert Repeat('=', 1) == ['='] && Repeat('=', 2) == ['='] + Repeat('=', 1);
  }

  lemma {:induction false} PaddedCore(bs: seq<byte>)
    ensures Encode(bs) == RestorePadding(Core(bs))
  {
    if bs == [] {
    } else if |bs| < 3 {
      RestoreShort(Core(bs));
    } else {
      PaddedCore(bs[3..]);
      RestoreBehind(Quad(bs[0], bs[1], bs[2]), Core(bs[3..]));
    }
  }

  lemma {:induction false} StripRepeat(core: string, n: nat)
    requires core == "" || core[|core| - 1] != '='
    ensures StripPadding(core + Repeat('=', n)) == core
  {
    if n == 0 {
      assert core + "" == core;
    } else {
      RepeatEnds(n);
      var s := core + Repeat('=', n);
      assert s[..|s| - 1] == core + Repeat('=', n - 1);
      StripRepeat(core, n - 1);
    }
  }

  lemma {:induction false} RepeatEnds(n: nat)
    requires n > 0
    ensures |Repeat('=', n)| == n && Repeat('=', n) == Repeat('=', n - 1) + ['=']
  {
    if n > 1 {
      RepeatEnds(n - 1);
      assert Repeat('=', n) == ['='] + (Repeat('=', n - 2) + ['=']);
    }
  }

  lemma StrippedIsCore(bs: seq<byte>)
    ensures StripPadding(Encode(bs)) == Core(bs)
  {
    var core := Core(bs);
    PaddedCore(bs);
    assert core != "" ==> IsSymbol(core[|core| - 1]);
    StripRepeat(core, (-|core|) % 4);
  }

  /** Stripped of its padding, restored and decoded, any byte string comes back; the stripped form
      is made of URL-safe symbols only. */
  lemma StrippedRoundTrip(bs: seq<byte>)
    ensures Decode(RestorePadding(StripPadding(Encode(bs)))) == Some(bs)
    ensures UrlSafe(StripPadding(Encode(bs)))
  {
    StrippedIsCore(bs);
    PaddedCore(bs);
    DecodeEncode(bs);
  }

  lemma ShortVectors()
    ensures Encode([0x66]) == "Zg==" && Encode([0x66, 0x6f]) == "Zm8=" && Encode([0x62]) == "Yg=="
    ensures Encode([0x62, 0x61]) == "YmE=" && Encode([]) == ""
  {
  }

  lemma GroupVectors()
    ensures Quad(0x66, 0x6f, 0x6f) == "Zm9v" && Quad(0x62, 0x61, 0x72) == "YmFy" && Quad(0xfb, 0xff, 0xfe) == "-__-"
  {
  }

  lemma EncodeGroup(a: byte, b: byte, c: byte, rest: seq<byte>)
    ensures Encode([a, b, c] + rest) == Quad(a, b, c) + Encode(rest)
  {
    assert ([a, b, c] + rest)[3..] == rest;
  }

  /** The test vectors of section 10 of RFC 4648, and the last two symbols of the URL-safe alphabet. */
  lemma TestVectors()
    ensures Encode([]) == "" && Encode([0x66]) == "Zg==" && Encode([0x66, 0x6f]) == "Zm8="
    ensures Encode([0x66, 0x6f, 0x6f] + []) == "Zm9v" && Encode([0x66, 0x6f, 0x6f] + [0x62]) == "Zm9vYg=="
    ensures Encode([0x66, 0x6f, 0x6f] + [0x62, 0x61]) == "Zm9vYmE="
    ensures Encode([0x66, 0x6f, 0x6f] + ([0x62, 0x61, 0x72] + [])) == "Zm9vYmFy"
    ensures Encode([0xfb, 0xff, 0xfe] + []) == "-__-"
  {
    ShortVectors();
    GroupVectors();
    EncodeGroup(0x66, 0x6f, 0x6f, []);
    EncodeGroup(0x66, 0x6f, 0x6f, [0x62]);
    EncodeGroup(0x66, 0x6f, 0x6f, [0x62, 0x61]);
    EncodeGroup(0x62, 0x61, 0x72, []);
    EncodeGroup(0x66, 0x6f, 0x6f, [0x62, 0x61, 0x72] + []);
    EncodeGroup(0xfb, 0xff, 0xfe, []);
  }

  /** A character of neither alphabet, wherever it stands, does not change what a string decodes to. */
  lemma {:induction false} ForeignIsSkipped(front: string, c: char, rest: string, pos: nat, left: sextet, pads: nat)
    requires pos < 4 && (pos == 2 ==> left < 16) && (pos == 3 ==> left < 4)
    requires Value(c) == None && c != '='
    ensures Scan(front + [c] + rest, pos, left, pads) == Scan(front + rest, pos, left, pads)
  {
    if front == "" {
      assert front + [c] + rest == [c] + rest && front + rest == rest;
      assert ([c] + rest)[1..] == rest;
    } else {
      assert (front + [c] + rest)[1..] == front[1..] + [c] + rest && (front + rest)[1..] == front[1..] + rest;
      if front[0] == '=' {
        if !(pos >= 2 && pos + pads + 1 >= 4) {
          ForeignIsSkipped(front[1..], c, rest, pos, left, if pos >= 2 then pads + 1 else pads);
        }
      } else {
        match Value(front[0])
        case None => ForeignIsSkipped(front[1..], c, rest, pos, left, pads);
        case Some(v) =>
          ForeignIsSkipped(front[1..], c, rest, (pos + 1) % 4,
                           if pos == 0 then v else if pos == 1 then v % 16 else if pos == 2 then v % 4 else 0, 0);
      }
    }
  }
}
