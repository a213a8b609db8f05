/** The check on where a sign-in may lead. Strings are bytes, written as chars below 256. What
    net/url makes of the accepted value is a parameter. */
module ReturnTo {
  import opened Tenancy

  const DEFAULT_RETURN_TO := "/app"
  const MAX_RETURN_TO := 1024
  const REPLACEMENT := 0xFFFD

  // ---- Percent-decoding (section 2.1 of RFC 3986) ---------------------------------------------------------

  predicate IsHex(c: char) { '0' <= c <= '9' || 'a' <= c <= 'f' || 'A' <= c <= 'F' }

  function HexValue(c: char): nat
    requires IsHex(c)
  {
    if c <= '9' then c as int - '0' as int else if c <= 'F' then c as int - 'A' as int + 10
      else c as int - 'a' as int + 10
  }

  /** None for a '%' without two hex digits after it. */
  function PathUnescape(s: string): Option<string> {
    if s == "" then Some("")
    else if s[0] == '%' then
      if |s| < 3 || !IsHex(s[1]) || !IsHex(s[2]) then None
      else
        match PathUnescape(s[3..])
        case None => None
        case Some(r) => Some([(16 * HexValue(s[1]) + HexValue(s[2])) as char] + r)
    else
      match PathUnescape(s[1..])
      case None => None
      case Some(r) => Some([s[0]] + r)
  }

  /** How a byte may be spelled: as it is, or as two hex digits, each in either case. */
  datatype Spelling = Bare | Hex(upperFirst: bool, upperSecond: bool)

  function HexDigit(n: nat, upper: bool): char
    requires n < 16
  {
    if upper then "0123456789ABCDEF"[n] else "0123456789abcdef"[n]
  }

  function Spelled(c: char, how: Spelling): string
    requires how.Hex? ==> c as int < 256
  {
    match how
    case Bare => [c]
    case Hex(a, b) => ['%', HexDigit(c as int / 16, a), HexDigit(c as int % 16, b)]
  }

  /** A percent sign has no bare spelling, and only bytes have a hex one. */
  predicate Spells(s: string, how: seq<Spelling>) {
    |how| == |s| && forall i :: 0 <= i < |s| ==> if how[i].Bare? then s[i] != '%' else s[i] as int < 256
  }

  function Encoded(s: string, how: seq<Spelling>): string
    requires Spells(s, how)
  {
    if s == "" then "" else Spelled(s[0], how[0]) + Encoded(s[1..], how[1..])
  }

  lemma HexReadsBack(n: nat, upper: bool)
    requires n < 16
    ensures IsHex(HexDigit(n, upper)) && HexValue(HexDigit(n, upper)) == n
  {
    assert HexDigit(n, upper) as int == n + (if n < 10 then '0' as int else if upper then 'A' as int - 10
      else 'a' as int - 10);
  }

  /** Decoding undoes percent-encoding, whichever bytes are encoded and in whichever case. */
  lemma {:induction false} DecodingUndoesEncoding(s: string, how: seq<Spelling>)
    requires Spells(s, how)
    ensures PathUnescape(Encoded(s, how)) == Some(s)
  {
    hide HexDigit, HexValue;
    if s == "" {
    } else {
      var c, tail := s[0] as int, Encoded(s[1..], how[1..]);
      DecodingUndoesEncoding(s[1..], how[1..]);
      assert s == [s[0]] + s[1..];
      var whole := Encoded(s, how);
      match how[0]
      case Bare => assert whole == [s[0]] + tail && whole[1..] == tail;
      case Hex(a, b) =>
        HexReadsBack(c / 16, a);
        HexReadsBack(c % 16, b);
        assert whole[3..] == tail;
        assert 16 * (c / 16) + c % 16 == c;
    }
  }

  lemma HexIsDigit(h: char) returns (upper: bool)
    requires IsHex(h)
    ensures HexValue(h) < 16 && h == HexDigit(HexValue(h), upper)
  {
    upper := h <= 'F';
    var n := HexValue(h);
    assert HexDigit(n, upper) as int == n + (if n < 10 then '0' as int else if upper then 'A' as int - 10
      else 'a' as int - 10);
  }

  lemma OneMoreSpelled(c: char, h: Spelling, s: string, how: seq<Spelling>)
    requires Spells(s, how) && if h.Bare? then c != '%' else c as int < 256
    ensures Spells([c] + s, [h] + how) && Encoded([c] + s, [h] + how) == Spelled(c, h) + Encoded(s, how)
  {
    hide Spelled;
    assert ([c] + s)[1..] == s && ([h] + how)[1..] == how;
  }

  lemma HexIsSpelling(x: char, y: char) returns (c: char, h: Spelling)
    requires IsHex(x) && IsHex(y)
    ensures c as int == 16 * HexValue(x) + HexValue(y) && c as int < 256 && h.Hex? && Spelled(c, h) == ['%', x, y]
  {
    hide HexDigit, HexValue, IsHex;
    var a := HexIsDigit(x);
    var b := HexIsDigit(y);
    c, h := (16 * HexValue(x) + HexValue(y)) as char, Hex(a, b);
  }

  /** And it decodes nothing else: whatever decodes to s is an encoding of s. */
  lemma {:induction false} DecodedIsEncoding(t: string) returns (how: seq<Spelling>)
    requires PathUnescape(t).Some?
    ensures Spells(PathUnescape(t).value, how) && Encoded(PathUnescape(t).value, how) == t
  {
    hide HexDigit, HexValue, IsHex, Spells, Encoded;
    if t == "" {
      how := [];
      NothingSpelled();
    } else if t[0] == '%' {
      var c, h := HexIsSpelling(t[1], t[2]);
      var rest := DecodedIsEncoding(t[3..]);
      how := [h] + rest;
      OneMoreSpelled(c, h, PathUnescape(t[3..]).value, rest);
      assert t == ['%', t[1], t[2]] + t[3..];
    } else {
      var rest := DecodedIsEncoding(t[1..]);
      how := [Bare] + rest;
      OneMoreSpelled(t[0], Bare, PathUnescape(t[1..]).value, rest);
      assert t == [t[0]] + t[1..];
    }
  }

  lemma NothingSpelled()
    ensures Spells("", []) && Encoded("", []) == ""
  {
  }

  // ---- Runes, as ranging over a string yields them ----------------------------------------------------------

  predicate Continues(s: string, i: nat, low: int, high: int) { i < |s| && low <= s[i] as int <= high }

  /** The first rune and its width; anything that is not well-formed UTF-8 is one byte wide. */
  function FirstRune(s: string): (r: (int, nat))
    requires s != ""
    ensures 1 <= r.1 <= |s|
    ensures r.1 > 1 ==> s[0] as int >= 0x80 && forall k :: 0 < k < r.1 ==> s[k] as int >= 0x80
    ensures s[0] as int < 0x80 ==> r == (s[0] as int, 1)
  {
    var b := s[0] as int;
    if b < 0x80 then (b, 1)
    else if 0xC2 <= b <= 0xDF && Continues(s, 1, 0x80, 0xBF) then ((b - 0xC0) * 64 + (s[1] as int - 0x80), 2)
    else if 0xE0 <= b <= 0xEF && Continues(s, 1, if b == 0xE0 then 0xA0 else 0x80, if b == 0xED then 0x9F else 0xBF) &&
            Continues(s, 2, 0x80, 0xBF) then
      ((b - 0xE0) * 4096 + (s[1] as int - 0x80) * 64 + (s[2] as int - 0x80), 3)
    else if 0xF0 <= b <= 0xF4 && Continues(s, 1, if b == 0xF0 then 0x90 else 0x80, if b == 0xF4 then 0x8F else 0xBF) &&
            Continues(s, 2, 0x80, 0xBF) && Continues(s, 3, 0x80, 0xBF) then
      ((b - 0xF0) * 262144 + (s[1] as int - 0x80) * 4096 + (s[2] as int - 0x80) * 64 + (s[3] as int - 0x80), 4)
    else (REPLACEMENT, 1)
  }

  function Runes(s: string): seq<int>
    decreases |s|
  {
    if s == "" then [] else var (rune, width) := FirstRune(s); [rune] + Runes(s[width..])
  }

  /** A Unicode code point that is no surrogate. */
  predicate Scalar(r: int) { 0 <= r < 0xD800 || 0xDFFF < r < 0x110000 }

  /** UTF-8 (section 3 of RFC 3629). */
  function Utf8(r: int): string
    requires Scalar(r)
  {
    if r < 0x80 then [r as char]
    else if r < 0x800 then [(0xC0 + r / 64) as char, (0x80 + r % 64) as char]
    else if r < 0x10000 then
      [(0xE0 + r / 4096) as char, (0x80 + r / 64 % 64) as char, (0x80 + r % 64) as char]
    else
      [(0xF0 + r / 262144) as char, (0x80 + r / 4096 % 64) as char, (0x80 + r / 64 % 64) as char,
       (0x80 + r % 64) as char]
  }

  /** Well-formed text: ranging over it gives its code points back. */
  function Utf8Text(rs: seq<int>): string
    requires forall r :: r in rs ==> Scalar(r)
  {
    if rs == [] then "" else
      assert rs[0] in rs && forall r :: r in rs[1..] ==> r in rs;
      Utf8(rs[0]) + Utf8Text(rs[1..])
  }

  lemma ShortRuneReadsBack(r: int, rest: string)
    requires 0 <= r < 0x800
    ensures FirstRune(Utf8(r) + rest) == (r, |Utf8(r)|)
  {
    var s := Utf8(r) + rest;
    assert s[0] == Utf8(r)[0];
    if r >= 0x80 { assert s[1] == Utf8(r)[1] && r == 64 * (r / 64) + r % 64; }
  }

  lemma MiddleRuneReadsBack(r: int, rest: string)
    requires Scalar(r) && 0x800 <= r < 0x10000
    ensures FirstRune(Utf8(r) + rest) == (r, 3)
  {
    var s := Utf8(r) + rest;
    var a, b, c := r / 4096, r / 64 % 64, r % 64;
    assert r == 4096 * a + 64 * b + c;
    assert s[0] as int == 0xE0 + a && s[1] as int == 0x80 + b && s[2] as int == 0x80 + c;
  }

  lemma LongRuneParts(r: int) returns (a: nat, b: nat, c: nat, d: nat)
    requires 0x10000 <= r < 0x110000
    ensures b < 64 && c < 64 && d < 64 && r == 262144 * a + 4096 * b + 64 * c + d
    ensures a <= 4 && (a == 0 ==> b >= 16) && (a == 4 ==> b < 16)
    ensures |Utf8(r)| == 4 && Utf8(r)[0] as int == 0xF0 + a && Utf8(r)[1] as int == 0x80 + b
    ensures Utf8(r)[2] as int == 0x80 + c && Utf8(r)[3] as int == 0x80 + d
  {
    a, b, c, d := r / 262144, r / 4096 % 64, r / 64 % 64, r % 64;
  }

  lemma LongRuneReadsBack(r: int, rest: string)
    requires 0x10000 <= r < 0x110000
    ensures FirstRune(Utf8(r) + rest) == (r, 4)
  {
    hide Utf8;
    var a, b, c, d := LongRuneParts(r);
    var s := Utf8(r) + rest;
    assert s[0] == Utf8(r)[0] && s[1] == Utf8(r)[1] && s[2] == Utf8(r)[2] && s[3] == Utf8(r)[3];
  }

  lemma RuneReadsBack(r: int, rest: string)
    requires Scalar(r)
    ensures FirstRune(Utf8(r) + rest) == (r, |Utf8(r)|)
  {
    hide FirstRune;
    if r < 0x800 {
      ShortRuneReadsBack(r, rest);
    } else if r < 0x10000 {
      MiddleRuneReadsBack(r, rest);
    } else {
      LongRuneReadsBack(r, rest);
    }
  }

  lemma {:induction false} RunesReadBack(rs: seq<int>)
    requires forall r :: r in rs ==> Scalar(r)
    ensures Runes(Utf8Text(rs)) == rs
  {
    hide FirstRune, Utf8;
    if rs == [] {
    } else {
      assert rs[0] in rs && forall r :: r in rs[1..] ==> r in rs;
      RunesReadBack(rs[1..]);
      RuneReadsBack(rs[0], Utf8Text(rs[1..]));
      var s := Utf8(rs[0]) + Utf8Text(rs[1..]);
      assert s[|Utf8(rs[0])|..] == Utf8Text(rs[1..]);
    }
  }

  lemma PartsOfRune(high: nat, low: nat)
    requires low < 64
    ensures (64 * high + low) / 64 == high && (64 * high + low) % 64 == low
  {
  }

  lemma ShortRuneIsUtf8(s: string)
    requires s != "" && FirstRune(s).1 == 2
    ensures Scalar(FirstRune(s).0) && s[..2] == Utf8(FirstRune(s).0)
  {
    PartsOfRune(s[0] as int - 0xC0, s[1] as int - 0x80);
  }

  lemma MiddleRuneIsUtf8(s: string)
    requires s != "" && FirstRune(s).1 == 3
    ensures Scalar(FirstRune(s).0) && s[..3] == Utf8(FirstRune(s).0)
  {
    var a, b, c := s[0] as int - 0xE0, s[1] as int - 0x80, s[2] as int - 0x80;
    PartsOfRune(64 * a + b, c);
    PartsOfRune(a, b);
    assert FirstRune(s).0 == 64 * (64 * a + b) + c;
    assert FirstRune(s).0 / 4096 == a;
  }

  lemma LongRuneIsUtf8(s: string)
    requires s != "" && FirstRune(s).1 == 4
    ensures Scalar(FirstRune(s).0) && s[..4] == Utf8(FirstRune(s).0)
  {
    var a, b, c, d := s[0] as int - 0xF0, s[1] as int - 0x80, s[2] as int - 0x80, s[3] as int - 0x80;
    var r := FirstRune(s).0;
    PartsOfRune(64 * (64 * a + b) + c, d);
    PartsOfRune(64 * a + b, c);
    PartsOfRune(a, b);
    assert r == 64 * (64 * (64 * a + b) + c) + d;
    assert r / 4096 == 64 * a + b && r / 262144 == a;
  }

  /** And a rune that is not the replacement is there in UTF-8. */
  lemma RuneIsUtf8(s: string)
    requires s != "" && FirstRune(s).0 != REPLACEMENT
    ensures Scalar(FirstRune(s).0) && s[..FirstRune(s).1] == Utf8(FirstRune(s).0)
  {
    if FirstRune(s).1 == 2 { ShortRuneIsUtf8(s); }
    if FirstRune(s).1 == 3 { MiddleRuneIsUtf8(s); }
    if FirstRune(s).1 == 4 { LongRuneIsUtf8(s); }
  }

  /** Unicode category Cc. */
  predicate IsControl(r: int) { 0 <= r < 0x20 || 0x7F <= r < 0xA0 }

  /** Unicode property White_Space. */
  predicate IsSpace(r: int) {
    0x09 <= r <= 0x0D || r == 0x20 || r == 0x85 || r == 0xA0 || r == 0x1680 || 0x2000 <= r <= 0x200A ||
    r == 0x2028 || r == 0x2029 || r == 0x202F || r == 0x205F || r == 0x3000
  }

  predicate RuneOk(r: int) {
    r != '\\' as int && !IsControl(r) && r != REPLACEMENT && (r != ' ' as int ==> !IsSpace(r))
  }

  /** Does s look like a same-origin absolute path? */
  predicate PlainLocalPath(s: string) {
    "/" <= s && !("//" <= s) && !("/\\" <= s) && (forall r :: r in Runes(s) ==> RuneOk(r)) && '#' !in s
  }

  lemma {:induction false} AsciiIsItsOwnRune(s: string, i: nat)
    requires i < |s| && s[i] as int < 0x80
    ensures s[i] as int in Runes(s)
    decreases |s|
  {
    var width := FirstRune(s).1;
    if i >= width { AsciiIsItsOwnRune(s[width..], i - width); }
  }

  /** What that means for the bytes a browser sees: one leading slash, and no backslash, no tab or
      newline and no fragment anywhere, however the text is cut into runes. */
  lemma PlainBytes(s: string, i: nat)
    requires PlainLocalPath(s) && i < |s|
    ensures s[0] == '/' && (|s| > 1 ==> s[1] != '/')
    ensures s[i] != '\\' && s[i] != '#' && s[i] as int >= 0x20 && s[i] as int != 0x7F
  {
    if s[i] as int < 0x80 { AsciiIsItsOwnRune(s, i); }
    assert |s| > 1 && s[0] == '/' && s[1] == '/' ==> "//" <= s;
  }

  // ---- The decode chain --------------------------------------------------------------------------------------

  /** Decoding n times; None once a round fails. */
  function Decoded(s: string, n: nat): Option<string> {
    if n == 0 then Some(s)
    else
      match Decoded(s, n - 1)
      case None => None
      case Some(t) => PathUnescape(t)
  }

  /** A round of decoding shortens the text, fails, or has nothing left to decode. */
  lemma {:induction false} DecodingShortens(s: string)
    ensures var d := PathUnescape(s); d.Some? ==>
            |d.value| <= |s| && (|d.value| == |s| <==> d.value == s) && (d.value == s <==> '%' !in s)
  {
    if s == "" {
    } else {
      if s[0] == '%' {
        if |s| >= 3 { DecodingShortens(s[3..]); }
      } else {
        DecodingShortens(s[1..]);
        assert s == [s[0]] + s[1..];
      }
    }
  }

  /** The chain from s stops changing at step n. */
  ghost predicate Settles(s: string, n: nat) {
    Decoded(s, n).None? || Decoded(s, n + 1) == Decoded(s, n)
  }

  /** From any text, decoding fails or reaches a fixpoint within as many rounds as it has bytes. */
  lemma ChainSettles(s: string) returns (n: nat)
    ensures n <= |s| && Settles(s, n)
  {
    n := SettlesFrom(s, 0);
  }

  lemma {:induction false} SettlesFrom(s: string, k: nat) returns (n: nat)
    requires Decoded(s, k).Some? && |Decoded(s, k).value| + k <= |s|
    ensures n <= |s| && Settles(s, n)
    decreases |s| - k
  {
    var t := Decoded(s, k).value;
    DecodingShortens(t);
    if PathUnescape(t).None? {
      n := k + 1;
    } else if PathUnescape(t).value == t {
      n := k;
    } else {
      n := SettlesFrom(s, k + 1);
    }
  }

  lemma {:induction false} SettledForGood(s: string, n: nat, m: nat)
    requires Decoded(s, n + 1) == Decoded(s, n) && n <= m
    ensures Decoded(s, m) == Decoded(s, n)
  {
    if m > n { SettledForGood(s, n, m - 1); }
  }

  // ---- The check ---------------------------------------------------------------------------------------------

  /** Decoding settles at round n, and every round up to it is plain. */
  ghost predicate PlainUntil(raw: string, n: nat) {
    Decoded(raw, n).Some? && Decoded(raw, n + 1) == Decoded(raw, n) &&
    forall k :: 0 <= k <= n ==> Decoded(raw, k).Some? && PlainLocalPath(Decoded(raw, k).value)
  }

  /** Decoding settles within two rounds, all of them plain. */
  ghost predicate DecodesPlainly(raw: string) {
    exists n :: 0 <= n <= 2 && PlainUntil(raw, n)
  }

  /** local says that net/url finds no scheme, host, user, opaque part or fragment. */
  method SafeReturnTo(raw: string, local: string -> bool) returns (r: string)
    ensures r == if 0 < |raw| <= MAX_RETURN_TO && DecodesPlainly(raw) && local(raw) then raw else DEFAULT_RETURN_TO
  {
    if raw == "" || |raw| > MAX_RETURN_TO { return DEFAULT_RETURN_TO; }
    var cur, i := raw, 0;
    while true
      invariant 0 <= i <= 2 && Decoded(raw, i) == Some(cur)
      invariant forall k :: 0 <= k < i ==> Decoded(raw, k).Some? && PlainLocalPath(Decoded(raw, k).value)
      invariant forall k :: 0 <= k < i ==> Decoded(raw, k + 1) != Decoded(raw, k)
      decreases 2 - i
    {
      if !PlainLocalPath(cur) {
        NotPlainly(raw, i);
        return DEFAULT_RETURN_TO;
      }
      var dec := PathUnescape(cur);
      assert Decoded(raw, i + 1) == dec;
      if dec.None? {
        NotPlainly(raw, i);
        return DEFAULT_RETURN_TO;
      }
      if dec.value == cur {
        break;
      }
      if i == 2 {
        NotPlainly(raw, i);
        return DEFAULT_RETURN_TO;
      }
      cur, i := dec.value, i + 1;
    }
    assert PlainUntil(raw, i);
    if !local(raw) { return DEFAULT_RETURN_TO; }
    return raw;
  }

  lemma NotPlainly(raw: string, i: nat)
    requires i <= 2 && Decoded(raw, i).Some?
    requires forall k :: 0 <= k < i ==> Decoded(raw, k + 1) != Decoded(raw, k)
    requires !PlainLocalPath(Decoded(raw, i).value) || Decoded(raw, i + 1).None? ||
             (i == 2 && Decoded(raw, 3) != Decoded(raw, 2))
    ensures !DecodesPlainly(raw)
  {
    forall n | 0 <= n <= 2 ensures !PlainUntil(raw, n) {
      if i <= n && Decoded(raw, i + 1).None? { FailsForGood(raw, i + 1, n + 1); }
    }
  }

  lemma {:induction false} FailsForGood(s: string, n: nat, m: nat)
    requires Decoded(s, n).None? && n <= m
    ensures Decoded(s, m).None?
  {
    if m > n { FailsForGood(s, n, m - 1); }
  }

  /** What the check returns, as a function. */
  ghost function Safe(raw: string, local: string -> bool): string {
    if 0 < |raw| <= MAX_RETURN_TO && DecodesPlainly(raw) && local(raw) then raw else DEFAULT_RETURN_TO
  }

  lemma DefaultRunes()
    ensures Runes(DEFAULT_RETURN_TO) == [0x2F, 0x61, 0x70, 0x70]
  {
    var s := DEFAULT_RETURN_TO;
    assert FirstRune(s) == (0x2F, 1) && FirstRune(s[1..]) == (0x61, 1);
    assert Runes(s[4..]) == [] && Runes(s[3..]) == [0x70] && Runes(s[2..]) == [0x70, 0x70];
    assert Runes(s[1..]) == [0x61, 0x70, 0x70];
  }

  lemma DefaultIsPlain()
    ensures DecodesPlainly(DEFAULT_RETURN_TO)
  {
    var s := DEFAULT_RETURN_TO;
    DefaultRunes();
    DecodesToItself(s);
    assert Decoded(s, 0) == Some(s) && Decoded(s, 1) == Some(s);
    assert PlainLocalPath(s);
    assert PlainUntil(s, 0);
  }

  lemma {:induction false} DecodesToItself(s: string)
    requires '%' !in s
    ensures PathUnescape(s) == Some(s)
  {
    if s == "" {
    } else {
      assert s[0] in s && s == [s[0]] + s[1..];
      DecodesToItself(s[1..]);
    }
  }

  /** Whatever the check lets through or falls back to, every iterate of percent-decoding it, any
      number of times, exists and is a plain local path. */
  lemma EveryDecodingIsPlain(raw: string, local: string -> bool, n: nat)
    ensures var d := Decoded(Safe(raw, local), n); d.Some? && PlainLocalPath(d.value)
  {
    var s := Safe(raw, local);
    DefaultIsPlain();
    var m :| 0 <= m <= 2 && PlainUntil(s, m);
    if n > m { SettledForGood(s, m, n); }
  }

  /** Checking again, as the callback does, changes nothing. */
  lemma SafeIsIdempotent(raw: string, local: string -> bool)
    requires local(DEFAULT_RETURN_TO)
    ensures Safe(Safe(raw, local), local) == Safe(raw, local)
  {
    DefaultIsPlain();
  }

  /** Two rounds are enough to see through anything accepted, and a value that is plain at every
      round but takes three to settle is refused all the same. */
  lemma DeepEncodingIsRefused(raw: string, local: string -> bool)
    requires Decoded(raw, 3).Some? && Decoded(raw, 3) != Decoded(raw, 2)
    ensures Safe(raw, local) == DEFAULT_RETURN_TO
  {
    if DecodesPlainly(raw) {
      var n :| 0 <= n <= 2 && PlainUntil(raw, n);
      SettledForGood(raw, n, 2);
    }
  }

  /** An ordinary path is let through: plain ASCII text after a single slash, with nothing to decode. */
  lemma OrdinaryPathIsKept(raw: string, local: string -> bool)
    requires 0 < |raw| <= 1024 && raw[0] == '/' && (|raw| > 1 ==> raw[1] != '/') && local(raw)
    requires forall i :: 0 <= i < |raw| ==> ' ' <= raw[i] <= '~' && raw[i] !in {'\\', '#', '%'}
    ensures Safe(raw, local) == raw
  {
    AsciiRunes(raw);
    DecodesToItself(raw);
    assert Decoded(raw, 0) == Some(raw) && Decoded(raw, 1) == Some(raw);
    assert PlainUntil(raw, 0);
  }

  lemma {:induction false} AsciiRunes(s: string)
    requires forall i :: 0 <= i < |s| ==> s[i] as int < 0x80
    ensures |Runes(s)| == |s| && forall i :: 0 <= i < |s| ==> Runes(s)[i] == s[i] as int
    decreases |s|
  {
    if s != "" { AsciiRunes(s[1..]); }
  }
}
