/** UTF-8 text as `src/util.rs` handles it. A Rust `str` is a `string`: a Dafny
    `char` is exactly a Unicode scalar value. `Encode` gives its bytes (section 3 of
    RFC 3629) and `WellFormed` is the byte grammar of section 4 of the same RFC. */
module Utf8 {

  type Byte = b: int | 0 <= b < 256
  type Bytes = seq<Byte>

  function Width(c: char): (n: nat)
    ensures 1 <= n <= 4
  {
    var v := c as int;
    if v < 0x80 then 1 else if v < 0x800 then 2 else if v < 0x10000 then 3 else 4
  }

  function EncodeChar(c: char): (b: Bytes)
    ensures |b| == Width(c)
  {
    var v := c as int;
    if v < 0x80 then [v]
    else if v < 0x800 then [0xC0 + v / 64, 0x80 + v % 64]
    else if v < 0x10000 then [0xE0 + v / 64 / 64, 0x80 + v / 64 % 64, 0x80 + v % 64]
    else [0xF0 + v / 64 / 64 / 64, 0x80 + v / 64 / 64 % 64, 0x80 + v / 64 % 64, 0x80 + v % 64]
  }

  function Encode(s: string): Bytes {
    if s == [] then [] else EncodeChar(s[0]) + Encode(s[1..])
  }

  /** `str::len`: the byte length. */
  function Len(s: string): nat {
    if s == [] then 0 else Width(s[0]) + Len(s[1..])
  }

  predicate Tail(b: Byte) {
    0x80 <= b < 0xC0
  }

  /** How many bytes the first character of `b` takes under the RFC 3629 grammar; 0 if none matches. */
  function HeadWidth(b: Bytes): (n: nat)
    ensures n <= |b| && n <= 4
  {
    if b == [] then 0
    else if b[0] < 0x80 then 1
    else if |b| >= 2 && 0xC2 <= b[0] <= 0xDF && Tail(b[1]) then 2
    else if |b| >= 3 && Tail(b[1]) && Tail(b[2]) && 0xE0 <= b[0] <= 0xEF
            && (b[0] == 0xE0 ==> b[1] >= 0xA0) && (b[0] == 0xED ==> b[1] <= 0x9F) then 3
    else if |b| >= 4 && Tail(b[1]) && Tail(b[2]) && Tail(b[3]) && 0xF0 <= b[0] <= 0xF4
            && (b[0] == 0xF0 ==> b[1] >= 0x90) && (b[0] == 0xF4 ==> b[1] <= 0x8F) then 4
    else 0
  }

  predicate WellFormed(b: Bytes) {
    b == [] || (HeadWidth(b) > 0 && WellFormed(b[HeadWidth(b)..]))
  }

  function HeadCode(b: Bytes): (v: int)
    requires HeadWidth(b) > 0
    ensures (0 <= v < 0xD800 || 0xE000 <= v < 0x110000)
  {
    var lead: int := b[0];
    match HeadWidth(b)
    case 1 => lead
    case 2 => Code2(lead - 0xC0, b[1])
    case 3 => Code3(lead - 0xE0, b[1], b[2])
    case _ => Code4(lead - 0xF0, b[1], b[2], b[3])
  }

  function Code2(lead: int, t1: int): int { lead * 64 + (t1 - 0x80) }
  function Code3(lead: int, t1: int, t2: int): int { Code2(lead, t1) * 64 + (t2 - 0x80) }
  function Code4(lead: int, t1: int, t2: int, t3: int): int { Code3(lead, t1, t2) * 64 + (t3 - 0x80) }

  function HeadChar(b: Bytes): char
    requires HeadWidth(b) > 0
  {
    HeadCode(b) as char
  }

  function Decode(b: Bytes): string
    requires WellFormed(b)
  {
    if b == [] then [] else [HeadChar(b)] + Decode(b[HeadWidth(b)..])
  }

  lemma HeadOfEncoded(c: char, rest: Bytes)
    ensures var b := EncodeChar(c) + rest;
            HeadWidth(b) == Width(c) && HeadChar(b) == c && b[Width(c)..] == rest
  {
    var b := EncodeChar(c) + rest;
    assert forall i :: 0 <= i < Width(c) ==> b[i] == EncodeChar(c)[i];
  }

  lemma Digits(q: int, r: int)
    requires 0 <= q && 0 <= r < 64
    ensures (q * 64 + r) / 64 == q && (q * 64 + r) % 64 == r
  {
  }

  lemma EncodedHead2(b: Bytes)
    requires HeadWidth(b) == 2
    ensures EncodeChar(HeadChar(b)) == b[..2]
  {
    Digits(b[0] - 0xC0, b[1] - 0x80);
  }

  lemma EncodedHead3(b: Bytes)
    requires HeadWidth(b) == 3
    ensures EncodeChar(HeadChar(b)) == b[..3]
  {
    var lead: int := b[0] - 0xE0;
    Digits(lead, b[1] - 0x80);
    Digits(Code2(lead, b[1]), b[2] - 0x80);
    assert 0x800 <= HeadCode(b) < 0x10000;
  }

  lemma EncodedHead4(b: Bytes)
    requires HeadWidth(b) == 4
    ensures EncodeChar(HeadChar(b)) == b[..4]
  {
    var lead: int := b[0] - 0xF0;
    Digits(lead, b[1] - 0x80);
    Digits(Code2(lead, b[1]), b[2] - 0x80);
    Digits(Code3(lead, b[1], b[2]), b[3] - 0x80);
    assert 0x10000 <= HeadCode(b);
  }

  lemma EncodedHead(b: Bytes)
    requires HeadWidth(b) > 0
    ensures EncodeChar(HeadChar(b)) == b[..HeadWidth(b)]
  {
    match HeadWidth(b)
    case 1 =>
    case 2 => EncodedHead2(b);
    case 3 => EncodedHead3(b);
    case _ => EncodedHead4(b);
  }

  lemma {:induction false} EncodeCons(c: char, t: string)
    ensures Encode([c] + t) == EncodeChar(c) + Encode(t)
  {
    assert ([c] + t)[1..] == t;
  }

  /** The lead byte of an encoded character is no tail byte; all others are. */
  lemma TailBytes(c: char)
    ensures !Tail(EncodeChar(c)[0])
    ensures forall i :: 1 <= i < Width(c) ==> Tail(EncodeChar(c)[i])
  {
  }

  /** Encoding then decoding gives the text back, and an encoding is well formed. */
  lemma {:induction false} DecodeEncode(s: string)
    ensures WellFormed(Encode(s)) && Decode(Encode(s)) == s && |Encode(s)| == Len(s)
  {
    if s != [] {
      DecodeEncode(s[1..]);
      HeadOfEncoded(s[0], Encode(s[1..]));
    }
  }

  /** Every well-formed byte string is the encoding of what it decodes to. */
  lemma {:induction false} EncodeDecode(b: Bytes)
    requires WellFormed(b)
    ensures Encode(Decode(b)) == b
  {
    if b != [] {
      var rest := b[HeadWidth(b)..];
      EncodeDecode(rest);
      EncodedHead(b);
      EncodeCons(HeadChar(b), Decode(rest));
      assert b == b[..HeadWidth(b)] + rest;
    }
  }

  // ---- truncate_utf8 -------------------------------------------------------

  /** `str::is_char_boundary`. */
  predicate Boundary(b: Bytes, i: nat) {
    i == 0 || i == |b| || (i < |b| && !Tail(b[i]))
  }

  /** The prefix kept by truncation, by characters. */
  function Fit(s: string, max: nat): (p: string)
    ensures p <= s && Len(p) <= max
  {
    if s == [] || Width(s[0]) > max then [] else [s[0]] + Fit(s[1..], max - Width(s[0]))
  }

  lemma PrefixCons(c: char, q: string, p: string)
    requires q <= p
    ensures [c] + q <= [c] + p
  {
  }

  lemma {:induction false} LenCons(q: string)
    requires q != []
    ensures Len(q) == Width(q[0]) + Len(q[1..]) && q == [q[0]] + q[1..]
  {
  }

  lemma FitCons(s: string, max: nat)
    requires s != [] && Width(s[0]) <= max
    ensures Fit(s, max) == [s[0]] + Fit(s[1..], max - Width(s[0]))
  {
  }

  /** No longer prefix fits. */
  lemma {:induction false} FitIsLongest(s: string, max: nat, q: string)
    requires q <= s && Len(q) <= max
    ensures q <= Fit(s, max)
  {
    if q != [] {
      var c, w := s[0], Width(s[0]);
      LenCons(q);
      FitIsLongest(s[1..], max - w, q[1..]);
      FitCons(s, max);
      PrefixCons(c, q[1..], Fit(s[1..], max - w));
    }
  }

  lemma {:induction false} FitKeepsAll(s: string, max: nat)
    requires Len(s) <= max
    ensures Fit(s, max) == s
  {
    FitIsLongest(s, max, s);
  }

  /** `kept` is what remains of `b` when it is cut at the last boundary not after `max`. */
  ghost predicate CutAt(b: Bytes, max: nat, kept: Bytes) {
    && |kept| <= max <= |kept| + 3 && max < |b|
    && b[..|kept|] == kept && !Tail(b[|kept|])
    && forall i :: |kept| < i <= max ==> Tail(b[i])
  }

  lemma CutBehind(head: Bytes, rest: Bytes, max: nat, kept: Bytes)
    requires |head| <= max && CutAt(rest, max - |head|, kept)
    ensures CutAt(head + rest, max, head + kept)
  {
    var b := head + rest;
    assert b[..|head| + |kept|] == head + kept;
    forall i | |head| + |kept| < i <= max ensures Tail(b[i]) {
      assert b[i] == rest[i - |head|];
    }
  }

  /** Truncation by characters is the cut at the last boundary: it drops at most 3 bytes below `max`. */
  lemma {:induction false} FitIsTheCut(s: string, max: nat)
    requires max < |Encode(s)|
    ensures CutAt(Encode(s), max, Encode(Fit(s, max)))
  {
    var w := Width(s[0]);
    if w <= max {
      FitIsTheCut(s[1..], max - w);
      CutBehind(EncodeChar(s[0]), Encode(s[1..]), max, Encode(Fit(s[1..], max - w)));
      assert Fit(s, max)[1..] == Fit(s[1..], max - w);
    } else {
      TailBytes(s[0]);
    }
  }

  lemma KeptBytes(s: Bytes, max: nat) returns (kept: Bytes)
    requires WellFormed(s)
    ensures WellFormed(kept) && Decode(kept) == Fit(Decode(s), max)
    ensures if |s| <= max then kept == s else CutAt(s, max, kept)
  {
    var text := Decode(s);
    EncodeDecode(s);
    DecodeEncode(text);
    kept := Encode(Fit(text, max));
    DecodeEncode(Fit(text, max));
    if |s| <= max {
      FitKeepsAll(text, max);
    } else {
      FitIsTheCut(text, max);
    }
  }

  /** `truncate_utf8`, on bytes, as the source's loop does it. */
  method TruncateUtf8(s: Bytes, max: nat) returns (r: Bytes)
    requires WellFormed(s)
    ensures r <= s && |r| <= max && WellFormed(r)
    ensures Decode(r) == Fit(Decode(s), max)
    ensures |s| <= max ==> r == s
    ensures |s| > max ==> max <= |r| + 3
  {
    ghost var kept := KeptBytes(s, max);
    if max >= |s| {
      return s;
    }
    var end := max;
    while end > 0 && !Boundary(s, end)
      invariant |kept| <= end <= max
    {
      end := end - 1;
    }
    r := s[..end];
    assert end == |kept| && r == kept;
  }

  // ---- sanitize_reason -----------------------------------------------------

  /** `char::is_control`: Unicode category Cc. */
  predicate IsControl(c: char) {
    var v := c as int;
    v < 0x20 || 0x7F <= v < 0xA0
  }

  function SanitizeChar(c: char): (r: char)
    ensures !IsControl(r) && Width(r) <= Width(c) && r == if IsControl(c) then '?' else c
  {
    if IsControl(c) then '?' else c
  }

  function Sanitize(s: string): (r: string)
    ensures |r| == |s| && Len(r) <= Len(s)
    ensures forall i :: 0 <= i < |s| ==> r[i] == if IsControl(s[i]) then '?' else s[i]
  {
    if s == [] then [] else [SanitizeChar(s[0])] + Sanitize(s[1..])
  }

  /** A C1 control character, U+0080 to U+009F: two bytes, replaced by one. */
  predicate IsC1(c: char) {
    0x80 <= c as int < 0xA0
  }

  /** Sanitising keeps the byte length exactly when the text holds no C1 control character. */
  lemma {:induction false} SanitizeKeepsLenIff(s: string)
    ensures Len(Sanitize(s)) == Len(s) <==> forall i :: 0 <= i < |s| ==> !IsC1(s[i])
  {
    if s != [] {
      SanitizeKeepsLenIff(s[1..]);
      assert Sanitize(s)[1..] == Sanitize(s[1..]);
      assert Width(SanitizeChar(s[0])) == Width(s[0]) <==> !IsC1(s[0]);
      assert forall i :: 1 <= i < |s| ==> s[i] == s[1..][i - 1];
    }
  }

  /** The byte length is not always kept: NEL, U+0085. */
  lemma NextLineShrinks()
    ensures Len(Sanitize(['\U{0085}'])) == 1 && Len(['\U{0085}']) == 2
  {
    assert Sanitize(['\U{0085}']) == ['?'];
  }

  const MAX_LAST_ERROR_BYTES: nat := 8192

  /** What `mark_*_fenced` and `pgwq_reason` both store: sanitise, then truncate. */
  function Clean(reason: string): string {
    Fit(Sanitize(reason), MAX_LAST_ERROR_BYTES)
  }

  /** Text without control characters is left alone by sanitising. */
  lemma {:induction false} SanitizeFixesClean(s: string)
    requires forall i :: 0 <= i < |s| ==> !IsControl(s[i])
    ensures Sanitize(s) == s
  {
  }

  /** Stored error text fits the column, holds no control character (so no NUL), keeps
      every character that fits, and cleaning it again changes nothing. */
  lemma {:induction false} CleanText(reason: string)
    ensures var r := Clean(reason);
            && Len(r) <= MAX_LAST_ERROR_BYTES
            && (forall i :: 0 <= i < |r| ==> !IsControl(r[i]))
            && |r| <= |reason|
            && (Len(reason) <= MAX_LAST_ERROR_BYTES ==> r == Sanitize(reason))
            && Clean(r) == r
  {
    var r := Clean(reason);
    SanitizeFixesClean(r);
    FitKeepsAll(r, MAX_LAST_ERROR_BYTES);
    if Len(reason) <= MAX_LAST_ERROR_BYTES {
      FitKeepsAll(Sanitize(reason), MAX_LAST_ERROR_BYTES);
    }
  }
}
