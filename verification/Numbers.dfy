/** Decimal integers and fields of a line, as Go's strconv and strings packages read and print them
    for assign4/fs/msg.go and assign4/server_main.go. */
module Numbers {

  // ----- strconv

  const MAX_INT := 0x7FFF_FFFF_FFFF_FFFF

  /** A value of Go's type int on a 64-bit machine. */
  predicate Int64(x: int) {
    -MAX_INT - 1 <= x <= MAX_INT
  }

  predicate IsDigit(c: char) {
    '0' <= c <= '9'
  }

  function DigitOf(d: nat): char
    requires d < 10
  {
    '0' + d as char
  }

  function Digits(n: nat): (s: string)
    ensures s != "" && forall i :: 0 <= i < |s| ==> IsDigit(s[i])
  {
    if n < 10 then [DigitOf(n)] else Digits(n / 10) + [DigitOf(n % 10)]
  }

  /** Itoa, and the verb %d. */
  function Itoa(x: int): (s: string)
    ensures s != "" && forall i :: 0 <= i < |s| ==> IsDigit(s[i]) || s[i] == '-'
  {
    if x < 0 then "-" + Digits(-x) else Digits(x)
  }

  datatype Unsigned = Value(n: nat) | TooBig | NotANumber

  /** ParseUint for base 10, which stops at the first character that is no digit or that makes the
      number exceed 64 bits. */
  function ParseUint(s: string, n: nat): Unsigned {
    if s == "" then Value(n)
    else if !IsDigit(s[0]) then NotANumber
    else
      var next := n * 10 + (s[0] - '0') as nat;
      if next > 0xFFFF_FFFF_FFFF_FFFF then TooBig else ParseUint(s[1..], next)
  }

  datatype Number = Number(value: int, ok: bool)

  /** Atoi: a number out of range comes back as the nearest one in range, with the error. */
  function Atoi(s: string): (r: Number)
    ensures Int64(r.value)
  {
    if s == "" then Number(0, false)
    else
      var neg := s[0] == '-';
      var digits := if neg || s[0] == '+' then s[1..] else s;
      if digits == "" then Number(0, false)
      else match ParseUint(digits, 0)
        case NotANumber => Number(0, false)
        case TooBig => Number(if neg then -MAX_INT - 1 else MAX_INT, false)
        case Value(u) =>
          if !neg && u > MAX_INT then Number(MAX_INT, false)
          else if neg && u > MAX_INT + 1 then Number(-MAX_INT - 1, false)
          else Number(if neg then 0 - u else u, true)
  }

  lemma {:induction false} ParseSnoc(s: string, n: nat, c: char)
    requires ParseUint(s, n).Value?
    ensures ParseUint(s + [c], n) == ParseUint([c], ParseUint(s, n).n)
  {
    if s == "" {
      assert s + [c] == [c];
    } else {
      assert (s + [c])[1..] == s[1..] + [c];
      ParseSnoc(s[1..], n * 10 + (s[0] - '0') as nat, c);
    }
  }

  lemma {:induction false} ParseLast(n: nat, d: nat)
    requires d < 10 && n * 10 + d <= 0xFFFF_FFFF_FFFF_FFFF
    ensures ParseUint([DigitOf(d)], n) == Value(n * 10 + d)
  {
    assert [DigitOf(d)][1..] == "";
  }

  lemma {:induction false} ParsePrinted(n: nat)
    requires n <= 0xFFFF_FFFF_FFFF_FFFF
    ensures ParseUint(Digits(n), 0) == Value(n)
  {
    if n < 10 {
      ParseLast(0, n);
    } else {
      ParsePrinted(n / 10);
      ParseSnoc(Digits(n / 10), 0, DigitOf(n % 10));
      ParseLast(n / 10, n % 10);
    }
  }

  /** Reading a printed integer gives it back exactly when it is in range. */
  lemma AtoiItoa(x: int)
    ensures Atoi(Itoa(x)) == Number(x, true) <==> Int64(x)
  {
    if Int64(x) {
      ParsePrinted(if x < 0 then -x else x);
      if x < 0 { assert Itoa(x)[1..] == Digits(-x); }
    }
  }

  function Pow10(k: nat): nat {
    if k == 0 then 1 else 10 * Pow10(k - 1)
  }

  lemma {:induction false} DigitsShort(n: nat, k: nat)
    requires 1 <= k && n < Pow10(k)
    ensures |Digits(n)| <= k
  {
    if n >= 10 { DigitsShort(n / 10, k - 1); }
  }

  lemma ItoaShort(x: int)
    requires Int64(x)
    ensures |Itoa(x)| <= 20
  {
    assert Pow10(4) == 10_000 && Pow10(7) == 10_000_000 && Pow10(10) == 10_000_000_000;
    assert Pow10(13) == 10_000_000_000_000 && Pow10(16) == 10_000_000_000_000_000;
    DigitsShort(if x < 0 then -x else x, 19);
  }

  // ----- strings.Fields

  /** The bytes at the front of `s` that encode a white space rune; 0 if it starts with none. */
  function SpaceLen(s: string): (k: nat)
    ensures k <= |s|
  {
    if s == "" then 0
    else if s[0] in {'\t', '\n', 11 as char, 12 as char, '\r', ' '} then 1
    else if |s| >= 2 && s[0] as int == 0xC2 && s[1] as int in {0x85, 0xA0} then 2
    else if |s| >= 3 && WideSpace(s[0] as int, s[1] as int, s[2] as int) then 3
    else 0
  }

  /** U+1680, U+2000 to U+200A, U+2028, U+2029, U+202F, U+205F and U+3000 in UTF-8. */
  predicate WideSpace(a: int, b: int, c: int) {
    || (a == 0xE1 && b == 0x9A && c == 0x80)
    || (a == 0xE2 && b == 0x80 && (0x80 <= c <= 0x8A || c in {0xA8, 0xA9, 0xAF}))
    || (a == 0xE2 && b == 0x81 && c == 0x9F)
    || (a == 0xE3 && b == 0x80 && c == 0x80)
  }

  function SkipSpaces(s: string): (t: string)
    ensures |t| <= |s| && SpaceLen(t) == 0
  {
    if SpaceLen(s) == 0 then s else SkipSpaces(s[SpaceLen(s)..])
  }

  function WordLen(s: string): (k: nat)
    ensures k <= |s| && (s != "" && SpaceLen(s) == 0 ==> k > 0)
  {
    if s == "" || SpaceLen(s) > 0 then 0 else 1 + WordLen(s[1..])
  }

  /** The words of `s`, separated by white space. */
  function Fields(s: string): (fields: seq<string>)
    ensures forall i :: 0 <= i < |fields| ==> fields[i] != ""
    decreases |s|
  {
    var t := SkipSpaces(s);
    if t == "" then [] else [t[..WordLen(t)]] + Fields(t[WordLen(t)..])
  }

  /** A word of printable ASCII characters. */
  predicate Plain(w: string) {
    w != "" && forall i :: 0 <= i < |w| ==> 33 <= w[i] as int <= 126
  }

  lemma {:induction false} PlainWord(w: string, rest: string)
    requires (forall i :: 0 <= i < |w| ==> 33 <= w[i] as int <= 126) && (rest == "" || rest[0] == ' ')
    ensures WordLen(w + rest) == |w| && (w != "" ==> SpaceLen(w + rest) == 0)
  {
    if w == "" {
      assert w + rest == rest;
    } else {
      assert (w + rest)[1..] == w[1..] + rest;
      PlainWord(w[1..], rest);
    }
  }

  lemma {:induction false} FieldsWord(w: string, rest: string)
    requires Plain(w) && (rest == "" || rest[0] == ' ')
    ensures Fields(w + rest) == [w] + Fields(rest)
  {
    PlainWord(w, rest);
    assert SkipSpaces(w + rest) == w + rest;
    assert (w + rest)[..|w|] == w && (w + rest)[|w|..] == rest;
  }

  lemma {:induction false} FieldsBlank(s: string)
    ensures Fields(" " + s) == Fields(s)
  {
    assert SpaceLen(" " + s) == 1 && (" " + s)[1..] == s;
  }

  lemma ItoaPlain(x: int)
    ensures Plain(Itoa(x))
  {}

  /** A list of words printed with a blank between any two. */
  function Joined(words: seq<string>): string {
    if words == [] then "" else if |words| == 1 then words[0] else words[0] + (" " + Joined(words[1..]))
  }

  lemma {:induction false} FieldsJoined(words: seq<string>)
    requires forall i :: 0 <= i < |words| ==> Plain(words[i])
    ensures Fields(Joined(words)) == words
  {
    if |words| == 1 {
      FieldsWord(words[0], "");
      assert words[0] + "" == words[0];
    } else if words != [] {
      FieldsJoined(words[1..]);
      FieldsWord(words[0], " " + Joined(words[1..]));
      FieldsBlank(Joined(words[1..]));
    }
  }
}
