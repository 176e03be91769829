/** Service UUIDs as text: the 8-4-4-4-12 form of section 4 of RFC 9562. */
module Uuid {
  import opened Wire
  import opened Schemas

  function HexDigit(c: char): (d: int)
    ensures -1 <= d < 16
  {
    if '0' <= c <= '9' then c as int - '0' as int
    else if 'a' <= c <= 'f' then c as int - 'a' as int + 10
    else if 'A' <= c <= 'F' then c as int - 'A' as int + 10
    else -1
  }

  /** `%x` of one digit. */
  function HexChar(d: nat): char
    requires d < 16
  {
    if d < 10 then (d + '0' as int) as char else (d - 10 + 'a' as int) as char
  }

  function ToLower(c: char): char {
    if 'A' <= c <= 'Z' then (c as int + 32) as char else c
  }

  /** The digits: sixteen characters, those above nine in either case. */
  lemma HexDigits(c: char, d: nat)
    requires d < 16
    ensures HexDigit(c) == d <==> c == "0123456789abcdef"[d] || c == "0123456789ABCDEF"[d]
  {
  }

  lemma OtherCharacters(c: char)
    ensures HexDigit(c) == -1 <==> c !in "0123456789abcdefABCDEF"
  {
  }

  lemma PrintedDigit(d: nat)
    requires d < 16
    ensures HexChar(d) == "0123456789abcdef"[d]
  {
  }

  lemma HexCharDigit(d: nat)
    requires d < 16
    ensures HexDigit(HexChar(d)) == d && HexChar(d) != '-' && ToLower(HexChar(d)) == HexChar(d)
  {
  }

  lemma HexDigitChar(c: char)
    requires HexDigit(c) >= 0
    ensures HexChar(HexDigit(c)) == ToLower(c)
  {
  }

  // ---- the form ----

  predicate DashAt(j: int) {
    j == 8 || j == 13 || j == 18 || j == 23
  }

  /** Dashes in the four places and hexadecimal digits in all others. */
  predicate HexForm(s: string) {
    |s| == 36 && forall j :: 0 <= j < 36 ==> if DashAt(j) then s[j] == '-' else HexDigit(s[j]) >= 0
  }

  /** The form character by character: 8, 4, 4, 4 and 12 digits of either case with dashes between them. */
  lemma FormSpelledOut(s: string)
    ensures HexForm(s) <==>
      && |s| == 36 && s[8] == '-' && s[13] == '-' && s[18] == '-' && s[23] == '-'
      && forall j :: 0 <= j < 36 && j !in [8, 13, 18, 23] ==> s[j] in "0123456789abcdefABCDEF"
  {
    forall j | 0 <= j < |s| ensures HexDigit(s[j]) >= 0 <==> s[j] in "0123456789abcdefABCDEF" {
      OtherCharacters(s[j]);
    }
  }

  /** How many of the four places are before `i`. */
  function DashesBefore(i: int): nat {
    (if i > 8 then 1 else 0) + (if i > 13 then 1 else 0) + (if i > 18 then 1 else 0) + (if i > 23 then 1 else 0)
  }

  /** Where byte `k` begins in the text. */
  function Place(k: nat): nat {
    2 * k + (if k >= 4 then 1 else 0) + (if k >= 6 then 1 else 0) + (if k >= 8 then 1 else 0) + (if k >= 10 then 1 else 0)
  }

  /** The byte written at `j`. */
  function Pair(s: string, j: nat): Byte
    requires j + 1 < |s| && HexDigit(s[j]) >= 0 && HexDigit(s[j + 1]) >= 0
  {
    (16 * HexDigit(s[j]) + HexDigit(s[j + 1])) as Byte
  }

  lemma PlaceIsDigits(s: string, k: nat)
    requires HexForm(s) && k < 16
    ensures Place(k) + 1 < 36 && HexDigit(s[Place(k)]) >= 0 && HexDigit(s[Place(k) + 1]) >= 0
  {
    assert !DashAt(Place(k)) && !DashAt(Place(k) + 1);
  }

  function Bytes(s: string): (r: seq<Byte>)
    requires HexForm(s)
    ensures |r| == 16
  {
    seq(16, k requires 0 <= k < 16 => PlaceIsDigits(s, k); Pair(s, Place(k)))
  }

  /** Where the sixteen bytes begin in the text. */
  const PLACES: seq<nat> := [0, 2, 4, 6, 9, 11, 14, 16, 19, 21, 24, 26, 28, 30, 32, 34]

  /** The digit for `d`, in either case. */
  predicate IsDigit(c: char, d: nat)
    requires d < 16
  {
    c == "0123456789abcdef"[d] || c == "0123456789ABCDEF"[d]
  }

  /** Each byte is its two digits, the high one first, from left to right. */
  lemma BytesSpelledOut(s: string, k: nat, hi: nat, lo: nat)
    requires HexForm(s) && k < 16 && hi < 16 && lo < 16
    requires IsDigit(s[PLACES[k]], hi) && IsDigit(s[PLACES[k] + 1], lo)
    ensures Bytes(s)[k] as int == 16 * hi + lo
  {
    hide IsDigit, HexDigit, DashAt, Place;
    PlaceIsDigits(s, k);
    PlaceSpelledOut(k);
    DigitsRead(s[PLACES[k]], hi);
    DigitsRead(s[PLACES[k] + 1], lo);
  }

  lemma PlaceSpelledOut(k: nat)
    requires k < 16
    ensures Place(k) == PLACES[k]
  {
  }

  lemma DigitsRead(c: char, d: nat)
    requires d < 16 && IsDigit(c, d)
    ensures HexDigit(c) == d
  {
    HexDigits(c, d);
  }

  // ---- counting dashes ----

  function Dashes(s: string, i: nat): nat
    requires i <= |s|
  {
    if i == 0 then 0 else Dashes(s, i - 1) + if s[i - 1] == '-' then 1 else 0
  }

  /** Beyond the four places there are never fewer dashes than before. */
  lemma {:induction false} ExtraDashes(s: string, i: nat, j: nat)
    requires |s| == 36 && i <= j <= 36 && s[8] == '-' && s[13] == '-' && s[18] == '-' && s[23] == '-'
    ensures Dashes(s, i) - DashesBefore(i) <= Dashes(s, j) - DashesBefore(j)
    decreases j - i
  {
    if i < j {
      ExtraDashes(s, i, j - 1);
    }
  }

  /** Four dashes in all means that there are none but in the four places. */
  lemma NoOtherDash(s: string, p: nat)
    requires |s| == 36 && s[8] == '-' && s[13] == '-' && s[18] == '-' && s[23] == '-'
    requires Dashes(s, 36) == 4 && p < 36 && s[p] == '-'
    ensures DashAt(p)
  {
    ExtraDashes(s, 0, p);
    ExtraDashes(s, p + 1, 36);
  }

  lemma FourDashes(s: string)
    requires |s| == 36 && s[8] == '-' && s[13] == '-' && s[18] == '-' && s[23] == '-' && Dashes(s, 36) == 4
    requires forall j :: 0 <= j < 36 ==> s[j] == '-' || HexDigit(s[j]) >= 0
    ensures HexForm(s)
  {
    forall p | 0 <= p < 36 && !DashAt(p) ensures HexDigit(s[p]) >= 0 {
      if s[p] == '-' {
        NoOtherDash(s, p);
      }
    }
  }

  /** In a text of the right form, the two characters of a byte are in its place. */
  lemma NextByte(s: string, k: nat, i: nat)
    requires HexForm(s) && i < 36 && s[i] != '-' && i == 2 * k + DashesBefore(i)
    ensures k < 16 && i == Place(k) && i + 1 < 36 && DashesBefore(i + 2) == DashesBefore(i)
    ensures HexDigit(s[i]) >= 0 && HexDigit(s[i + 1]) >= 0 && s[i + 1] != '-' && Bytes(s)[k] == Pair(s, i)
  {
    assert !DashAt(i) && !DashAt(i + 1);
  }

  // ---- parsing ----

  /** `UuidStringToBytes`: accepts exactly the form. That no text with further dashes gets through is a matter of
      counting: 36 characters hold 16 bytes and 4 dashes, or fewer bytes. */
  method UuidStringToBytes(uuid: string) returns (r: Option<seq<Byte>>)
    ensures r.Some? <==> HexForm(uuid)
    ensures r.Some? ==> r.value == Bytes(uuid)
  {
    hide Bytes, Place;
    if |uuid| != 36 {
      return None;
    }
    if uuid[8] != '-' || uuid[13] != '-' || uuid[18] != '-' || uuid[23] != '-' {
      return None;
    }
    var result := new Byte[16](_ => 0);
    var byteIndex, i := 0, 0;
    while i < |uuid|
      invariant i <= 36 && byteIndex <= 16 && i == 2 * byteIndex + Dashes(uuid, i)
      invariant forall j :: 0 <= j < i ==> uuid[j] == '-' || HexDigit(uuid[j]) >= 0
      invariant HexForm(uuid) ==> Dashes(uuid, i) == DashesBefore(i)
      invariant HexForm(uuid) ==> forall k :: 0 <= k < byteIndex ==> result[k] == Bytes(uuid)[k]
      decreases |uuid| - i
    {
      if uuid[i] == '-' {
        i := i + 1;
        continue;
      }
      if HexForm(uuid) {
        NextByte(uuid, byteIndex, i);
      }
      if i + 1 >= |uuid| {
        return None;
      }
      var hi, lo := HexDigit(uuid[i]), HexDigit(uuid[i + 1]);
      if hi < 0 || lo < 0 || byteIndex >= 16 {
        return None;
      }
      result[byteIndex] := (16 * hi + lo) as Byte;
      byteIndex := byteIndex + 1;
      i := i + 2;
    }
    if byteIndex != 16 {
      return None;
    }
    FourDashes(uuid);
    assert result[..] == Bytes(uuid);
    return Some(result[..]);
  }

  // ---- printing ----

  function Hex(b: Byte): string {
    [HexChar(b as nat / 16), HexChar(b as nat % 16)]
  }

  predicate DashBefore(k: nat) {
    k == 4 || k == 6 || k == 8 || k == 10
  }

  /** The first `n` bytes as text. */
  function Printed(b: seq<Byte>, n: nat): string
    requires n <= |b|
  {
    if n == 0 then "" else Printed(b, n - 1) + (if DashBefore(n - 1) then "-" else "") + Hex(b[n - 1])
  }

  /** `format_uuid`, and the generator's `UuidString`. */
  method FormatUuid(b: seq<Byte>) returns (s: string)
    ensures s == Printed(b, |b|)
  {
    s := "";
    for i := 0 to |b|
      invariant s == Printed(b, i)
    {
      if DashBefore(i) {
        s := s + "-";
      } else {
        assert s + "" == s;
      }
      s := s + Hex(b[i]);
    }
  }

  /** Byte `k` covers none of the four places; the place before it is one exactly where a dash is printed. */
  lemma DashPlaces(k: nat)
    requires k < 16
    ensures !DashAt(Place(k)) && !DashAt(Place(k) + 1)
    ensures k > 0 ==> (DashBefore(k) <==> Place(k) == Place(k - 1) + 3) && (!DashBefore(k) <==> Place(k) == Place(k - 1) + 2)
    ensures DashBefore(k) ==> DashAt(Place(k) - 1)
  {
  }

  /** The first `n` bytes stand in their places, and the four places hold dashes. */
  predicate LaidOut(b: seq<Byte>, n: nat, s: string)
    requires n <= |b|
  {
    && |s| == (if n == 0 then 0 else Place(n - 1) + 2)
    && (forall k :: 0 <= k < n ==> Place(k) + 1 < |s| && Stands(b[k], s[Place(k)], s[Place(k) + 1]))
    && (forall j :: 0 <= j < |s| && DashAt(j) ==> s[j] == '-')
  }

  predicate Stands(b: Byte, hi: char, lo: char) {
    hi == HexChar(b as nat / 16) && lo == HexChar(b as nat % 16)
  }

  lemma OneMoreByte(b: seq<Byte>, n: nat, s: string)
    requires n < |b| == 16 && LaidOut(b, n, s)
    ensures LaidOut(b, n + 1, s + (if DashBefore(n) then "-" else "") + Hex(b[n]))
  {
    hide HexChar, DashAt, Place, DashBefore;
    DashPlaces(n);
    var dashed := s + (if DashBefore(n) then "-" else "");
    var after := dashed + Hex(b[n]);
    FirstPlace();
    assert |dashed| == Place(n);
    assert after[Place(n)] == Hex(b[n])[0] && after[Place(n) + 1] == Hex(b[n])[1];
    forall k | 0 <= k < n ensures Place(k) + 1 < |after| && Stands(b[k], after[Place(k)], after[Place(k) + 1]) {
      assert after[Place(k)] == s[Place(k)] && after[Place(k) + 1] == s[Place(k) + 1];
    }
    forall j | 0 <= j < |after| && DashAt(j) ensures after[j] == '-' {
      if j < |s| {
        assert after[j] == s[j];
      } else if j < |dashed| {
        assert after[j] == dashed[j];
      }
    }
  }

  lemma FirstPlace()
    ensures Place(0) == 0 && !DashBefore(0)
  {
  }

  lemma {:induction false} PrintedAt(b: seq<Byte>, n: nat)
    requires |b| == 16 && n <= 16
    ensures LaidOut(b, n, Printed(b, n))
  {
    if n > 0 {
      PrintedAt(b, n - 1);
      OneMoreByte(b, n - 1, Printed(b, n - 1));
    }
  }

  /** Which byte covers a place that holds no dash. */
  function ByteAt(j: nat): (k: nat)
    requires j < 36 && !DashAt(j)
    ensures k < 16 && (j == Place(k) || j == Place(k) + 1)
  {
    (j - DashesBefore(j)) / 2
  }

  /** Parsing what was printed gives back the bytes. */
  lemma ParsePrinted(b: seq<Byte>)
    requires |b| == 16
    ensures HexForm(Printed(b, 16)) && Bytes(Printed(b, 16)) == b
  {
    hide HexChar, HexDigit, Printed, DashAt, Place;
    var s := Printed(b, 16);
    PrintedAt(b, 16);
    PlaceFifteen();
    forall j | 0 <= j < 36 && !DashAt(j) ensures HexDigit(s[j]) >= 0 {
      var k := ByteAt(j);
      HexCharDigit(b[k] as nat / 16);
      HexCharDigit(b[k] as nat % 16);
    }
    forall k | 0 <= k < 16 ensures Bytes(s)[k] == b[k] {
      HexCharDigit(b[k] as nat / 16);
      HexCharDigit(b[k] as nat % 16);
    }
  }

  lemma PlaceFifteen()
    ensures Place(15) == 34
  {
  }

  /** Printing what was parsed gives back the text in lower case. */
  lemma PrintParsed(s: string)
    requires HexForm(s)
    ensures |Printed(Bytes(s), 16)| == 36 && forall j :: 0 <= j < 36 ==> Printed(Bytes(s), 16)[j] == ToLower(s[j])
  {
    hide HexChar, HexDigit, Printed, DashAt, Place, ToLower;
    PrintedAt(Bytes(s), 16);
    PlaceFifteen();
    forall j | 0 <= j < 36 ensures Printed(Bytes(s), 16)[j] == ToLower(s[j]) {
      if DashAt(j) {
        LowerDash();
      } else {
        var k := ByteAt(j);
        PlaceIsDigits(s, k);
        assert Bytes(s)[k] == Pair(s, Place(k));
        HexDigitChar(s[Place(k)]);
        HexDigitChar(s[Place(k) + 1]);
      }
    }
  }

  lemma LowerDash()
    ensures ToLower('-') == '-'
  {
  }
}
