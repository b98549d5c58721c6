/** The reference-id and referral-code builders of both controllers. */
module Identifiers {
  import opened AuthTypes

  predicate IsDigit(c: char) {
    '0' <= c <= '9'
  }

  predicate AllDigits(s: string) {
    forall i :: 0 <= i < |s| ==> IsDigit(s[i])
  }

  function DigitChar(d: nat): (c: char)
    requires d < 10
    ensures IsDigit(c)
  {
    ('0' as int + d) as char
  }

  function DigitValue(c: char): (d: nat)
    requires IsDigit(c)
    ensures d < 10
  {
    c as int - '0' as int
  }

  /** Two-digit, zero-padded decimal (`d`, `m`, `H`, `i`, `s` of PHP's date format). */
  function Pad2(n: nat): (s: string)
    requires n < 100
    ensures |s| == 2 && AllDigits(s)
  {
    [DigitChar(n / 10), DigitChar(n % 10)]
  }

  /** Four-digit, zero-padded decimal (`Y` for years up to 9999). */
  function Pad4(n: nat): (s: string)
    requires n < 10000
    ensures |s| == 4 && AllDigits(s)
  {
    Pad2(n / 100) + Pad2(n % 100)
  }

  /** `now()->format('dmYHis')`: day, month, year, hour, minute, second. */
  function FormatStamp(t: DateTime): (s: string)
    requires ValidDateTime(t)
    ensures |s| == 14 && AllDigits(s)
  {
    Pad2(t.day) + Pad2(t.month) + Pad4(t.year) + Pad2(t.hour) + Pad2(t.minute) + Pad2(t.second)
  }

  /** The two-digit number at position `i` of a digit string. */
  function Read2(s: string, i: nat): (n: nat)
    requires i + 2 <= |s| && AllDigits(s)
    ensures n < 100
  {
    10 * DigitValue(s[i]) + DigitValue(s[i + 1])
  }

  /** Reads a `dmYHis` stamp back into the reading it was formatted from. */
  function ParseStamp(s: string): DateTime
    requires |s| == 14 && AllDigits(s)
  {
    DateTime(100 * Read2(s, 4) + Read2(s, 6), Read2(s, 2), Read2(s, 0),
             Read2(s, 8), Read2(s, 10), Read2(s, 12))
  }

  /** The stamp loses nothing: parsing a formatted reading gives the reading back. */
  lemma StampRoundTrip(t: DateTime)
    requires ValidDateTime(t)
    ensures ParseStamp(FormatStamp(t)) == t
  {
  }

  /** Two readings give the same stamp only if they are the same reading. */
  lemma StampInjective(t1: DateTime, t2: DateTime)
    requires ValidDateTime(t1) && ValidDateTime(t2)
    ensures FormatStamp(t1) == FormatStamp(t2) ==> t1 == t2
  {
    StampRoundTrip(t1);
    StampRoundTrip(t2);
  }

  function UpperChar(c: char): char {
    if 'a' <= c <= 'z' then (c as int - 32) as char else c
  }

  /** `strtoupper` on the characters it can meet here. */
  function Upper(s: string): (r: string)
    ensures |r| == |s|
    ensures forall i :: 0 <= i < |s| ==> r[i] == UpperChar(s[i])
  {
    seq(|s|, i requires 0 <= i < |s| => UpperChar(s[i]))
  }

  /** `strtoupper(substr(str_shuffle(Alphabet), 0, n))`: the first `n` characters of a shuffle. */
  function RandomChars(shuffled: string, n: nat): (r: string)
    requires IsShuffle(shuffled) && n <= |Alphabet|
    ensures |r| == n && Distinct(r)
    ensures forall i :: 0 <= i < n ==> IsCodeChar(r[i])
  {
    var r := Upper(shuffled[..n]);
    assert forall i :: 0 <= i < n ==> r[i] == shuffled[i];
    r
  }

  /** The shape of a generated reference id: a four-character prefix, fourteen timestamp digits,
      a dash, and three distinct characters of the alphabet. */
  predicate IsRefId(prefix: string, r: string) {
    && |r| == 22
    && r[..4] == prefix
    && AllDigits(r[4..18])
    && r[18] == '-'
    && Distinct(r[19..])
    && forall i :: 19 <= i < 22 ==> IsCodeChar(r[i])
  }

  function MakeRefId(prefix: string, now: DateTime, shuffled: string): (r: string)
    requires |prefix| == 4 && ValidDateTime(now) && IsShuffle(shuffled)
    ensures IsRefId(prefix, r)
    ensures ParseStamp(r[4..18]) == now
  {
    var stamp := FormatStamp(now);
    var suffix := RandomChars(shuffled, 3);
    var r := prefix + stamp + "-" + suffix;
    assert r[4..18] == stamp && r[19..] == suffix;
    StampRoundTrip(now);
    r
  }

  /** `generateUserRefId`: `USR-` + timestamp + `-` + three random characters. */
  function UserRefId(now: DateTime, shuffled: string): (r: string)
    requires ValidDateTime(now) && IsShuffle(shuffled)
    ensures IsRefId("USR-", r)
    ensures ParseStamp(r[4..18]) == now
  {
    MakeRefId("USR-", now, shuffled)
  }

  /** `generateAuthRefId` (and the portal controller's identical `generateAuthRefid`):
      `AUT-` + timestamp + `-` + three random characters. */
  function AuthRefId(now: DateTime, shuffled: string): (r: string)
    requires ValidDateTime(now) && IsShuffle(shuffled)
    ensures IsRefId("AUT-", r)
    ensures ParseStamp(r[4..18]) == now
  {
    MakeRefId("AUT-", now, shuffled)
  }

  /** `generateReferralCode`: eight distinct characters of the alphabet. */
  function ReferralCode(shuffled: string): (r: string)
    requires IsShuffle(shuffled)
    ensures |r| == 8 && Distinct(r)
    ensures forall i :: 0 <= i < 8 ==> IsCodeChar(r[i])
  {
    RandomChars(shuffled, 8)
  }

  /** Ids generated at different seconds differ, whatever the random draws; user ids and auth
      ids never coincide. */
  lemma RefIdsSeparate(t1: DateTime, s1: string, t2: DateTime, s2: string)
    requires ValidDateTime(t1) && IsShuffle(s1) && ValidDateTime(t2) && IsShuffle(s2)
    ensures UserRefId(t1, s1) == UserRefId(t2, s2) ==> t1 == t2
    ensures AuthRefId(t1, s1) == AuthRefId(t2, s2) ==> t1 == t2
    ensures UserRefId(t1, s1) != AuthRefId(t2, s2)
  {
  }
}
