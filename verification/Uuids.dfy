/**
 UUIDs and their canonical text form (section 3 of RFC 4122). Redis entries and JWT subjects carry the text;
 Cassandra rows are keyed by the value, so every handler crosses this boundary.
 */
module Uuids {
  import opened Common

  type Nibble = n: int | 0 <= n < 16

  /** Sixteen octets, written as thirty-two half octets. */
  type Uuid = u: seq<Nibble> | |u| == 32 witness seq(32, _ => 0)

  function HexDigit(n: Nibble): char {
    "0123456789abcdef"[n]
  }

  function FromHex(c: char): Option<Nibble> {
    if '0' <= c <= '9' then Some(c as int - '0' as int)
    else if 'a' <= c <= 'f' then Some(c as int - 'a' as int + 10)
    else if 'A' <= c <= 'F' then Some(c as int - 'A' as int + 10)
    else None
  }

  function HexText(u: seq<Nibble>): (s: string)
    ensures |s| == |u|
  {
    seq(|u|, i requires 0 <= i < |u| => HexDigit(u[i]))
  }

  function ParseHex(s: string): (r: Option<seq<Nibble>>)
    ensures r.Some? ==> |r.value| == |s|
  {
    if s == "" then Some([])
    else
      match (FromHex(s[0]), ParseHex(s[1..]))
      case (Some(n), Some(rest)) => Some([n] + rest)
      case _ => None
  }

  /** The 8-4-4-4-12 form the server writes into Redis. */
  function ToString(u: Uuid): (s: string)
    ensures |s| == 36
  {
    HexText(u[..8]) + "-" + HexText(u[8..12]) + "-" + HexText(u[12..16]) + "-" + HexText(u[16..20]) + "-"
    + HexText(u[20..])
  }

  function Parse(s: string): Option<Uuid> {
    if |s| != 36 || s[8] != '-' || s[13] != '-' || s[18] != '-' || s[23] != '-' then None
    else
      match ParseHex(s[..8] + s[9..13] + s[14..18] + s[19..23] + s[24..])
      case Some(u) => Some(u)
      case None => None
  }

  lemma {:induction false} ParseHexText(u: seq<Nibble>)
    ensures ParseHex(HexText(u)) == Some(u)
  {
    if u != [] {
      assert HexText(u)[1..] == HexText(u[1..]);
      ParseHexText(u[1..]);
      assert [u[0]] + u[1..] == u;
    }
  }

  /** Reading back what was written gives the same identifier, so the text form names one user only. */
  lemma ParseToString(u: Uuid)
    ensures Parse(ToString(u)) == Some(u)
  {
    var s := ToString(u);
    var a, b, c, d, e := u[..8], u[8..12], u[12..16], u[16..20], u[20..];
    assert s[..8] == HexText(a) && s[9..13] == HexText(b) && s[14..18] == HexText(c);
    assert s[19..23] == HexText(d) && s[24..] == HexText(e);
    assert HexText(a) + HexText(b) + HexText(c) + HexText(d) + HexText(e) == HexText(u);
    ParseHexText(u);
  }

  /** The same text, except that letters up to F may be upper case in the first. */
  predicate SameUpToCase(s: string, canonical: string) {
    |s| == |canonical| && forall i :: 0 <= i < |s| ==> s[i] == canonical[i] || IsUpperOf(s[i], canonical[i])
  }

  predicate IsUpperOf(c: char, lower: char) {
    'A' <= c <= 'F' && lower as int == c as int + 32
  }

  lemma HexDigitIff(c: char, n: Nibble)
    ensures FromHex(c) == Some(n) <==> c == HexDigit(n) || IsUpperOf(c, HexDigit(n))
  {
  }

  lemma {:induction false} ParseHexIff(s: string, u: seq<Nibble>)
    requires |s| == |u|
    ensures ParseHex(s) == Some(u) <==> SameUpToCase(s, HexText(u))
  {
    if s != "" {
      HexDigitIff(s[0], u[0]);
      ParseHexIff(s[1..], u[1..]);
      assert u == [u[0]] + u[1..] && HexText(u)[1..] == HexText(u[1..]);
      forall i | 0 <= i < |s[1..]|
        ensures s[1..][i] == s[i + 1] && HexText(u[1..])[i] == HexText(u)[i + 1]
      {
      }
      assert SameUpToCase(s, HexText(u))
        <==> (s[0] == HexText(u)[0] || IsUpperOf(s[0], HexText(u)[0])) && SameUpToCase(s[1..], HexText(u[1..]));
    }
  }

  /** The hexadecimal digits of the 8-4-4-4-12 form. */
  function Digits(s: string): (d: string)
    requires |s| == 36
    ensures |d| == 32
  {
    s[..8] + s[9..13] + s[14..18] + s[19..23] + s[24..]
  }

  /** Where the i-th digit stands. */
  function Place(i: nat): nat {
    if i < 8 then i else if i < 12 then i + 1 else if i < 16 then i + 2 else if i < 20 then i + 3 else i + 4
  }

  lemma DigitsOfText(u: Uuid)
    ensures var t := ToString(u); t[8] == '-' && t[13] == '-' && t[18] == '-' && t[23] == '-' && Digits(t) == HexText(u)
  {
    var t, a, b, c, d, e := ToString(u), u[..8], u[8..12], u[12..16], u[16..20], u[20..];
    assert t[..8] == HexText(a) && t[9..13] == HexText(b) && t[14..18] == HexText(c);
    assert t[19..23] == HexText(d) && t[24..] == HexText(e);
    assert HexText(a) + HexText(b) + HexText(c) + HexText(d) + HexText(e) == HexText(u);
  }

  lemma DigitAt(s: string, i: nat)
    requires |s| == 36 && i < 32
    ensures Digits(s)[i] == s[Place(i)]
  {
  }

  lemma SameDigits(s: string, t: string)
    requires |s| == |t| == 36 && t[8] == '-' && t[13] == '-' && t[18] == '-' && t[23] == '-'
    ensures SameUpToCase(s, t)
            <==> s[8] == '-' && s[13] == '-' && s[18] == '-' && s[23] == '-' && SameUpToCase(Digits(s), Digits(t))
  {
    hide Digits;
    if SameUpToCase(s, t) {
      forall i | 0 <= i < 32 ensures Digits(s)[i] == Digits(t)[i] || IsUpperOf(Digits(s)[i], Digits(t)[i]) {
        DigitAt(s, i);
        DigitAt(t, i);
      }
    }
    if s[8] == '-' && s[13] == '-' && s[18] == '-' && s[23] == '-' && SameUpToCase(Digits(s), Digits(t)) {
      forall k | 0 <= k < 36 ensures s[k] == t[k] || IsUpperOf(s[k], t[k]) {
        if k != 8 && k != 13 && k != 18 && k != 23 {
          var i :=
            if k < 8 then k else if k < 13 then k - 1 else if k < 18 then k - 2 else if k < 23 then k - 3 else k - 4;
          DigitAt(s, i);
          DigitAt(t, i);
        }
      }
    }
  }

  /** Exactly the canonical text of an identifier reads as it, letters in either case. */
  lemma ParseIff(s: string, u: Uuid)
    ensures Parse(s) == Some(u) <==> SameUpToCase(s, ToString(u))
  {
    if |s| == 36 {
      DigitsOfText(u);
      ParseHexIff(Digits(s), u);
      SameDigits(s, ToString(u));
      hide ToString, HexText, ParseHex, SameUpToCase;
    }
  }
}
