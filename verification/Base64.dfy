/**
 Unpadded base64 (sections 3.2, 4 and 5 of RFC 4648) with the two alphabets the server uses: the standard one
 inside stored password hashes and the URL one for random tokens and PKCE challenges.
 Decoding follows the lenient reader the server relies on: line breaks are skipped and left-over low bits ignored.
 */
module Base64 {
  import opened Common

  type Byte = b: int | 0 <= b < 256
  type Sextet = x: int | 0 <= x < 64

  datatype Alphabet = Std | Url

  function Digit(a: Alphabet, x: Sextet): char {
    if x < 26 then 'A' + x as char
    else if x < 52 then 'a' + (x - 26) as char
    else if x < 62 then '0' + (x - 52) as char
    else if x == 62 then (if a.Std? then '+' else '-')
    else (if a.Std? then '/' else '_')
  }

  function DigitValue(a: Alphabet, c: char): Option<Sextet> {
    if 'A' <= c <= 'Z' then Some(c as int - 'A' as int)
    else if 'a' <= c <= 'z' then Some(c as int - 'a' as int + 26)
    else if '0' <= c <= '9' then Some(c as int - '0' as int + 52)
    else if c == (if a.Std? then '+' else '-') then Some(62)
    else if c == (if a.Std? then '/' else '_') then Some(63)
    else None
  }

  /** Cuts octets into groups of six bits, padding the last group with zero bits (section 4 of RFC 4648). */
  function Sextets(b: seq<Byte>): seq<Sextet> {
    if |b| == 0 then []
    else if |b| == 1 then [b[0] / 4, b[0] % 4 * 16]
    else if |b| == 2 then [b[0] / 4, b[0] % 4 * 16 + b[1] / 16, b[1] % 16 * 4]
    else
      [b[0] / 4, b[0] % 4 * 16 + b[1] / 16, b[1] % 16 * 4 + b[2] / 64, b[2] % 64] + Sextets(b[3..])
  }

  function First(w: int, x: int): int {
    w * 4 + x / 16
  }

  function Second(x: int, y: int): int {
    x % 16 * 16 + y / 4
  }

  function Third(y: int, z: int): int {
    y % 4 * 64 + z
  }

  /** Joins sextets into octets. A lone trailing sextet is an error; unused low bits of a short group are ignored. */
  function Octets(x: seq<Sextet>): Option<seq<Byte>> {
    if |x| == 0 then Some([])
    else if |x| == 1 then None
    else
      var first: Byte := First(x[0], x[1]);
      if |x| == 2 then Some([first])
      else
        var second: Byte := Second(x[1], x[2]);
        if |x| == 3 then Some([first, second])
        else
          var third: Byte := Third(x[2], x[3]);
          match Octets(x[4..])
          case Some(rest) => Some([first, second, third] + rest)
          case None => None
  }

  function Spell(a: Alphabet, x: seq<Sextet>): (s: string)
    ensures |s| == |x|
  {
    seq(|x|, i requires 0 <= i < |x| => Digit(a, x[i]))
  }

  function Values(a: Alphabet, s: string): (r: Option<seq<Sextet>>)
    ensures r.Some? ==> |r.value| == |s|
  {
    if s == "" then Some([])
    else
      match (DigitValue(a, s[0]), Values(a, s[1..]))
      case (Some(x), Some(rest)) => Some([x] + rest)
      case _ => None
  }

  function Encode(a: Alphabet, b: seq<Byte>): string {
    Spell(a, Sextets(b))
  }

  function WithoutLineBreaks(s: string): string {
    if s == "" then ""
    else (if s[0] == '\n' || s[0] == '\r' then "" else [s[0]]) + WithoutLineBreaks(s[1..])
  }

  function Decode(a: Alphabet, s: string): Option<seq<Byte>> {
    match Values(a, WithoutLineBreaks(s))
    case Some(x) => Octets(x)
    case None => None
  }

  predicate InAlphabet(a: Alphabet, s: string) {
    forall i :: 0 <= i < |s| ==> DigitValue(a, s[i]).Some?
  }

  lemma DigitRoundTrip(a: Alphabet, x: Sextet)
    ensures DigitValue(a, Digit(a, x)) == Some(x)
  {
  }

  lemma DigitOfValue(a: Alphabet, c: char)
    requires DigitValue(a, c).Some?
    ensures Digit(a, DigitValue(a, c).value) == c
  {
  }

  lemma SpellInAlphabet(a: Alphabet, x: seq<Sextet>)
    ensures InAlphabet(a, Spell(a, x))
  {
  }

  lemma {:induction false} ValuesSpell(a: Alphabet, x: seq<Sextet>)
    ensures Values(a, Spell(a, x)) == Some(x)
  {
    if x != [] {
      DigitRoundTrip(a, x[0]);
      assert Spell(a, x)[1..] == Spell(a, x[1..]);
      ValuesSpell(a, x[1..]);
      assert [x[0]] + x[1..] == x;
    }
  }

  lemma {:induction false} SpellValues(a: Alphabet, s: string)
    requires InAlphabet(a, s)
    ensures Values(a, s).Some? && Spell(a, Values(a, s).value) == s
  {
    if s != "" {
      DigitOfValue(a, s[0]);
      assert InAlphabet(a, s[1..]);
      SpellValues(a, s[1..]);
      var x := Values(a, s).value;
      assert x[1..] == Values(a, s[1..]).value;
      assert Spell(a, x)[1..] == Spell(a, x[1..]);
      assert [s[0]] + s[1..] == s;
    }
  }

  lemma {:induction false} NoBreaksToRemove(s: string)
    requires '\n' !in s && '\r' !in s
    ensures WithoutLineBreaks(s) == s
  {
    if s != "" {
      NoBreaksToRemove(s[1..]);
      assert [s[0]] + s[1..] == s;
    }
  }

  /** Three octets survive being cut into four sextets and joined again; the short cases use zero octets. */
  lemma JoinSplit(p: Byte, q: Byte, r: Byte)
    ensures p / 4 * 4 + (p % 4 * 16 + q / 16) / 16 == p
    ensures (p % 4 * 16 + q / 16) % 16 * 16 + (q % 16 * 4 + r / 64) / 4 == q
    ensures (q % 16 * 4 + r / 64) % 4 * 64 + r % 64 == r
  {
  }

  /** Four sextets survive being joined into three octets and cut again. */
  lemma SplitJoin(w: Sextet, x: Sextet, y: Sextet, z: Sextet)
    ensures (w * 4 + x / 16) / 4 == w
    ensures (w * 4 + x / 16) % 4 * 16 + (x % 16 * 16 + y / 4) / 16 == x
    ensures (x % 16 * 16 + y / 4) % 16 * 4 + (y % 4 * 64 + z) / 64 == y
    ensures (y % 4 * 64 + z) % 64 == z
  {
  }

  lemma {:induction false} OctetsSextets(b: seq<Byte>)
    ensures Octets(Sextets(b)) == Some(b)
  {
    if |b| == 0 {
    } else if |b| == 1 {
      JoinSplit(b[0], 0, 0);
      assert [b[0]] == b;
    } else if |b| == 2 {
      JoinSplit(b[0], b[1], 0);
      assert [b[0], b[1]] == b;
    } else {
      JoinSplit(b[0], b[1], b[2]);
      OctetsSextets(b[3..]);
      assert Sextets(b)[4..] == Sextets(b[3..]);
      assert [b[0], b[1], b[2]] + b[3..] == b;
    }
  }

  /** decode . encode is the identity on every octet string. */
  lemma DecodeEncode(a: Alphabet, b: seq<Byte>)
    ensures Decode(a, Encode(a, b)) == Some(b)
  {
    SpellInAlphabet(a, Sextets(b));
    NoBreaksToRemove(Encode(a, b));
    ValuesSpell(a, Sextets(b));
    OctetsSextets(b);
  }

  /** Sextet strings whose final partial group has two or three members and no stray low bits. */
  predicate CleanTail(x: seq<Sextet>) {
    if |x| >= 4 then CleanTail(x[4..])
    else if |x| == 3 then x[2] % 4 == 0
    else if |x| == 2 then x[1] % 16 == 0
    else |x| == 0
  }

  lemma SextetsOfGroup(p: Byte, q: Byte, r: Byte, w: Sextet, x: Sextet, y: Sextet, z: Sextet, rest: seq<Byte>)
    requires p / 4 == w && p % 4 * 16 + q / 16 == x && q % 16 * 4 + r / 64 == y && r % 64 == z
    ensures Sextets([p, q, r] + rest) == [w, x, y, z] + Sextets(rest)
  {
  }

  lemma {:induction false} SextetsOctets(x: seq<Sextet>)
    requires CleanTail(x)
    ensures Octets(x).Some? && Sextets(Octets(x).value) == x
  {
    if |x| == 2 {
      SplitJoin(x[0], x[1], 0, 0);
      assert [x[0], x[1]] == x;
    } else if |x| == 3 {
      SplitJoin(x[0], x[1], x[2], 0);
      assert [x[0], x[1], x[2]] == x;
    } else if |x| >= 4 {
      SextetsOctets(x[4..]);
      SplitJoin(x[0], x[1], x[2], x[3]);
      SextetsOfGroup(First(x[0], x[1]), Second(x[1], x[2]), Third(x[2], x[3]), x[0], x[1], x[2], x[3],
                     Octets(x[4..]).value);
      assert [x[0], x[1], x[2], x[3]] + x[4..] == x;
    }
  }

  lemma {:induction false} SextetsClean(b: seq<Byte>)
    ensures CleanTail(Sextets(b))
  {
    if |b| >= 3 {
      SextetsClean(b[3..]);
      assert Sextets(b)[4..] == Sextets(b[3..]);
    }
  }

  /**
   The other direction holds exactly for the clean spellings: a text is the encoding of some octets if and only if
   it stays inside the alphabet and its last group is clean. Every other text the lenient reader accepts is an alias.
   */
  lemma EncodingsAreTheCleanTexts(a: Alphabet, s: string)
    ensures (exists b: seq<Byte> :: Encode(a, b) == s)
            <==> InAlphabet(a, s) && Values(a, s).Some? && CleanTail(Values(a, s).value)
  {
    if b: seq<Byte> :| Encode(a, b) == s {
      SpellInAlphabet(a, Sextets(b));
      ValuesSpell(a, Sextets(b));
      SextetsClean(b);
    }
    if InAlphabet(a, s) {
      SpellValues(a, s);
      if CleanTail(Values(a, s).value) {
        SextetsOctets(Values(a, s).value);
        assert Encode(a, Octets(Values(a, s).value).value) == s;
      }
    }
  }
}
