/**
 The storable form of a password, "$argon2id$v=..$m=..,t=..,p=..$salt$digest", as a printer and a parser.
 Argon2id itself is a parameter: any function from the secret, the salt, the cost parameters and the requested
 length to octets.
 */
module PasswordHash {
  import opened Common
  import opened Base64

  const ARGON_VERSION: nat := 19
  const ARGON_MEMORY: nat := 64 * 1024
  const ARGON_TIME: nat := 3
  const ARGON_THREADS: nat := 4
  const ARGON_KEY_LEN: nat := 32
  const UINT32_LIMIT: nat := 0x1_0000_0000

  /** Secret, salt, time cost, memory cost, thread count, key length. */
  type Argon = (string, seq<Byte>, nat, nat, nat, nat) -> seq<Byte>

  datatype Stored =
    Stored(version: nat, memory: nat, timeCost: nat, threads: nat, salt: seq<Byte>, digest: seq<Byte>)

  datatype Verdict = Accepted | Mismatch | Malformed

  // ----- decimal numbers

  predicate IsDecimal(c: char) {
    '0' <= c <= '9'
  }

  function Decimal(n: nat): string {
    if n < 10 then ['0' + n as char] else Decimal(n / 10) + ['0' + (n % 10) as char]
  }

  /** Length of the longest run of decimal digits at the front. */
  function DigitRun(s: string): (k: nat)
    ensures k <= |s| && forall i :: 0 <= i < k ==> IsDecimal(s[i])
  {
    if s == "" || !IsDecimal(s[0]) then 0 else 1 + DigitRun(s[1..])
  }

  function DecimalValue(c: char): nat
    requires IsDecimal(c)
  {
    c as int - '0' as int
  }

  function Number(s: string): nat
    requires forall i :: 0 <= i < |s| ==> IsDecimal(s[i])
  {
    if s == "" then 0 else Number(s[..|s| - 1]) * 10 + DecimalValue(s[|s| - 1])
  }

  /** Reads an unsigned 32-bit number and returns what follows it. */
  function ScanUint32(s: string): Option<(nat, string)> {
    var k := DigitRun(s);
    if k == 0 || Number(s[..k]) >= UINT32_LIMIT then None else Some((Number(s[..k]), s[k..]))
  }

  function ScanLiteral(s: string, literal: string): Option<string> {
    if literal <= s then Some(s[|literal|..]) else None
  }

  lemma {:induction false} NumberDecimal(n: nat)
    ensures forall i :: 0 <= i < |Decimal(n)| ==> IsDecimal(Decimal(n)[i])
    ensures Number(Decimal(n)) == n && |Decimal(n)| > 0
  {
    if n >= 10 {
      NumberDecimal(n / 10);
      assert Decimal(n)[..|Decimal(n)| - 1] == Decimal(n / 10);
    }
  }

  lemma {:induction false} DigitRunStops(digits: string, rest: string)
    requires forall i :: 0 <= i < |digits| ==> IsDecimal(digits[i])
    requires rest == "" || !IsDecimal(rest[0])
    ensures DigitRun(digits + rest) == |digits|
  {
    if digits == "" {
      assert digits + rest == rest;
    } else {
      assert (digits + rest)[1..] == digits[1..] + rest;
      DigitRunStops(digits[1..], rest);
    }
  }

  lemma ScanDecimal(n: nat, rest: string)
    requires n < UINT32_LIMIT && (rest == "" || !IsDecimal(rest[0]))
    ensures ScanUint32(Decimal(n) + rest) == Some((n, rest))
  {
    NumberDecimal(n);
    DigitRunStops(Decimal(n), rest);
    assert (Decimal(n) + rest)[..|Decimal(n)|] == Decimal(n);
  }

  // ----- splitting on '$'

  /** Splits at the first n - 1 dollar signs; the last part keeps any further ones. */
  function SplitN(s: string, n: nat): (parts: seq<string>)
    requires n > 0
    ensures 0 < |parts| <= n
    decreases n
  {
    var i := IndexOfDollar(s);
    if n == 1 || i == |s| then [s] else [s[..i]] + SplitN(s[i + 1..], n - 1)
  }

  function IndexOfDollar(s: string): (i: nat)
    ensures i <= |s| && (i < |s| ==> s[i] == '$') && '$' !in s[..i]
  {
    if s == "" || s[0] == '$' then 0 else 1 + IndexOfDollar(s[1..])
  }

  function JoinDollar(parts: seq<string>): string
    requires parts != []
  {
    if |parts| == 1 then parts[0] else parts[0] + ("$" + JoinDollar(parts[1..]))
  }

  lemma {:induction false} IndexAfter(head: string, tail: string)
    requires '$' !in head
    ensures IndexOfDollar(head + ("$" + tail)) == |head|
  {
    if head != "" {
      assert (head + ("$" + tail))[1..] == head[1..] + ("$" + tail);
      IndexAfter(head[1..], tail);
    } else {
      assert head + ("$" + tail) == "$" + tail;
    }
  }

  /** Splitting undoes joining as long as no part but the last contains the separator. */
  lemma {:induction false} SplitJoin(parts: seq<string>)
    requires parts != [] && forall i :: 0 <= i < |parts| - 1 ==> '$' !in parts[i]
    ensures SplitN(JoinDollar(parts), |parts|) == parts
  {
    hide IndexOfDollar;
    if |parts| > 1 {
      var head, rest := parts[0], parts[1..];
      var tail := JoinDollar(rest);
      IndexAfter(head, tail);
      SplitJoin(rest);
      hide JoinDollar;
      var s := head + ("$" + tail);
      assert s[..|head|] == head && s[|head| + 1..] == tail;
      assert [head] + rest == parts;
    }
  }

  // ----- the parser and the printer

  /** A literal such as "m=" followed by a number. */
  function ScanField(s: string, literal: string): Option<(nat, string)> {
    match ScanLiteral(s, literal)
    case Some(rest) => ScanUint32(rest)
    case None => None
  }

  /** Whatever follows the last number is ignored. */
  function ParseParams(s: string): Option<(nat, nat, nat)> {
    match ScanField(s, "m=")
    case None => None
    case Some((m, afterMemory)) =>
      match ScanField(afterMemory, ",t=")
      case None => None
      case Some((t, afterTime)) =>
        match ScanField(afterTime, ",p=")
        case None => None
        case Some((p, _)) => Some((m, t, p))
  }

  function ParseVersion(s: string): Option<nat> {
    match ScanField(s, "v=")
    case Some((v, _)) => Some(v)
    case None => None
  }

  function ParseHash(encoded: string): Option<Stored> {
    var parts := SplitN(encoded, 6);
    if |parts| != 6 || parts[0] != "" || parts[1] != "argon2id" then None
    else
      match (ParseVersion(parts[2]), ParseParams(parts[3]), Decode(Std, parts[4]), Decode(Std, parts[5]))
      case (Some(v), Some((m, t, p)), Some(salt), Some(digest)) => Some(Stored(v, m, t, p, salt, digest))
      case _ => None
  }

  function Field(literal: string, n: nat, rest: string): string {
    literal + (Decimal(n) + rest)
  }

  function VersionField(): string {
    Field("v=", ARGON_VERSION, "")
  }

  function ParamsField(): string {
    Field("m=", ARGON_MEMORY, Field(",t=", ARGON_TIME, Field(",p=", ARGON_THREADS, "")))
  }

  function HashPassword(argon: Argon, password: string, pepper: string, salt: seq<Byte>): string {
    var digest := argon(password + pepper, salt, ARGON_TIME, ARGON_MEMORY, ARGON_THREADS, ARGON_KEY_LEN);
    JoinDollar(["", "argon2id", VersionField(), ParamsField(), Encode(Std, salt), Encode(Std, digest)])
  }

  /** The thread count is narrowed to one octet before use; the key length is whatever the stored digest has. */
  function VerifyPassword(argon: Argon, password: string, pepper: string, encoded: string): Verdict {
    match ParseHash(encoded)
    case None => Malformed
    case Some(s) =>
      if argon(password + pepper, s.salt, s.timeCost, s.memory, s.threads % 256, |s.digest|) == s.digest
      then Accepted else Mismatch
  }

  // ----- round trip

  lemma NoDollarInBase64(b: seq<Byte>)
    ensures '$' !in Encode(Std, b)
  {
  }

  lemma DecimalHasNoDollar(n: nat)
    ensures '$' !in Decimal(n)
  {
  }

  lemma ScanPrintedField(literal: string, n: nat, rest: string)
    requires n < UINT32_LIMIT && (rest == "" || !IsDecimal(rest[0]))
    requires '$' !in literal && '$' !in rest
    ensures ScanField(Field(literal, n, rest), literal) == Some((n, rest))
    ensures '$' !in Field(literal, n, rest)
  {
    assert Field(literal, n, rest)[|literal|..] == Decimal(n) + rest;
    ScanDecimal(n, rest);
    DecimalHasNoDollar(n);
  }

  lemma ThreeParamsParse(m: nat, t: nat, p: nat)
    requires m < UINT32_LIMIT && t < UINT32_LIMIT && p < UINT32_LIMIT
    ensures ParseParams(Field("m=", m, Field(",t=", t, Field(",p=", p, "")))) == Some((m, t, p))
    ensures '$' !in Field("m=", m, Field(",t=", t, Field(",p=", p, "")))
  {
    var threads := Field(",p=", p, "");
    var time := Field(",t=", t, threads);
    ScanPrintedField(",p=", p, "");
    ScanPrintedField(",t=", t, threads);
    ScanPrintedField("m=", m, time);
  }

  lemma ParseJoined(version: string, params: string, salt: seq<Byte>, digest: seq<Byte>)
    requires ParseVersion(version).Some? && ParseParams(params).Some?
    requires '$' !in version && '$' !in params
    ensures var (m, t, p) := ParseParams(params).value;
            ParseHash(JoinDollar(["", "argon2id", version, params, Encode(Std, salt), Encode(Std, digest)]))
            == Some(Stored(ParseVersion(version).value, m, t, p, salt, digest))
  {
    hide SplitN, JoinDollar, Encode, Decode, ParseParams, ParseVersion;
    NoDollarInBase64(salt);
    SplitJoin(["", "argon2id", version, params, Encode(Std, salt), Encode(Std, digest)]);
    DecodeEncode(Std, salt);
    DecodeEncode(Std, digest);
  }

  /** What is printed is parsed back: same parameters, same salt, same digest, for any secret and salt. */
  lemma ParseHashPassword(argon: Argon, password: string, pepper: string, salt: seq<Byte>)
    ensures ParseHash(HashPassword(argon, password, pepper, salt))
         == Some(Stored(ARGON_VERSION, ARGON_MEMORY, ARGON_TIME, ARGON_THREADS, salt,
                        argon(password + pepper, salt, ARGON_TIME, ARGON_MEMORY, ARGON_THREADS, ARGON_KEY_LEN)))
  {
    var digest := argon(password + pepper, salt, ARGON_TIME, ARGON_MEMORY, ARGON_THREADS, ARGON_KEY_LEN);
    ScanPrintedField("v=", ARGON_VERSION, "");
    ThreeParamsParse(ARGON_MEMORY, ARGON_TIME, ARGON_THREADS);
    ParseJoined(VersionField(), ParamsField(), salt, digest);
  }

  /**
   A stored hash accepts exactly the secrets whose digest under the stored salt and costs is the stored one.
   The one assumption about Argon2id is that it returns as many octets as it was asked for.
   */
  lemma VerifyHashPassword(argon: Argon, password: string, pepper: string, salt: seq<Byte>, candidate: string,
                           candidatePepper: string)
    requires |argon(password + pepper, salt, ARGON_TIME, ARGON_MEMORY, ARGON_THREADS, ARGON_KEY_LEN)| == ARGON_KEY_LEN
    ensures VerifyPassword(argon, candidate, candidatePepper, HashPassword(argon, password, pepper, salt))
         == if argon(candidate + candidatePepper, salt, ARGON_TIME, ARGON_MEMORY, ARGON_THREADS, ARGON_KEY_LEN)
               == argon(password + pepper, salt, ARGON_TIME, ARGON_MEMORY, ARGON_THREADS, ARGON_KEY_LEN)
            then Accepted else Mismatch
  {
    hide ParseHash;
    hide HashPassword;
    ParseHashPassword(argon, password, pepper, salt);
  }
}
