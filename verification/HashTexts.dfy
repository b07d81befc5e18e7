/**
 Which texts are stored hashes, and which passwords they accept, said of the text itself. The stored form is
 "$argon2id$v=<v>$m=<m>,t=<t>,p=<p>$<salt>$<digest>"; whatever follows a version or a thread count is ignored.
 */
module HashTexts {
  import opened Common
  import opened Base64
  import opened PasswordHash

  /** The pieces of a stored hash, as written. */
  datatype HashText =
    HashText(version: string, afterVersion: string, memory: string, time: string, threads: string,
             afterThreads: string, salt: string, digest: string)
  {
    function Version(): string {
      "v=" + version + afterVersion
    }

    function Params(): string {
      "m=" + memory + (",t=" + time + (",p=" + threads + afterThreads))
    }

    function Written(): string {
      "$argon2id$" + Version() + "$" + Params() + "$" + salt + "$" + digest
    }

    predicate WellFormed() {
      && IsNumber(version) && IsNumber(memory) && IsNumber(time) && IsNumber(threads)
      && EndsNumber(afterVersion) && EndsNumber(afterThreads)
      && '$' !in afterVersion && '$' !in afterThreads && '$' !in salt
      && Decode(Std, salt).Some? && Decode(Std, digest).Some?
    }

    /** Argon2id of the secret, under the costs and the salt written here, gives the digest written here. */
    predicate Fits(argon: Argon, secret: string)
      requires WellFormed()
    {
      var octets := Decode(Std, digest).value;
      argon(secret, Decode(Std, salt).value, Number(time), Number(memory), Number(threads) % 256, |octets|) == octets
    }
  }

  /** An unsigned 32-bit number in decimal digits, leading zeros allowed. */
  predicate IsNumber(s: string) {
    s != "" && (forall i :: 0 <= i < |s| ==> IsDecimal(s[i])) && Number(s) < UINT32_LIMIT
  }

  predicate EndsNumber(s: string) {
    s == "" || !IsDecimal(s[0])
  }

  // ----- reading back what was scanned

  lemma {:induction false} DigitRunIsMaximal(s: string)
    ensures EndsNumber(s[DigitRun(s)..])
  {
    if s != "" && IsDecimal(s[0]) {
      DigitRunIsMaximal(s[1..]);
      assert s[DigitRun(s)..] == s[1..][DigitRun(s[1..])..];
    }
  }

  /** A scanned field is the literal, a number and the rest. */
  lemma FieldScanned(s: string, literal: string) returns (digits: string)
    requires ScanField(s, literal).Some?
    ensures var (n, rest) := ScanField(s, literal).value;
            IsNumber(digits) && Number(digits) == n && EndsNumber(rest) && s == literal + digits + rest
  {
    var body := s[|literal|..];
    digits := body[..DigitRun(body)];
    DigitRunIsMaximal(body);
    assert body == digits + body[DigitRun(body)..];
  }

  lemma FieldScans(literal: string, digits: string, rest: string)
    requires IsNumber(digits) && EndsNumber(rest)
    ensures ScanField(literal + digits + rest, literal) == Some((Number(digits), rest))
  {
    var s := literal + digits + rest;
    assert s[|literal|..] == digits + rest;
    DigitRunStops(digits, rest);
    assert (digits + rest)[..|digits|] == digits && (digits + rest)[|digits|..] == rest;
  }

  lemma {:induction false} JoinSplit(s: string, n: nat)
    requires n > 0
    ensures var parts := SplitN(s, n);
            JoinDollar(parts) == s && forall i :: 0 <= i < |parts| - 1 ==> '$' !in parts[i]
    decreases n
  {
    var k := IndexOfDollar(s);
    if n > 1 && k < |s| {
      JoinSplit(s[k + 1..], n - 1);
      var tail := SplitN(s[k + 1..], n - 1);
      assert ([s[..k]] + tail)[1..] == tail;
      assert s == s[..k] + ("$" + s[k + 1..]);
    }
  }

  // ----- the pieces and their text

  lemma JoinSix(a: string, b: string, c: string, d: string, e: string, f: string)
    ensures JoinDollar([a, b, c, d, e, f]) == a + "$" + b + "$" + c + "$" + d + "$" + e + "$" + f
  {
    assert [e, f][1..] == [f] && [d, e, f][1..] == [e, f] && [c, d, e, f][1..] == [d, e, f];
    assert [b, c, d, e, f][1..] == [c, d, e, f] && [a, b, c, d, e, f][1..] == [b, c, d, e, f];
    var last := e + ("$" + f);
    assert JoinDollar([e, f]) == last;
    assert JoinDollar([d, e, f]) == d + ("$" + last) == d + "$" + e + "$" + f;
    assert JoinDollar([c, d, e, f]) == c + ("$" + (d + "$" + e + "$" + f)) == c + "$" + d + "$" + e + "$" + f;
    var three := c + "$" + d + "$" + e + "$" + f;
    assert JoinDollar([b, c, d, e, f]) == b + ("$" + three) == b + "$" + c + "$" + d + "$" + e + "$" + f;
  }

  lemma WrittenIsJoined(h: HashText)
    ensures h.Written() == JoinDollar(["", "argon2id", h.Version(), h.Params(), h.salt, h.digest])
  {
    JoinSix("", "argon2id", h.Version(), h.Params(), h.salt, h.digest);
    assert "" + "$" + "argon2id" + "$" == "$argon2id$";
    hide JoinDollar;
  }

  lemma NumberHasNoDollar(s: string)
    requires IsNumber(s)
    ensures '$' !in s
  {
  }

  lemma ParamsScan(h: HashText)
    requires h.WellFormed()
    ensures ParseParams(h.Params()) == Some((Number(h.memory), Number(h.time), Number(h.threads)))
  {
    hide ScanField;
    var threads := ",p=" + h.threads + h.afterThreads;
    var time := ",t=" + h.time + threads;
    FieldScans("m=", h.memory, time);
    FieldScans(",t=", h.time, threads);
    FieldScans(",p=", h.threads, h.afterThreads);
  }

  /** Every well-formed text parses to the values of its pieces. */
  lemma WrittenParses(h: HashText)
    requires h.WellFormed()
    ensures ParseHash(h.Written())
         == Some(Stored(Number(h.version), Number(h.memory), Number(h.time), Number(h.threads),
                        Decode(Std, h.salt).value, Decode(Std, h.digest).value))
  {
    NumberHasNoDollar(h.version);
    NumberHasNoDollar(h.memory);
    NumberHasNoDollar(h.time);
    NumberHasNoDollar(h.threads);
    hide SplitN, ParseParams, ScanField, Decode, JoinDollar;
    WrittenIsJoined(h);
    PasswordHash.SplitJoin(["", "argon2id", h.Version(), h.Params(), h.salt, h.digest]);
    FieldScans("v=", h.version, h.afterVersion);
    ParamsScan(h);
  }

  lemma ParamsScanned(s: string) returns (memory: string, time: string, threads: string, rest: string)
    requires ParseParams(s).Some?
    ensures IsNumber(memory) && IsNumber(time) && IsNumber(threads) && EndsNumber(rest)
    ensures ParseParams(s).value == (Number(memory), Number(time), Number(threads))
    ensures s == "m=" + memory + (",t=" + time + (",p=" + threads + rest))
  {
    hide ScanField;
    memory := FieldScanned(s, "m=");
    var afterMemory := ScanField(s, "m=").value.1;
    time := FieldScanned(afterMemory, ",t=");
    var afterTime := ScanField(afterMemory, ",t=").value.1;
    threads := FieldScanned(afterTime, ",p=");
    rest := ScanField(afterTime, ",p=").value.1;
  }

  /** Every text that parses is well-formed, with these pieces. */
  lemma ParsedIsWritten(encoded: string) returns (h: HashText)
    requires ParseHash(encoded).Some?
    ensures h.WellFormed() && encoded == h.Written()
  {
    hide SplitN, ParseParams, ScanField, Decode, JoinDollar;
    var parts := SplitN(encoded, 6);
    JoinSplit(encoded, 6);
    var version := FieldScanned(parts[2], "v=");
    var memory, time, threads, afterThreads := ParamsScanned(parts[3]);
    h := HashText(version, ScanField(parts[2], "v=").value.1, memory, time, threads, afterThreads, parts[4], parts[5]);
    WrittenIsJoined(h);
    assert parts == ["", "argon2id", h.Version(), h.Params(), h.salt, h.digest];
    assert forall c :: c in h.afterVersion ==> c in parts[2];
    assert forall c :: c in h.afterThreads ==> c in parts[3];
  }

  lemma WrittenHasPrefix(h: HashText)
    ensures "$argon2id$" <= h.Written()
  {
  }

  // ----- what verification answers

  lemma WrittenAccepts(argon: Argon, password: string, pepper: string, h: HashText)
    requires h.WellFormed()
    ensures VerifyPassword(argon, password, pepper, h.Written())
         == if h.Fits(argon, password + pepper) then Accepted else Mismatch
  {
    hide ParseHash, Decode;
    WrittenParses(h);
  }

  /** A text accepts a password if and only if it is a well-formed hash whose digest the password has. */
  lemma AcceptedIff(argon: Argon, password: string, pepper: string, encoded: string)
    ensures VerifyPassword(argon, password, pepper, encoded) == Accepted
            <==> exists h: HashText :: h.WellFormed() && encoded == h.Written() && h.Fits(argon, password + pepper)
  {
    if ParseHash(encoded).Some? {
      var h := ParsedIsWritten(encoded);
      WrittenAccepts(argon, password, pepper, h);
    }
    forall h: HashText | h.WellFormed() && encoded == h.Written()
      ensures VerifyPassword(argon, password, pepper, encoded)
           == if h.Fits(argon, password + pepper) then Accepted else Mismatch
    {
      WrittenAccepts(argon, password, pepper, h);
    }
    hide ParseHash;
  }

  /** A text is no hash at all, whatever the password, if and only if it is not of the stored form. */
  lemma MalformedIff(argon: Argon, password: string, pepper: string, encoded: string)
    ensures VerifyPassword(argon, password, pepper, encoded) == Malformed
            <==> !exists h: HashText :: h.WellFormed() && encoded == h.Written()
  {
    if ParseHash(encoded).Some? {
      var h := ParsedIsWritten(encoded);
    }
    forall h: HashText | h.WellFormed() && encoded == h.Written() ensures ParseHash(encoded).Some? {
      WrittenParses(h);
    }
    hide ParseHash;
  }

  /** So a text without the prefix, such as the empty one of an account without a password, accepts nothing. */
  lemma NoPrefixNoPassword(argon: Argon, password: string, pepper: string, encoded: string)
    requires !("$argon2id$" <= encoded)
    ensures VerifyPassword(argon, password, pepper, encoded) == Malformed
  {
    hide VerifyPassword;
    MalformedIff(argon, password, pepper, encoded);
    forall h: HashText | encoded == h.Written() ensures false {
      WrittenHasPrefix(h);
    }
    hide *;
  }
}
