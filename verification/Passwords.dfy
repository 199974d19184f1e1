// The stored form of a password: printed by Hash, taken apart by Verify.

module Passwords {
  import opened Types
  import opened Base64

  const MEMORY: nat := 64 * 1024
  const ITERATIONS: nat := 3
  const PARALLELISM: nat := 2
  const SALT_LENGTH: nat := 16
  const KEY_LENGTH: nat := 32

  /** Argon2id with the fixed cost parameters: password, salt and output length to key. */
  type Kdf = (string, seq<byte>, nat) -> seq<byte>

  function Decimal(n: nat): (s: string)
    ensures s != "" && forall c :: c in s ==> '0' <= c <= '9'
  {
    if n < 10 then ['0' + n as char] else Decimal(n / 10) + ['0' + (n % 10) as char]
  }

  function CostField(): string {
    "m=" + Decimal(MEMORY) + ",t=" + Decimal(ITERATIONS) + ",p=" + Decimal(PARALLELISM)
  }

  function Print(salt: seq<byte>, key: seq<byte>): string {
    "$argon2id$v=19$" + (CostField() + "$" + (Encode(salt) + "$" + Encode(key)))
  }

  /** strings.Split on a one-character separator: always at least one field. */
  function Split(s: string, sep: char): (fields: seq<string>)
    ensures |fields| > 0
  {
    if s == "" then [""]
    else if s[0] == sep then [""] + Split(s[1..], sep)
    else var rest := Split(s[1..], sep); [[s[0]] + rest[0]] + rest[1..]
  }

  predicate Verify(kdf: Kdf, password: string, encoded: string) {
    var parts := Split(encoded, '$');
    && |parts| == 6
    && match (Decode(parts[4]), Decode(parts[5]))
       case (Some(salt), Some(expected)) =>
         salt != [] && expected != [] && kdf(password, salt, |expected| % 0x1_0000_0000) == expected
       case _ => false
  }

  lemma {:induction false} SplitField(field: string, sep: char, rest: string)
    requires sep !in field
    ensures Split(field + [sep] + rest, sep) == [field] + Split(rest, sep)
  {
    var s := field + [sep] + rest;
    if field == "" {
      assert s == [sep] + rest;
    } else {
      assert s[1..] == field[1..] + [sep] + rest;
      SplitField(field[1..], sep, rest);
      assert [s[0]] + field[1..] == field;
    }
  }

  lemma {:induction false} SplitLast(field: string, sep: char)
    requires sep !in field
    ensures Split(field, sep) == [field]
  {
    if field != "" {
      SplitLast(field[1..], sep);
      assert [field[0]] + field[1..] == field;
    }
  }

  lemma SplitPrefix(rest: string)
    ensures Split("$argon2id$v=19$" + rest, '$') == ["", "argon2id", "v=19"] + Split(rest, '$')
  {
    var second := "v=19$" + rest;
    var first := "argon2id$" + second;
    assert "$argon2id$v=19$" + rest == "" + "$" + first;
    assert first == "argon2id" + "$" + second && second == "v=19" + "$" + rest;
    SplitField("", '$', first);
    SplitField("argon2id", '$', second);
    SplitField("v=19", '$', rest);
  }

  lemma PrintedFields(salt: seq<byte>, key: seq<byte>)
    ensures Split(Print(salt, key), '$') == ["", "argon2id", "v=19", "m=65536,t=3,p=2", Encode(salt), Encode(key)]
  {
    EncodesInDigits(salt);
    EncodesInDigits(key);
    var last := Encode(salt) + "$" + Encode(key);
    SplitPrefix(CostField() + "$" + last);
    SplitField(CostField(), '$', last);
    SplitField(Encode(salt), '$', Encode(key));
    SplitLast(Encode(key), '$');
    CostIs();
  }

  lemma CostIs()
    ensures CostField() == "m=65536,t=3,p=2"
  {
    assert Decimal(65536) == Decimal(6553) + "6" && Decimal(6553) == Decimal(655) + "3";
    assert Decimal(655) == Decimal(65) + "5" && Decimal(65) == Decimal(6) + "5";
  }

  /** For every salt and key, a printed hash accepts exactly the passwords that derive that key
      from that salt: both fields decode to the very bytes that were printed. */
  lemma PrintedAccepts(kdf: Kdf, password: string, salt: seq<byte>, key: seq<byte>)
    ensures Verify(kdf, password, Print(salt, key)) <==>
      salt != [] && key != [] && kdf(password, salt, |key| % 0x1_0000_0000) == key
  {
    PrintedFields(salt, key);
    RoundTrip(salt);
    RoundTrip(key);
  }

  lemma {:induction false} FieldsCounted(s: string, sep: char)
    ensures |Split(s, sep)| == 1 + multiset(s)[sep]
  {
    if s != "" {
      FieldsCounted(s[1..], sep);
      assert s == [s[0]] + s[1..];
    }
  }

  /** A stored string without exactly five separators accepts no password at all. */
  lemma OtherShapesRefused(kdf: Kdf, password: string, encoded: string)
    requires multiset(encoded)['$'] != 5
    ensures !Verify(kdf, password, encoded)
  {
    FieldsCounted(encoded, '$');
  }

  /** What Argon2 promises about the length it is asked for. */
  ghost predicate YieldsLength(kdf: Kdf) {
    forall password, salt, n: nat :: |kdf(password, salt, n)| == n
  }

  lemma HashedAccepts(kdf: Kdf, password: string, salt: seq<byte>, other: string)
    requires YieldsLength(kdf) && |salt| == SALT_LENGTH
    ensures Verify(kdf, other, Print(salt, kdf(password, salt, KEY_LENGTH))) <==>
      kdf(other, salt, KEY_LENGTH) == kdf(password, salt, KEY_LENGTH)
  {
    hide Verify, Print;
    var key := kdf(password, salt, KEY_LENGTH);
    assert |key| == KEY_LENGTH;
    PrintedAccepts(kdf, other, salt, key);
  }

  lemma HashedFields(salt: seq<byte>, key: seq<byte>)
    ensures |Split(Print(salt, key), '$')| == 6
    ensures Decode(Split(Print(salt, key), '$')[4]) == Some(salt) && Decode(Split(Print(salt, key), '$')[5]) == Some(key)
  {
    PrintedFields(salt, key);
    RoundTrip(salt);
    RoundTrip(key);
  }

  /** `random` is what the system's random source yields, or nothing when it fails. The result is
      accepted for this password, and for another one only if it derives the same key. */
  method Hash(kdf: Kdf, password: string, random: Option<seq<byte>>) returns (encoded: Option<string>)
    requires random.Some? ==> |random.value| == 16
    requires YieldsLength(kdf)
    ensures encoded.Some? <==> random.Some?
    ensures encoded.Some? ==>
      && |Split(encoded.value, '$')| == 6
      && Decode(Split(encoded.value, '$')[4]) == random
      && Decode(Split(encoded.value, '$')[5]) == Some(kdf(password, random.value, 32))
      && Verify(kdf, password, encoded.value)
      && forall other :: Verify(kdf, other, encoded.value) <==>
           kdf(other, random.value, 32) == kdf(password, random.value, 32)
  {
    hide Verify, Print, Split, Decode;
    if random.None? {
      return None;
    }
    var salt := new byte[SALT_LENGTH];
    forall i | 0 <= i < SALT_LENGTH {
      salt[i] := random.value[i];
    }
    assert salt[..] == random.value;
    var key := kdf(password, salt[..], KEY_LENGTH);
    encoded := Some(Print(salt[..], key));
    HashedFields(random.value, key);
    HashedAccepts(kdf, password, random.value, password);
    forall other
      ensures Verify(kdf, other, encoded.value) <==> kdf(other, random.value, KEY_LENGTH) == key
    {
      HashedAccepts(kdf, password, random.value, other);
    }
  }
}
