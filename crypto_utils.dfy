/**
 * The stored-credential envelope: `hex(iv) ':' hex(tag) ':' hex(ciphertext)`, its recognition
 * and the format check on decryption, and the salted hash with its verification.  The block
 * cipher and the key-derivation function are abstract parameters.
 */
module CryptoUtils {
  import opened Wrappers

  type Byte = x: int | 0 <= x < 256

  const Separator: char := ':'
  const EncryptPrefix: string := "Erro ao criptografar dados: "
  const DecryptPrefix: string := "Erro ao descriptografar dados: "
  const BadFormat: string := "Formato de dados criptografados inválido"

  // ---------------------------------------------------------------------------------------------
  // Hex

  function HexDigit(n: int): (c: char)
    requires 0 <= n < 16
    ensures c != Separator
    ensures IsHexDigit(c) && DigitValue(c) == n
  {
    if n < 10 then ('0' as int + n) as char else ('a' as int + n - 10) as char
  }

  predicate IsHexDigit(c: char) {
    ('0' <= c <= '9') || ('a' <= c <= 'f') || ('A' <= c <= 'F')
  }

  function DigitValue(c: char): (n: int)
    requires IsHexDigit(c)
    ensures 0 <= n < 16
  {
    if '0' <= c <= '9' then c as int - '0' as int
    else if 'a' <= c <= 'f' then c as int - 'a' as int + 10
    else c as int - 'A' as int + 10
  }

  /** Lower-case hex, two digits per byte, high nibble first. */
  function Hex(bs: seq<Byte>): (s: string)
    ensures |s| == 2 * |bs|
    ensures forall i :: 0 <= i < |s| ==> s[i] != Separator
    decreases |bs|
  {
    if bs == [] then [] else [HexDigit(bs[0] / 16), HexDigit(bs[0] % 16)] + Hex(bs[1..])
  }

  /** Hex decoding as the runtime's buffers do it: pairs of digits up to the first bad pair. */
  function Unhex(s: string): (bs: seq<Byte>)
    ensures |bs| <= |s| / 2
    decreases |s|
  {
    if |s| < 2 || !IsHexDigit(s[0]) || !IsHexDigit(s[1]) then []
    else [DigitValue(s[0]) * 16 + DigitValue(s[1])] + Unhex(s[2..])
  }

  lemma {:induction false} UnhexHex(bs: seq<Byte>)
    ensures Unhex(Hex(bs)) == bs
    decreases |bs|
  {
    if bs != [] {
      var s := Hex(bs);
      assert s[2..] == Hex(bs[1..]);
      UnhexHex(bs[1..]);
    }
  }

  lemma HexInjective(a: seq<Byte>, b: seq<Byte>)
    ensures Hex(a) == Hex(b) <==> a == b
  {
    UnhexHex(a);
    UnhexHex(b);
  }

  // ---------------------------------------------------------------------------------------------
  // Split and join on ':'

  /** `s.split(':')`: the pieces between separators, always at least one. */
  function Split(s: string): (parts: seq<string>)
    ensures |parts| >= 1
    ensures forall i :: 0 <= i < |parts| ==> Separator !in parts[i]
    decreases |s|
  {
    if s == [] then [""]
    else
      var rest := Split(s[1..]);
      if s[0] == Separator then [""] + rest else [[s[0]] + rest[0]] + rest[1..]
  }

  /** The number of separators in `s`. */
  function Separators(s: string): nat
    decreases |s|
  {
    if s == [] then 0 else (if s[0] == Separator then 1 else 0) + Separators(s[1..])
  }

  /** Splitting gives one more piece than there are separators. */
  lemma {:induction false} SplitCount(s: string)
    ensures |Split(s)| == Separators(s) + 1
    decreases |s|
  {
    if s != [] {
      SplitCount(s[1..]);
    }
  }

  /** The pieces joined with ':' between them. */
  function Join(parts: seq<string>): string
    requires |parts| >= 1
    decreases |parts|
  {
    if |parts| == 1 then parts[0] else parts[0] + [Separator] + Join(parts[1..])
  }

  lemma {:induction false} SplitPrefix(a: string, rest: string)
    requires Separator !in a
    ensures Split(a + [Separator] + rest) == [a] + Split(rest)
    decreases |a|
  {
    if a == [] {
      assert a + [Separator] + rest == [Separator] + rest;
      assert ([Separator] + rest)[1..] == rest;
    } else {
      var s := a + [Separator] + rest;
      assert s[1..] == a[1..] + [Separator] + rest;
      SplitPrefix(a[1..], rest);
      assert [a[0]] + a[1..] == a;
    }
  }

  lemma {:induction false} SplitNoSeparator(a: string)
    requires Separator !in a
    ensures Split(a) == [a]
    decreases |a|
  {
    if a != [] {
      SplitNoSeparator(a[1..]);
      assert [a[0]] + a[1..] == a;
    }
  }

  /** Joining pieces without separators and splitting again gives the pieces back. */
  lemma {:induction false} SplitJoin(parts: seq<string>)
    requires |parts| >= 1 && forall i :: 0 <= i < |parts| ==> Separator !in parts[i]
    ensures Split(Join(parts)) == parts
    decreases |parts|
  {
    if |parts| == 1 {
      SplitNoSeparator(parts[0]);
    } else {
      SplitJoin(parts[1..]);
      SplitPrefix(parts[0], Join(parts[1..]));
      assert [parts[0]] + parts[1..] == parts;
    }
  }

  // ---------------------------------------------------------------------------------------------
  // The envelope

  /** The authenticated cipher under the derived key: sealing yields ciphertext and tag. */
  datatype Sealed = Sealed(ciphertext: seq<Byte>, tag: seq<Byte>)

  datatype Cipher = Cipher(seal: string -> Result<Sealed, string>, open: (seq<Byte>, seq<Byte>) -> Result<string, string>)

  /** The three pieces of an envelope. */
  function Envelope(iv: seq<Byte>, sealed: Sealed): string {
    Join([Hex(iv), Hex(sealed.tag), Hex(sealed.ciphertext)])
  }

  /**
   * `encrypt`: nothing for an empty text; otherwise the envelope of a fresh 16-byte `iv` and the
   * sealed text; a cipher failure is rethrown with the encryption prefix.
   */
  function Encrypt(text: string, iv: seq<Byte>, cipher: Cipher): (r: Result<Option<string>, string>)
    requires |iv| == 16
    ensures text == "" ==> r == Ok(None)
    ensures text != "" && cipher.seal(text).Err? ==> r == Err(EncryptPrefix + cipher.seal(text).error)
    ensures text != "" && cipher.seal(text).Ok? ==> r == Ok(Some(Envelope(iv, cipher.seal(text).value)))
    ensures r.Ok? && r.value.Some? ==> && text != "" && cipher.seal(text).Ok?
                                        && Split(r.value.value) == [Hex(iv), Hex(cipher.seal(text).value.tag),
                                                                    Hex(cipher.seal(text).value.ciphertext)]
  {
    if text == "" then Ok(None)
    else
      match cipher.seal(text)
      case Err(e) => Err(EncryptPrefix + e)
      case Ok(sealed) =>
        SplitJoin([Hex(iv), Hex(sealed.tag), Hex(sealed.ciphertext)]);
        Ok(Some(Envelope(iv, sealed)))
  }

  /**
   * `decrypt`: nothing for missing or empty data; anything that does not split into exactly
   * three pieces is refused; otherwise the tag and ciphertext are decoded and opened.
   */
  function Decrypt(data: Option<string>, cipher: Cipher): (r: Result<Option<string>, string>)
    ensures (data.None? || data.value == "") ==> r == Ok(None)
    ensures data.Some? && data.value != "" && |Split(data.value)| != 3 ==> r == Err(DecryptPrefix + BadFormat)
    ensures r.Ok? && r.value.Some? ==> IsEncrypted(data)
  {
    if data.None? || data.value == "" then Ok(None)
    else
      var parts := Split(data.value);
      if |parts| != 3 then Err(DecryptPrefix + BadFormat)
      else
        match cipher.open(Unhex(parts[1]), Unhex(parts[2]))
        case Err(e) => Err(DecryptPrefix + e)
        case Ok(text) => Ok(Some(text))
  }

  /** `isEncrypted`: a non-empty string (`None` stands for anything else) of exactly three pieces. */
  predicate IsEncrypted(data: Option<string>) {
    data.Some? && data.value != "" && |Split(data.value)| == 3
  }

  /** Recognition counts separators: exactly two. */
  lemma IsEncryptedIffTwoSeparators(s: string)
    ensures IsEncrypted(Some(s)) <==> Separators(s) == 2
  {
    SplitCount(s);
  }

  /** A cipher that opens what it seals. */
  predicate Inverse(cipher: Cipher, text: string) {
    cipher.seal(text).Ok? ==> cipher.open(cipher.seal(text).value.tag, cipher.seal(text).value.ciphertext) == Ok(text)
  }

  /**
   * A sealed text always yields an envelope, which is recognised, passes the format check, and
   * decrypts to the text when the cipher opens what it seals; a failed seal yields an error.
   */
  lemma EncryptDecrypt(text: string, iv: seq<Byte>, cipher: Cipher)
    requires |iv| == 16 && text != "" && Inverse(cipher, text)
    ensures var e := Encrypt(text, iv, cipher);
      && (cipher.seal(text).Err? ==> e.Err?)
      && (cipher.seal(text).Ok? ==> && e.Ok? && e.value.Some? && IsEncrypted(e.value)
                                    && Decrypt(e.value, cipher) == Ok(Some(text)))
  {
    if cipher.seal(text).Ok? {
      var sealed := cipher.seal(text).value;
      UnhexHex(sealed.tag);
      UnhexHex(sealed.ciphertext);
      assert Envelope(iv, sealed) != "" by {
        assert |Hex(iv)| == 32;
      }
    }
  }

  // ---------------------------------------------------------------------------------------------
  // Hash

  datatype Hashed = Hashed(hash: string, salt: string)

  /** `hash`: the hex of the derived 64 bytes, under the given salt or, when none (or empty), a fresh one. */
  function Hash(text: string, salt: Option<string>, freshSalt: string, kdf: (string, string) -> seq<Byte>): (h: Hashed)
    ensures h.salt == if salt.Some? && salt.value != "" then salt.value else freshSalt
    ensures h.hash == Hex(kdf(text, h.salt))
  {
    var actual := if salt.Some? && salt.value != "" then salt.value else freshSalt;
    Hashed(Hex(kdf(text, actual)), actual)
  }

  /** `verifyHash`: recompute under the salt and compare. */
  predicate VerifyHash(text: string, hash: string, salt: string, kdf: (string, string) -> seq<Byte>) {
    Hex(kdf(text, salt)) == hash
  }

  /** A text verifies against its own hash, and a text verifies only if it derives the same bytes. */
  lemma HashVerifies(text: string, other: string, salt: Option<string>, freshSalt: string, kdf: (string, string) -> seq<Byte>)
    ensures var h := Hash(text, salt, freshSalt, kdf);
      && VerifyHash(text, h.hash, h.salt, kdf)
      && (VerifyHash(other, h.hash, h.salt, kdf) <==> kdf(other, h.salt) == kdf(text, h.salt))
  {
    var h := Hash(text, salt, freshSalt, kdf);
    HexInjective(kdf(other, h.salt), kdf(text, h.salt));
  }
}
