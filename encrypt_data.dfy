/**
 * Ciphertext framing of utils/encrypt-data.ts: the random IV in hex, then the
 * AES-256-CBC ciphertext in hex, with the `0x` handling of private keys. The
 * cipher, the key derivation and UTF-8 coding are uninterpreted functions.
 */
module EncryptData {
  import opened Wrappers

  newtype byte = x: int | 0 <= x < 256

  const SALT: string := "salt"
  const ITERATIONS: nat := 100000
  const KEY_LENGTH: nat := 32
  const IV_LENGTH: nat := 16
  const SHORT_IV: string := "Invalid encrypted data: initialization vector is missing or too short."

  /**
   * The primitives: PBKDF2-HMAC-SHA256 (`password, salt, iterations, keylen`), the
   * cipher over `key, iv, bytes`, whose decryption may throw, and UTF-8 coding.
   */
  datatype Primitives = Primitives(
    pbkdf2: (string, string, nat, nat) -> seq<byte>,
    encrypt: (seq<byte>, seq<byte>, seq<byte>) -> seq<byte>,
    decrypt: (seq<byte>, seq<byte>, seq<byte>) -> Result<seq<byte>, string>,
    utf8Encode: string -> seq<byte>,
    utf8Decode: seq<byte> -> string)

  /** Decryption under the same key and IV undoes encryption, and UTF-8 decoding undoes encoding. */
  ghost predicate Inverts(p: Primitives) {
    (forall key, iv, plain :: p.decrypt(key, iv, p.encrypt(key, iv, plain)) == Success(plain))
    && forall s :: p.utf8Decode(p.utf8Encode(s)) == s
  }

  function HexChar(d: nat): char
    requires d < 16
  {
    if d < 10 then ('0' as int + d) as char else ('a' as int + d - 10) as char
  }

  /** The value of a hexadecimal digit of either case, or nothing. */
  function HexValue(c: char): Option<nat> {
    if '0' <= c <= '9' then Some(c as int - '0' as int)
    else if 'a' <= c <= 'f' then Some(c as int - 'a' as int + 10)
    else if 'A' <= c <= 'F' then Some(c as int - 'A' as int + 10)
    else None
  }

  /** `buffer.toString("hex")`: two lower-case digits per byte. */
  function HexEncode(bs: seq<byte>): (s: string)
    ensures |s| == 2 * |bs|
  {
    if bs == [] then "" else [HexChar(bs[0] as nat / 16), HexChar(bs[0] as nat % 16)] + HexEncode(bs[1..])
  }

  /**
   * `Buffer.from(s, "hex")`: pairs of digits are decoded from the left; decoding stops
   * at the first pair that is not two hexadecimal digits, and a lone last digit is dropped.
   */
  function HexDecode(s: string): (bs: seq<byte>)
    ensures 2 * |bs| <= |s|
  {
    if |s| < 2 then []
    else match (HexValue(s[0]), HexValue(s[1]))
      case (Some(hi), Some(lo)) => [(hi * 16 + lo) as byte] + HexDecode(s[2..])
      case _ => []
  }

  lemma {:induction false} HexEncodeAppend(a: seq<byte>, b: seq<byte>)
    ensures HexEncode(a + b) == HexEncode(a) + HexEncode(b)
  {
    if a != [] {
      assert (a + b)[1..] == a[1..] + b;
      HexEncodeAppend(a[1..], b);
    } else {
      assert a + b == b;
    }
  }

  /** Hex decoding reads back every byte that hex encoding wrote, whatever follows. */
  lemma {:induction false} HexRoundTrip(bs: seq<byte>, rest: string)
    ensures HexDecode(HexEncode(bs) + rest) == bs + HexDecode(rest)
  {
    if bs != [] {
      var b := bs[0] as nat;
      var s := HexEncode(bs) + rest;
      assert s[0] == HexChar(b / 16) && s[1] == HexChar(b % 16);
      assert HexValue(HexChar(b / 16)) == Some(b / 16);
      assert HexValue(HexChar(b % 16)) == Some(b % 16);
      assert s[2..] == HexEncode(bs[1..]) + rest;
      HexRoundTrip(bs[1..], rest);
    } else {
      assert HexEncode(bs) + rest == rest;
    }
  }

  /** The plaintext after the private-key rule: its first two characters dropped. */
  function Payload(data: string, isPrivateKey: bool): string {
    if isPrivateKey then data[(if |data| < 2 then |data| else 2)..] else data
  }

  /** `encryptData(data, password, isPrivateKey)` with the random IV given. */
  function Encrypt(data: string, password: string, isPrivateKey: bool, iv: seq<byte>, p: Primitives): string {
    var key := p.pbkdf2(password, SALT, ITERATIONS, KEY_LENGTH);
    HexEncode(iv) + HexEncode(p.encrypt(key, iv, p.utf8Encode(Payload(data, isPrivateKey))))
  }

  /**
   * `decryptData(encryptedData, password, isPrivateKey)`: the IV is the first 16 decoded
   * bytes (taken before the length is checked), the rest is the ciphertext.
   */
  function Decrypt(encryptedData: string, password: string, isPrivateKey: bool, p: Primitives): (r: Result<string, string>)
    ensures |HexDecode(encryptedData)| < IV_LENGTH ==> r == Failure(SHORT_IV)
    ensures r.Success? && isPrivateKey ==> |r.value| >= 2 && r.value[..2] == "0x"
  {
    var buffer := HexDecode(encryptedData);
    var iv := buffer[..if |buffer| < IV_LENGTH then |buffer| else IV_LENGTH];
    if |buffer| < IV_LENGTH then Failure(SHORT_IV)
    else
      var key := p.pbkdf2(password, SALT, ITERATIONS, KEY_LENGTH);
      match p.decrypt(key, iv, buffer[IV_LENGTH..])
      case Failure(e) => Failure(e)
      case Success(plain) =>
        var text := p.utf8Decode(plain);
        Success(if isPrivateKey then "0x" + text else text)
  }

  /** The output opens with the 32 hex digits of the IV, then two digits per ciphertext byte. */
  lemma EncryptFraming(data: string, password: string, isPrivateKey: bool, iv: seq<byte>, p: Primitives)
    requires |iv| == IV_LENGTH
    ensures var e := Encrypt(data, password, isPrivateKey, iv, p);
      var key := p.pbkdf2(password, SALT, ITERATIONS, KEY_LENGTH);
      |e| == 32 + 2 * |p.encrypt(key, iv, p.utf8Encode(Payload(data, isPrivateKey)))|
      && e[..32] == HexEncode(iv) && HexDecode(e) == iv + p.encrypt(key, iv, p.utf8Encode(Payload(data, isPrivateKey)))
  {
    var key := p.pbkdf2(password, SALT, ITERATIONS, KEY_LENGTH);
    var ct := p.encrypt(key, iv, p.utf8Encode(Payload(data, isPrivateKey)));
    HexEncodeAppend(iv, ct);
    HexRoundTrip(iv + ct, "");
    assert HexEncode(iv + ct) + "" == HexEncode(iv + ct);
    assert HexDecode("") == [];
  }

  /** Decryption with the same password returns the data that was encrypted. */
  lemma RoundTrip(data: string, password: string, iv: seq<byte>, p: Primitives)
    requires Inverts(p) && |iv| == IV_LENGTH
    ensures Decrypt(Encrypt(data, password, false, iv, p), password, false, p) == Success(data)
  {
    EncryptFraming(data, password, false, iv, p);
    var key := p.pbkdf2(password, SALT, ITERATIONS, KEY_LENGTH);
    var ct := p.encrypt(key, iv, p.utf8Encode(data));
    assert (iv + ct)[..IV_LENGTH] == iv && (iv + ct)[IV_LENGTH..] == ct;
  }

  /**
   * For a private key the round trip gives `"0x"` followed by the data minus its first
   * two characters: the data itself exactly when it starts with `0x`.
   */
  lemma PrivateKeyRoundTrip(data: string, password: string, iv: seq<byte>, p: Primitives)
    requires Inverts(p) && |iv| == IV_LENGTH
    ensures Decrypt(Encrypt(data, password, true, iv, p), password, true, p) == Success("0x" + Payload(data, true))
    ensures Decrypt(Encrypt(data, password, true, iv, p), password, true, p) == Success(data)
        <==> |data| >= 2 && data[..2] == "0x"
  {
    EncryptFraming(data, password, true, iv, p);
    var key := p.pbkdf2(password, SALT, ITERATIONS, KEY_LENGTH);
    var ct := p.encrypt(key, iv, p.utf8Encode(Payload(data, true)));
    assert (iv + ct)[..IV_LENGTH] == iv && (iv + ct)[IV_LENGTH..] == ct;
    if |data| >= 2 && data[..2] == "0x" {
      assert "0x" + data[2..] == data;
    }
    if "0x" + Payload(data, true) == data {
      assert |data| >= 2 && data[..2] == ("0x" + Payload(data, true))[..2];
    }
  }
}
