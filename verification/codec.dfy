/**
 * The export/import cipher of src/lib/storage.ts: every UTF-16 code unit is XORed
 * with the code unit of a fixed 195-character key at the same position modulo the
 * key length, and the result is passed through btoa; decryption is atob followed
 * by the same XOR.
 */
module Codec {
  import opened Types
  import opened Base64

  type AsciiChar = c: char | c as int < 128 witness 'a'

  // The key, in chunks of 15 characters.
  const K0: seq<AsciiChar> := "xK9mP2nQ7wR4tY8"
  const K1: seq<AsciiChar> := "uI3oL6aS1dF5gH0"
  const K2: seq<AsciiChar> := "jZ9cV8bN7mM2xK4"
  const K3: seq<AsciiChar> := "wQ3pL6rT9yU2iO5"
  const K4: seq<AsciiChar> := "aS8dF1gH4jK7zC0"
  const K5: seq<AsciiChar> := "vB3nN6mX9qW2eR5"
  const K6: seq<AsciiChar> := "tY8uI1oP4lK7aS0"
  const K7: seq<AsciiChar> := "dF3gH6jZ9cV2bN5"
  const K8: seq<AsciiChar> := "mM8xK1wQ4pL7rT0"
  const K9: seq<AsciiChar> := "yU3iO6aS9dF2gH5"
  const K10: seq<AsciiChar> := "jK8zC1vB4nN7mX0"
  const K11: seq<AsciiChar> := "qW3eR6tY9uI2oP5"
  const K12: seq<AsciiChar> := "lK8aS1dF4gH7jZ0"

  const Key: seq<AsciiChar> := K0 + K1 + K2 + K3 + K4 + K5 + K6 + K7 + K8 + K9 + K10 + K11 + K12

  lemma KeyLength()
    ensures |Key| == 195
  {
  }

  /** `key.charCodeAt(i % key.length)`: an ASCII code unit, so it fits in a byte. */
  function KeyUnit(key: seq<AsciiChar>, i: nat): (u: Unit)
    requires |key| > 0
    ensures u <= 0xFF
  {
    (key[i % |key|] as int as bv8) as Unit
  }

  /** Position i XORed with the key unit for i. */
  function XorWith(s: seq<Unit>, key: seq<AsciiChar>): (r: seq<Unit>)
    requires |key| > 0
    ensures |r| == |s|
  {
    seq(|s|, i requires 0 <= i < |s| => s[i] ^ KeyUnit(key, i))
  }

  /** The XOR step with the application's key. */
  function Xor(s: seq<Unit>): (r: seq<Unit>)
    ensures |r| == |s|
  {
    KeyLength();
    XorWith(s, Key)
  }

  /** The XOR step is its own inverse. */
  lemma XorInvolution(s: seq<Unit>)
    ensures Xor(Xor(s)) == s
  {
    KeyLength();
    var x := Xor(s);
    forall i | 0 <= i < |s| ensures Xor(x)[i] == s[i] {
      assert x[i] == s[i] ^ KeyUnit(Key, i);
    }
  }

  /** Because every key unit fits in a byte, the XOR step keeps a unit within a byte exactly when it was. */
  lemma XorKeepsBinary(s: seq<Unit>)
    ensures IsBinary(Xor(s)) <==> IsBinary(s)
  {
    KeyLength();
    var x := Xor(s);
    forall i | 0 <= i < |s| ensures x[i] <= 0xFF <==> s[i] <= 0xFF {
      assert x[i] == s[i] ^ KeyUnit(Key, i);
    }
  }

  /** encryptData as a value: XOR, then btoa (which may throw). */
  function Encrypt(data: seq<Unit>): Result<seq<Unit>>
  {
    Btoa(Xor(data))
  }

  /** decryptData as a value: atob (which may throw), then XOR. */
  function Decrypt(encrypted: seq<Unit>): Result<seq<Unit>>
  {
    match Atob(encrypted)
    case Failure(m) => Failure(m)
    case Success(d) => Success(Xor(d))
  }

  /** Encryption fails exactly for strings with a code unit above 0xFF. */
  lemma EncryptFailsIffNotBinary(data: seq<Unit>)
    ensures Encrypt(data).Failure? <==> exists i :: 0 <= i < |data| && data[i] > 0xFF
  {
    XorKeepsBinary(data);
  }

  /** Decrypting what was encrypted gives back the original text. */
  lemma DecryptEncrypt(data: seq<Unit>)
    requires Encrypt(data).Success?
    ensures Decrypt(Encrypt(data).value) == Success(data)
  {
    AtobBtoa(Xor(data));
    XorInvolution(data);
  }

  /** The indexed loop shared by encryptData and decryptData. */
  method XorLoop(data: seq<Unit>, key: seq<AsciiChar>) returns (out: seq<Unit>)
    requires |key| > 0
    ensures out == XorWith(data, key)
  {
    out := [];
    var i := 0;
    while i < |data|
      invariant 0 <= i <= |data|
      invariant |out| == i
      invariant forall j :: 0 <= j < i ==> out[j] == data[j] ^ KeyUnit(key, j)
    {
      var charCode := data[i] ^ KeyUnit(key, i);
      out := out + [charCode];
      i := i + 1;
    }
  }

  /** encryptData: XOR loop, then btoa. */
  method EncryptData(data: seq<Unit>) returns (r: Result<seq<Unit>>)
    ensures r == Encrypt(data)
    ensures r.Success? <==> IsBinary(data)
  {
    KeyLength();
    var encrypted := XorLoop(data, Key);
    XorKeepsBinary(data);
    r := Btoa(encrypted);
  }

  /** decryptData: atob, then the XOR loop. */
  method DecryptData(encrypted: seq<Unit>) returns (r: Result<seq<Unit>>)
    ensures r == Decrypt(encrypted)
  {
    var decoded := Atob(encrypted);
    if decoded.Failure? {
      return Failure(decoded.message);
    }
    KeyLength();
    var decrypted := XorLoop(decoded.value, Key);
    r := Success(decrypted);
  }
}
