/** RsaCredentialHelper.getKeyLength: the bit length of an RSA public key
    held as PEM text (the "PUBLIC KEY" textual encoding of a
    SubjectPublicKeyInfo, section 13 of RFC 7468). The PEM armour lines are
    removed, then every newline, and what is left is Base64-decoded and read
    as a SubjectPublicKeyInfo (section 4.1.2.7 of RFC 5280). Decoding and key
    parsing are the environment: they are passed in as functions. */
module RsaHelper {
  import opened Common

  const RsaStart: string := "-----BEGIN PUBLIC KEY-----\n"
  const RsaEnd: string := "\n-----END PUBLIC KEY-----"
  const NewLine: char := '\n'

  /** `pat` occurs in `s` starting at index `i`. */
  predicate OccursAt(s: string, pat: string, i: nat) {
    i + |pat| <= |s| && s[i..i + |pat|] == pat
  }

  /** The first index at or after `from` where `pat` occurs. */
  function IndexOf(s: string, pat: string, from: nat): (r: Option<nat>)
    requires from <= |s|
    ensures r.Some? ==> from <= r.value && OccursAt(s, pat, r.value)
    ensures r.Some? ==> forall j: nat :: from <= j < r.value ==> !OccursAt(s, pat, j)
    ensures r.None? ==> forall j: nat :: from <= j <= |s| ==> !OccursAt(s, pat, j)
    decreases |s| - from
  {
    if OccursAt(s, pat, from) then Some(from)
    else if from == |s| then None
    else IndexOf(s, pat, from + 1)
  }

  /** String.replaceFirst(pat, "") for a pattern with no regular-expression
      metacharacters: the first occurrence of `pat` is cut out. */
  function RemoveFirst(s: string, pat: string): (r: string)
    ensures |r| <= |s|
    ensures IndexOf(s, pat, 0).None? ==> r == s
    ensures IndexOf(s, pat, 0).Some? ==>
              var i := IndexOf(s, pat, 0).value;
              r == s[..i] + s[i + |pat|..]
  {
    match IndexOf(s, pat, 0)
    case None => s
    case Some(i) => s[..i] + s[i + |pat|..]
  }

  /** String.replaceAll(c, ""): every occurrence of `c` is dropped, and every
      other character is kept, as often as it occurred. */
  function RemoveAll(s: string, c: char): (r: string)
    ensures forall i :: 0 <= i < |r| ==> r[i] != c
    ensures forall x :: x != c ==> multiset(r)[x] == multiset(s)[x]
    ensures c !in s ==> r == s
    ensures |r| <= |s|
  {
    if s == [] then []
    else
      assert s == [s[0]] + s[1..];
      if s[0] == c then RemoveAll(s[1..], c) else [s[0]] + RemoveAll(s[1..], c)
  }

  /** The text handed to the Base64 decoder: both armour lines removed,
      the end line before the newlines (it begins with one), then every
      newline. */
  function StripPem(publicKey: string): (r: string)
    ensures forall i :: 0 <= i < |r| ==> r[i] != NewLine
    ensures |r| <= |publicKey|
  {
    RemoveAll(RemoveFirst(RemoveFirst(publicKey, RsaStart), RsaEnd), NewLine)
  }

  /** Removing a character works piece by piece: what is kept of a
      concatenation is what is kept of each part, in order. */
  lemma {:induction false} RemoveAllConcat(a: string, b: string, c: char)
    ensures RemoveAll(a + b, c) == RemoveAll(a, c) + RemoveAll(b, c)
    decreases |a|
  {
    if a == [] {
      assert a + b == b;
    } else {
      assert (a + b)[0] == a[0];
      assert (a + b)[1..] == a[1..] + b;
      RemoveAllConcat(a[1..], b, c);
    }
  }

  /** A single character is dropped when it is `c` and kept otherwise; with
      RemoveAllConcat this fixes RemoveAll on every string, order included. */
  lemma RemoveAllSingle(x: char, c: char)
    ensures RemoveAll([x], c) == if x == c then [] else [x]
  {
    assert [x][1..] == [];
  }

  datatype KeySpecError = NoSuchAlgorithm | InvalidKeySpec

  /** A decoded RSA public key; only its modulus is read. */
  datatype RsaPublicKey = RsaPublicKey(modulus: nat)

  /** The checked exception, wrapped unchecked. */
  datatype KeyLengthError = RuntimeException(cause: KeySpecError)

  function Pow2(n: nat): (r: nat)
    ensures r >= 1
  {
    if n == 0 then 1 else 2 * Pow2(n - 1)
  }

  /** BigInteger.bitLength of a non-negative number: the length of its
      shortest binary representation. */
  function BitLength(n: nat): (r: nat)
    ensures r == 0 <==> n == 0
    ensures r > 0 ==> Pow2(r - 1) <= n
    ensures n < Pow2(r)
  {
    if n == 0 then 0 else 1 + BitLength(n / 2)
  }

  /** The key length of a stored public key. A missing or empty key is 0 and
      nothing is decoded; otherwise the stripped text is decoded, read as a
      key, and its modulus measured; a key-factory failure is rethrown
      wrapped. */
  function GetKeyLength(
    publicKey: Option<string>,
    decodeBase64: string -> seq<byte>,
    generatePublic: seq<byte> -> Result<RsaPublicKey, KeySpecError>): (r: Result<nat, KeyLengthError>)
    ensures publicKey.None? || publicKey.value == "" ==> r == Success(0)
    ensures publicKey.Some? && publicKey.value != "" ==>
              var key := generatePublic(decodeBase64(StripPem(publicKey.value)));
              && (r.Success? <==> key.Success?)
              && (r.Success? ==> r.value == BitLength(key.value.modulus))
              && (r.Failure? ==> r.error.cause == key.error)
  {
    if publicKey.None? || publicKey.value == "" then Success(0)
    else
      match generatePublic(decodeBase64(StripPem(publicKey.value)))
      case Success(key) => Success(BitLength(key.modulus))
      case Failure(e) => Failure(RuntimeException(e))
  }

  /** Characters of a Base64 body: no '-' ever occurs in one. */
  predicate IsBase64Body(body: string) {
    forall i :: 0 <= i < |body| ==> body[i] != '-'
  }

  /** Once every newline is gone the end line can no longer be found, which
      is why it is removed first. */
  lemma NoEndLineWithoutNewlines(s: string, i: nat)
    ensures !OccursAt(RemoveAll(s, NewLine), RsaEnd, i)
  {
    var t := RemoveAll(s, NewLine);
    if i + |RsaEnd| <= |t| {
      assert t[i..i + |RsaEnd|][0] == t[i] != RsaEnd[0];
    }
  }

  /** In `body + end` with a Base64 body, an end line whose second
      character is '-' and whose first is not is found where it was appended. */
  lemma EndLineFoundAtEnd(body: string, end: string)
    requires IsBase64Body(body)
    requires |end| >= 2 && end[0] != '-' && end[1] == '-'
    ensures IndexOf(body + end, end, 0) == Some(|body|)
  {
    var s := body + end;
    assert OccursAt(s, end, |body|) by {
      assert s[|body|..|body| + |end|] == end;
    }
    forall j: nat | j < |body|
      ensures !OccursAt(s, end, j)
    {
      if j + 1 < |body| {
        assert s[j + 1] == body[j + 1];
      } else {
        assert s[j + 1] == end[0];
      }
      MismatchAt(s, end, j, 1);
    }
    IndexOfFirst(s, end, 0, |body|);
  }

  /** One differing character rules an occurrence out. */
  lemma MismatchAt(s: string, pat: string, j: nat, k: nat)
    requires k < |pat| && j + k < |s| && s[j + k] != pat[k]
    ensures !OccursAt(s, pat, j)
  {
    if j + |pat| <= |s| {
      assert s[j..j + |pat|][k] == s[j + k];
    }
  }

  /** An occurrence with none before it is the one IndexOf finds. */
  lemma {:induction false} IndexOfFirst(s: string, pat: string, from: nat, i: nat)
    requires from <= i <= |s|
    requires OccursAt(s, pat, i)
    requires forall j: nat :: from <= j < i ==> !OccursAt(s, pat, j)
    ensures IndexOf(s, pat, from) == Some(i)
    decreases i - from
  {
    if from < i {
      IndexOfFirst(s, pat, from + 1, i);
    }
  }

  /** Stripping a well-formed PEM public key leaves exactly the Base64 body
      with its line breaks removed. */
  lemma StripPemOfArmoured(body: string)
    requires IsBase64Body(body)
    ensures StripPem(RsaStart + body + RsaEnd) == RemoveAll(body, NewLine)
  {
    var s := RsaStart + body + RsaEnd;
    assert OccursAt(s, RsaStart, 0) by {
      assert s[..|RsaStart|] == RsaStart;
    }
    IndexOfFirst(s, RsaStart, 0, 0);
    assert RemoveFirst(s, RsaStart) == body + RsaEnd by {
      assert s[|RsaStart|..] == body + RsaEnd;
    }
    EndLineFoundAtEnd(body, RsaEnd);
    assert RemoveFirst(body + RsaEnd, RsaEnd) == body by {
      assert (body + RsaEnd)[..|body|] == body;
      assert (body + RsaEnd)[|body| + |RsaEnd|..] == [];
    }
  }

  /** The key length of an armoured key is read from its Base64 body alone. */
  lemma KeyLengthOfArmoured(
    body: string,
    decodeBase64: string -> seq<byte>,
    generatePublic: seq<byte> -> Result<RsaPublicKey, KeySpecError>)
    requires IsBase64Body(body)
    ensures var key := generatePublic(decodeBase64(RemoveAll(body, NewLine)));
            GetKeyLength(Some(RsaStart + body + RsaEnd), decodeBase64, generatePublic) ==
              match key
              case Success(k) => Success(BitLength(k.modulus))
              case Failure(e) => Failure(RuntimeException(e))
  {
    StripPemOfArmoured(body);
  }
}
