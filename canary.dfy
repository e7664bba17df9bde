/** EncryptionKeyCanary: the stored verification record of one encryption
    key. Its byte-array fields are copied on every write and on every read,
    so the record never shares an array with a caller. */
module Entity {
  import opened Common

  /** A fresh array with the contents of `a` (Java's array clone). */
  method Clone(a: array<byte>) returns (c: array<byte>)
    ensures fresh(c) && c[..] == a[..]
  {
    c := new byte[a.Length](i requires 0 <= i < a.Length reads a => a[i]);
  }

  /** `null` stays `null`; anything else is cloned. */
  method CloneOrNull(a: array?<byte>) returns (c: array?<byte>)
    ensures (c == null) == (a == null)
    ensures c != null ==> fresh(c) && c[..] == a[..]
  {
    if a == null {
      c := null;
    } else {
      c := Clone(a);
    }
  }

  class EncryptionKeyCanary {
    var uuid: Option<Uuid>
    var encryptedCanaryValue: array?<byte>
    var nonce: array?<byte>
    var salt: array?<byte>

    constructor ()
      ensures uuid.None? && encryptedCanaryValue == null && nonce == null && salt == null
    {
      uuid := None;
      encryptedCanaryValue := null;
      nonce := null;
      salt := null;
    }

    method GetUuid() returns (u: Option<Uuid>)
      ensures u == uuid
    {
      u := uuid;
    }

    method SetUuid(u: Option<Uuid>)
      modifies this
      ensures uuid == u
      ensures encryptedCanaryValue == old(encryptedCanaryValue) && nonce == old(nonce) && salt == old(salt)
    {
      uuid := u;
    }

    /** Sets the key's UUID exactly as SetUuid does, and returns the record. */
    method SetEncryptionKeyUuid(u: Option<Uuid>) returns (self: EncryptionKeyCanary)
      modifies this
      ensures self == this && uuid == u
      ensures encryptedCanaryValue == old(encryptedCanaryValue) && nonce == old(nonce) && salt == old(salt)
    {
      SetUuid(u);
      self := this;
    }

    method GetEncryptedCanaryValue() returns (r: array?<byte>)
      ensures (r == null) == (encryptedCanaryValue == null)
      ensures r != null ==> fresh(r) && r[..] == encryptedCanaryValue[..]
    {
      r := CloneOrNull(encryptedCanaryValue);
    }

    method SetEncryptedCanaryValue(v: array?<byte>) returns (self: EncryptionKeyCanary)
      modifies this
      ensures self == this
      ensures (encryptedCanaryValue == null) == (v == null)
      ensures v != null ==> fresh(encryptedCanaryValue) && encryptedCanaryValue[..] == v[..]
      ensures uuid == old(uuid) && nonce == old(nonce) && salt == old(salt)
    {
      encryptedCanaryValue := CloneOrNull(v);
      self := this;
    }

    method GetNonce() returns (r: array?<byte>)
      ensures (r == null) == (nonce == null)
      ensures r != null ==> fresh(r) && r[..] == nonce[..]
    {
      r := CloneOrNull(nonce);
    }

    method SetNonce(v: array?<byte>) returns (self: EncryptionKeyCanary)
      modifies this
      ensures self == this
      ensures (nonce == null) == (v == null)
      ensures v != null ==> fresh(nonce) && nonce[..] == v[..]
      ensures uuid == old(uuid) && encryptedCanaryValue == old(encryptedCanaryValue) && salt == old(salt)
    {
      nonce := CloneOrNull(v);
      self := this;
    }

    method GetSalt() returns (r: array?<byte>)
      ensures (r == null) == (salt == null)
      ensures r != null ==> fresh(r) && r[..] == salt[..]
    {
      r := CloneOrNull(salt);
    }

    method SetSalt(v: array?<byte>)
      modifies this
      ensures (salt == null) == (v == null)
      ensures v != null ==> fresh(salt) && salt[..] == v[..]
      ensures uuid == old(uuid) && encryptedCanaryValue == old(encryptedCanaryValue) && nonce == old(nonce)
    {
      salt := CloneOrNull(v);
    }
  }

  /** A caller that changes its array after handing it to a setter does not
      change what the record holds. */
  method CallerWriteAfterSetIsInvisible(c: EncryptionKeyCanary, a: array<byte>, b: byte) returns (got: array?<byte>)
    requires a.Length > 0
    modifies c, a
    ensures got != null && got[..] == old(a[..])
    ensures got != a
  {
    var self := c.SetNonce(a);
    a[0] := b;
    got := c.GetNonce();
  }

  /** A caller that changes an array a getter returned does not change what
      the record holds. */
  method CallerWriteAfterGetIsInvisible(c: EncryptionKeyCanary, b: byte) returns (again: array?<byte>)
    requires c.salt != null && c.salt.Length > 0
    ensures again != null && again[..] == old(c.salt[..])
  {
    var got := c.GetSalt();
    got[0] := b;
    again := c.GetSalt();
  }

  /** Null in, null out, for every byte-array field; and a set followed by a
      get returns the contents that were set. */
  method SetGetRoundTrip(c: EncryptionKeyCanary, v: array?<byte>, n: array?<byte>, s: array?<byte>)
    returns (gv: array?<byte>, gn: array?<byte>, gs: array?<byte>)
    modifies c
    ensures (gv == null) == (v == null) && (gn == null) == (n == null) && (gs == null) == (s == null)
    ensures v != null ==> gv[..] == v[..]
    ensures n != null ==> gn[..] == n[..]
    ensures s != null ==> gs[..] == s[..]
  {
    var self := c.SetEncryptedCanaryValue(v);
    self := c.SetNonce(n);
    c.SetSalt(s);
    gv := c.GetEncryptedCanaryValue();
    gn := c.GetNonce();
    gs := c.GetSalt();
  }
}
