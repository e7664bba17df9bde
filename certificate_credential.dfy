/** CertificateCredential: the domain view of one certificate credential
    version. It wraps the stored row (CertificateCredentialData) and writes
    through to it: the private key is kept only as an encryption envelope,
    produced by the Encryptor on every set and decrypted on every get, and
    the CA name is normalised to a leading separator. */
module Domain {
  import opened Common

  /** The result of one encrypt call: the key that produced it, the
      ciphertext and the nonce. */
  datatype Encryption = Encryption(canaryUuid: Uuid, encryptedValue: seq<byte>, nonce: seq<byte>)

  /** The Encryptor collaborator as its pair of operations. */
  datatype Encryptor = Encryptor(encrypt: string -> Encryption, decrypt: Encryption -> string)

  /** The one thing the model relies on about an Encryptor: decrypting what
      it encrypted gives back the plaintext. */
  ghost predicate RoundTrips(e: Encryptor) {
    forall p :: e.decrypt(e.encrypt(p)) == p
  }

  const CertificateType: string := "certificate"

  /** The stored row: plain fields and the private key's envelope. */
  class CertificateCredentialData {
    var name: Option<string>
    var ca: Option<string>
    var certificate: Option<string>
    var caName: Option<string>
    var encryptedValue: Option<seq<byte>>
    var nonce: Option<seq<byte>>
    var encryptionKeyUuid: Option<Uuid>

    constructor (name: Option<string>)
      ensures this.name == name
      ensures ca.None? && certificate.None? && caName.None?
      ensures encryptedValue.None? && nonce.None? && encryptionKeyUuid.None?
    {
      this.name := name;
      ca, certificate, caName := None, None, None;
      encryptedValue, nonce, encryptionKeyUuid := None, None, None;
    }

    /** The stored envelope, when one has been stored. */
    function StoredEncryption(): (r: Option<Encryption>)
      reads this
      ensures r.Some? <==> encryptedValue.Some? && nonce.Some? && encryptionKeyUuid.Some?
      ensures r.Some? ==> r.value.encryptedValue == encryptedValue.value && r.value.nonce == nonce.value
                          && r.value.canaryUuid == encryptionKeyUuid.value
    {
      if encryptedValue.Some? && nonce.Some? && encryptionKeyUuid.Some?
      then Some(Encryption(encryptionKeyUuid.value, encryptedValue.value, nonce.value))
      else None
    }
  }

  /** CertificateCredentialValue: the plain fields a credential is made from. */
  datatype CertificateCredentialValue = CertificateCredentialValue(
    ca: Option<string>, certificate: Option<string>, privateKey: string, caName: Option<string>)

  class CertificateCredential {
    const delegate: CertificateCredentialData
    var encryptor: Option<Encryptor>

    /** Wraps an existing row; no encryptor yet. */
    constructor (delegate: CertificateCredentialData)
      ensures this.delegate == delegate && encryptor.None?
    {
      this.delegate := delegate;
      encryptor := None;
    }

    /** Builds a new row from a value: the private key is encrypted at once
        and the CA name normalised. */
    constructor FromValue(value: CertificateCredentialValue, encryptor: Encryptor)
      ensures fresh(delegate) && this.encryptor == Some(encryptor)
      ensures delegate.name.None?
      ensures delegate.ca == value.ca && delegate.certificate == value.certificate
      ensures delegate.caName == NormalizeName(value.caName)
      ensures delegate.StoredEncryption() == Some(encryptor.encrypt(value.privateKey))
    {
      var data := new CertificateCredentialData(None);
      data.ca := value.ca;
      data.certificate := value.certificate;
      data.caName := NormalizeName(value.caName);
      var encryption := encryptor.encrypt(value.privateKey);
      data.encryptedValue := Some(encryption.encryptedValue);
      data.nonce := Some(encryption.nonce);
      data.encryptionKeyUuid := Some(encryption.canaryUuid);
      this.delegate := data;
      this.encryptor := Some(encryptor);
    }

    function GetCredentialType(): (t: string)
      ensures t == CertificateType
    {
      CertificateType
    }

    method SetEncryptor(e: Encryptor) returns (self: CertificateCredential)
      modifies this
      ensures self == this && encryptor == Some(e)
    {
      encryptor := Some(e);
      self := this;
    }

    method GetCa() returns (ca: Option<string>)
      ensures ca == delegate.ca
    {
      ca := delegate.ca;
    }

    method SetCa(ca: Option<string>) returns (self: CertificateCredential)
      modifies delegate
      ensures self == this && delegate.ca == ca
      ensures delegate.certificate == old(delegate.certificate) && delegate.caName == old(delegate.caName)
      ensures delegate.name == old(delegate.name) && delegate.encryptionKeyUuid == old(delegate.encryptionKeyUuid)
      ensures delegate.encryptedValue == old(delegate.encryptedValue) && delegate.nonce == old(delegate.nonce)
    {
      delegate.ca := ca;
      self := this;
    }

    method GetCertificate() returns (certificate: Option<string>)
      ensures certificate == delegate.certificate
    {
      certificate := delegate.certificate;
    }

    method SetCertificate(certificate: Option<string>) returns (self: CertificateCredential)
      modifies delegate
      ensures self == this && delegate.certificate == certificate
      ensures delegate.ca == old(delegate.ca) && delegate.caName == old(delegate.caName)
      ensures delegate.name == old(delegate.name) && delegate.encryptionKeyUuid == old(delegate.encryptionKeyUuid)
      ensures delegate.encryptedValue == old(delegate.encryptedValue) && delegate.nonce == old(delegate.nonce)
    {
      delegate.certificate := certificate;
      self := this;
    }

    method GetCaName() returns (caName: Option<string>)
      ensures caName == delegate.caName
    {
      caName := delegate.caName;
    }

    method SetCaName(caName: Option<string>) returns (self: CertificateCredential)
      modifies delegate
      ensures self == this && delegate.caName == NormalizeName(caName)
      ensures delegate.ca == old(delegate.ca) && delegate.certificate == old(delegate.certificate)
      ensures delegate.name == old(delegate.name) && delegate.encryptionKeyUuid == old(delegate.encryptionKeyUuid)
      ensures delegate.encryptedValue == old(delegate.encryptedValue) && delegate.nonce == old(delegate.nonce)
    {
      delegate.caName := NormalizeName(caName);
      self := this;
    }

    /** Encrypts `privateKey` and replaces the whole stored envelope. */
    method SetPrivateKey(privateKey: string) returns (self: CertificateCredential)
      requires encryptor.Some?
      modifies delegate
      ensures self == this
      ensures delegate.StoredEncryption() == Some(encryptor.value.encrypt(privateKey))
      ensures delegate.ca == old(delegate.ca) && delegate.certificate == old(delegate.certificate)
      ensures delegate.caName == old(delegate.caName) && delegate.name == old(delegate.name)
    {
      var encryption := encryptor.value.encrypt(privateKey);
      delegate.encryptedValue := Some(encryption.encryptedValue);
      delegate.nonce := Some(encryption.nonce);
      delegate.encryptionKeyUuid := Some(encryption.canaryUuid);
      self := this;
    }

    /** Decrypts the stored envelope; nothing when none has been stored. */
    method GetPrivateKey() returns (privateKey: Option<string>)
      requires encryptor.Some?
      ensures privateKey.Some? <==> delegate.StoredEncryption().Some?
      ensures privateKey.Some? ==> privateKey.value == encryptor.value.decrypt(delegate.StoredEncryption().value)
    {
      var stored := delegate.StoredEncryption();
      if stored.None? {
        return None;
      }
      privateKey := Some(encryptor.value.decrypt(stored.value));
    }
  }

  /** Setting a private key and reading it back gives the key that was set. */
  method PrivateKeyRoundTrip(c: CertificateCredential, privateKey: string) returns (got: Option<string>)
    requires c.encryptor.Some? && RoundTrips(c.encryptor.value)
    modifies c.delegate
    ensures got == Some(privateKey)
  {
    var self := c.SetPrivateKey(privateKey);
    got := c.GetPrivateKey();
  }

  /** The fluent setters chained on one object, as a caller builds a
      credential; every field then reads back as it was set, and the CA
      name normalised. */
  method ChainedSetters(data: CertificateCredentialData, e: Encryptor, ca: string, certificate: string,
                        privateKey: string, caName: Option<string>)
    returns (c: CertificateCredential, gotCa: Option<string>, gotCertificate: Option<string>,
             gotKey: Option<string>, gotCaName: Option<string>)
    requires RoundTrips(e)
    modifies data
    ensures c.delegate == data
    ensures gotCa == Some(ca) && gotCertificate == Some(certificate) && gotKey == Some(privateKey)
    ensures gotCaName == NormalizeName(caName)
  {
    c := new CertificateCredential(data);
    var self := c.SetEncryptor(e);
    self := self.SetCa(Some(ca));
    self := self.SetCertificate(Some(certificate));
    self := self.SetPrivateKey(privateKey);
    self := self.SetCaName(caName);
    gotCa := c.GetCa();
    gotCertificate := c.GetCertificate();
    gotKey := c.GetPrivateKey();
    gotCaName := c.GetCaName();
  }

  /** A credential built from a value with an empty certificate reads back
      every field as given. */
  method FromValueReadsBack(value: CertificateCredentialValue, e: Encryptor)
    returns (gotCa: Option<string>, gotCertificate: Option<string>, gotKey: Option<string>, gotCaName: Option<string>)
    requires RoundTrips(e)
    ensures gotCa == value.ca && gotCertificate == value.certificate
    ensures gotKey == Some(value.privateKey) && gotCaName == NormalizeName(value.caName)
  {
    var c := new CertificateCredential.FromValue(value, e);
    gotCa := c.GetCa();
    gotCertificate := c.GetCertificate();
    gotKey := c.GetPrivateKey();
    gotCaName := c.GetCaName();
  }
}
