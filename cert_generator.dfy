/** SignedCertificateGenerator: issues an X.509 v3 certificate for a key pair
    (section 4.1 of RFC 5280), signed by an issuer credential. The validity
    window runs from the time provider's "now" for the requested number of
    days; the extensions (section 4.2 of RFC 5280) follow a fixed plan.
    Certificate and PEM parsing, key identifiers and signing are the
    environment: they are passed in as CertificateTools. */
module CertGen {
  import opened Common

  datatype X500Name = X500Name(dn: string)
  datatype PrivateKey = PrivateKey(encoded: seq<byte>)

  /** A key pair; the public key is held as its SubjectPublicKeyInfo. */
  datatype KeyPair = KeyPair(publicKeyInfo: seq<byte>, privateKey: PrivateKey)

  /** CertificateParameters as the generator reads them. The extension
      values are absent when the caller asked for none. */
  datatype CertificateParameters = CertificateParameters(
    x500Name: X500Name,
    duration: int,
    isCa: bool,
    alternativeNames: Option<seq<string>>,
    keyUsage: Option<seq<string>>,
    extendedKeyUsage: Option<seq<string>>)

  /** The issuing credential: its certificate and private key, as PEM. */
  datatype Certificate = Certificate(publicKeyCertificate: string, privateKey: string)

  datatype ExtensionId = SubjectKeyIdentifier | SubjectAlternativeName | KeyUsage | ExtendedKeyUsage | BasicConstraints

  datatype ExtensionValue =
    | KeyIdentifierValue(keyIdentifier: seq<byte>)
    | NamesValue(names: seq<string>)
    | BasicConstraintsValue(ca: bool)

  datatype Extension = Extension(id: ExtensionId, critical: bool, value: ExtensionValue)

  /** The to-be-signed part of a certificate. Times are in milliseconds. */
  datatype TbsCertificate = TbsCertificate(
    issuer: X500Name,
    serialNumber: int,
    notBefore: int,
    notAfter: int,
    subject: X500Name,
    subjectPublicKeyInfo: seq<byte>,
    extensions: seq<Extension>)

  datatype X509Certificate = X509Certificate(tbs: TbsCertificate, signatureAlgorithm: string, signature: seq<byte>)

  datatype IssuanceError =
    | NullIssuer                   // the issuer credential is null and is dereferenced
    | UnparsableIssuerCertificate  // the issuer's certificate does not parse
    | MalformedIssuerKey           // the issuer's private key does not parse

  /** Parsing, key identifiers and signing. */
  datatype CertificateTools = CertificateTools(
    subjectOf: string -> Option<X500Name>,
    parsePrivateKey: string -> Option<PrivateKey>,
    keyIdentifier: seq<byte> -> seq<byte>,
    sign: (TbsCertificate, PrivateKey) -> seq<byte>)

  const MillisPerDay: int := 86_400_000
  const SignatureAlgorithm: string := "SHA256withRSA"

  /** The extension with `id` is in `extensions`, with this criticality and
      value. */
  predicate HasExtension(extensions: seq<Extension>, id: ExtensionId, critical: bool, value: ExtensionValue) {
    Extension(id, critical, value) in extensions
  }

  predicate Mentions(extensions: seq<Extension>, id: ExtensionId) {
    exists e :: e in extensions && e.id == id
  }

  /** The extensions a certificate gets, in the order they are added: the
      subject key identifier first and the basic constraints last, the other
      three in between exactly when the parameters carry them. */
  function ExtensionPlan(params: CertificateParameters, keyIdentifier: seq<byte>): (plan: seq<Extension>)
    ensures 2 <= |plan| <= 5
    ensures plan[0] == Extension(SubjectKeyIdentifier, false, KeyIdentifierValue(keyIdentifier))
    ensures plan[|plan| - 1] == Extension(BasicConstraints, true, BasicConstraintsValue(params.isCa))
  {
    [Extension(SubjectKeyIdentifier, false, KeyIdentifierValue(keyIdentifier))]
    + (if params.alternativeNames.Some?
       then [Extension(SubjectAlternativeName, false, NamesValue(params.alternativeNames.value))] else [])
    + (if params.keyUsage.Some? then [Extension(KeyUsage, true, NamesValue(params.keyUsage.value))] else [])
    + (if params.extendedKeyUsage.Some?
       then [Extension(ExtendedKeyUsage, false, NamesValue(params.extendedKeyUsage.value))] else [])
    + [Extension(BasicConstraints, true, BasicConstraintsValue(params.isCa))]
  }

  /** What the plan holds: the subject key identifier and the basic
      constraints always, each of the other three exactly when the
      parameters carry it, with the parameters' value; only key usage and
      basic constraints are critical. */
  lemma ExtensionPlanContents(params: CertificateParameters, keyIdentifier: seq<byte>)
    ensures var plan := ExtensionPlan(params, keyIdentifier);
            && HasExtension(plan, SubjectKeyIdentifier, false, KeyIdentifierValue(keyIdentifier))
            && HasExtension(plan, BasicConstraints, true, BasicConstraintsValue(params.isCa))
            && (Mentions(plan, SubjectAlternativeName) <==> params.alternativeNames.Some?)
            && (params.alternativeNames.Some? ==>
                  HasExtension(plan, SubjectAlternativeName, false, NamesValue(params.alternativeNames.value)))
            && (Mentions(plan, KeyUsage) <==> params.keyUsage.Some?)
            && (params.keyUsage.Some? ==> HasExtension(plan, KeyUsage, true, NamesValue(params.keyUsage.value)))
            && (Mentions(plan, ExtendedKeyUsage) <==> params.extendedKeyUsage.Some?)
            && (params.extendedKeyUsage.Some? ==>
                  HasExtension(plan, ExtendedKeyUsage, false, NamesValue(params.extendedKeyUsage.value)))
            && (forall i :: 0 <= i < |plan| ==> (plan[i].critical <==> plan[i].id in {KeyUsage, BasicConstraints}))
  {
  }

  /** No extension is planned twice, so no add is ever refused as a duplicate. */
  lemma ExtensionPlanHasNoDuplicates(params: CertificateParameters, keyIdentifier: seq<byte>)
    ensures var plan := ExtensionPlan(params, keyIdentifier);
            forall i, j :: 0 <= i < j < |plan| ==> plan[i].id != plan[j].id
  {
  }

  /** The certificate body for a subject, an issuer name and a time. */
  function TbsFor(keyPair: KeyPair, params: CertificateParameters, issuer: X500Name,
                  now: int, serialNumber: int, tools: CertificateTools): (tbs: TbsCertificate)
    ensures tbs.issuer == issuer && tbs.subject == params.x500Name
    ensures tbs.subjectPublicKeyInfo == keyPair.publicKeyInfo && tbs.serialNumber == serialNumber
    ensures tbs.notBefore == now
    ensures tbs.notAfter - tbs.notBefore == params.duration * MillisPerDay
    ensures tbs.extensions == ExtensionPlan(params, tools.keyIdentifier(keyPair.publicKeyInfo))
  {
    TbsCertificate(issuer, serialNumber, now, now + params.duration * MillisPerDay, params.x500Name,
                   keyPair.publicKeyInfo, ExtensionPlan(params, tools.keyIdentifier(keyPair.publicKeyInfo)))
  }

  /** A signed certificate for `tbs` under `key`. */
  function Signed(tbs: TbsCertificate, key: PrivateKey, tools: CertificateTools): (c: X509Certificate)
    ensures c.tbs == tbs && c.signatureAlgorithm == SignatureAlgorithm
    ensures c.signature == tools.sign(tbs, key)
  {
    X509Certificate(tbs, SignatureAlgorithm, tools.sign(tbs, key))
  }

  /** What getSignedByIssuer yields: a null issuer is dereferenced, an
      unparsable issuer certificate or key fails issuance, and otherwise the
      issuer's subject name becomes the certificate's issuer and the issuer's
      key signs it. */
  function SignedByIssuer(keyPair: KeyPair, params: CertificateParameters, caCertificate: Option<Certificate>,
                          now: int, serialNumber: int, tools: CertificateTools): (r: Result<X509Certificate, IssuanceError>)
    ensures caCertificate.None? ==> r == Failure(NullIssuer)
    ensures caCertificate.Some? && tools.subjectOf(caCertificate.value.publicKeyCertificate).None? ==>
              r == Failure(UnparsableIssuerCertificate)
    ensures caCertificate.Some? && tools.subjectOf(caCertificate.value.publicKeyCertificate).Some? &&
            tools.parsePrivateKey(caCertificate.value.privateKey).None? ==>
              r == Failure(MalformedIssuerKey)
    ensures r.Success? <==>
              && caCertificate.Some?
              && tools.subjectOf(caCertificate.value.publicKeyCertificate).Some?
              && tools.parsePrivateKey(caCertificate.value.privateKey).Some?
    ensures r.Success? ==>
              && caCertificate.Some?
              && var issuer := tools.subjectOf(caCertificate.value.publicKeyCertificate);
              && var key := tools.parsePrivateKey(caCertificate.value.privateKey);
              && issuer.Some? && key.Some?
              && r.value == Signed(TbsFor(keyPair, params, issuer.value, now, serialNumber, tools), key.value, tools)
  {
    match caCertificate
    case None => Failure(NullIssuer)
    case Some(ca) =>
      match tools.subjectOf(ca.publicKeyCertificate)
      case None => Failure(UnparsableIssuerCertificate)
      case Some(issuer) =>
        match tools.parsePrivateKey(ca.privateKey)
        case None => Failure(MalformedIssuerKey)
        case Some(key) => Success(Signed(TbsFor(keyPair, params, issuer, now, serialNumber, tools), key, tools))
  }

  /** X509v3CertificateBuilder: the fixed fields, and the extensions added
      one at a time. */
  class CertificateBuilder {
    const issuer: X500Name
    const serialNumber: int
    const notBefore: int
    const notAfter: int
    const subject: X500Name
    const subjectPublicKeyInfo: seq<byte>
    var extensions: seq<Extension>

    constructor (issuer: X500Name, serialNumber: int, notBefore: int, notAfter: int,
                 subject: X500Name, subjectPublicKeyInfo: seq<byte>)
      ensures this.issuer == issuer && this.serialNumber == serialNumber
      ensures this.notBefore == notBefore && this.notAfter == notAfter
      ensures this.subject == subject && this.subjectPublicKeyInfo == subjectPublicKeyInfo
      ensures extensions == []
    {
      this.issuer := issuer;
      this.serialNumber := serialNumber;
      this.notBefore := notBefore;
      this.notAfter := notAfter;
      this.subject := subject;
      this.subjectPublicKeyInfo := subjectPublicKeyInfo;
      extensions := [];
    }

    method AddExtension(id: ExtensionId, critical: bool, value: ExtensionValue)
      modifies this
      ensures extensions == old(extensions) + [Extension(id, critical, value)]
    {
      extensions := extensions + [Extension(id, critical, value)];
    }

    /** The body built so far. */
    function Tbs(): (tbs: TbsCertificate)
      reads this
      ensures tbs.extensions == extensions && tbs.issuer == issuer && tbs.subject == subject
    {
      TbsCertificate(issuer, serialNumber, notBefore, notAfter, subject, subjectPublicKeyInfo, extensions)
    }
  }

  /** The extension steps of getSignedByIssuer, in order: each add appends
      exactly the next extension of the plan. */
  method AddPlannedExtensions(builder: CertificateBuilder, params: CertificateParameters, keyIdentifier: seq<byte>)
    modifies builder
    ensures builder.extensions == old(builder.extensions) + ExtensionPlan(params, keyIdentifier)
  {
    ghost var added: seq<Extension> := [];
    builder.AddExtension(SubjectKeyIdentifier, false, KeyIdentifierValue(keyIdentifier));
    added := added + [Extension(SubjectKeyIdentifier, false, KeyIdentifierValue(keyIdentifier))];
    if params.alternativeNames.Some? {
      builder.AddExtension(SubjectAlternativeName, false, NamesValue(params.alternativeNames.value));
      added := added + [Extension(SubjectAlternativeName, false, NamesValue(params.alternativeNames.value))];
    }
    if params.keyUsage.Some? {
      builder.AddExtension(KeyUsage, true, NamesValue(params.keyUsage.value));
      added := added + [Extension(KeyUsage, true, NamesValue(params.keyUsage.value))];
    }
    if params.extendedKeyUsage.Some? {
      builder.AddExtension(ExtendedKeyUsage, false, NamesValue(params.extendedKeyUsage.value));
      added := added + [Extension(ExtendedKeyUsage, false, NamesValue(params.extendedKeyUsage.value))];
    }
    builder.AddExtension(BasicConstraints, true, BasicConstraintsValue(params.isCa));
    added := added + [Extension(BasicConstraints, true, BasicConstraintsValue(params.isCa))];
    assert builder.extensions == old(builder.extensions) + added;
    assert added == ExtensionPlan(params, keyIdentifier);
  }

  /** The builder steps of getSignedByIssuer for a given issuer name: start
      the builder with the validity window from `now`, add the extensions one
      by one, and take the body to be signed. */
  method BuildTbs(keyPair: KeyPair, params: CertificateParameters, issuer: X500Name,
                  now: int, serialNumber: int, tools: CertificateTools)
    returns (tbs: TbsCertificate)
    ensures tbs == TbsFor(keyPair, params, issuer, now, serialNumber, tools)
  {
    var publicKeyInfo := keyPair.publicKeyInfo;
    var builder := new CertificateBuilder(issuer, serialNumber, now, now + params.duration * MillisPerDay,
                                          params.x500Name, publicKeyInfo);
    AddPlannedExtensions(builder, params, tools.keyIdentifier(publicKeyInfo));
    tbs := builder.Tbs();
  }

  /** getSignedByIssuer, step by step: read the issuer's subject name, build
      the body, parse the issuer's key and sign. `now` is the time provider's
      reading and `serialNumber` the serial number generator's answer. */
  method GetSignedByIssuer(keyPair: KeyPair, params: CertificateParameters, caCertificate: Option<Certificate>,
                           now: int, serialNumber: int, tools: CertificateTools)
    returns (r: Result<X509Certificate, IssuanceError>)
    ensures r == SignedByIssuer(keyPair, params, caCertificate, now, serialNumber, tools)
  {
    if caCertificate.None? {
      return Failure(NullIssuer);
    }
    var issuer := tools.subjectOf(caCertificate.value.publicKeyCertificate);
    if issuer.None? {
      return Failure(UnparsableIssuerCertificate);
    }
    var tbs := BuildTbs(keyPair, params, issuer.value, now, serialNumber, tools);
    var key := tools.parsePrivateKey(caCertificate.value.privateKey);
    if key.None? {
      return Failure(MalformedIssuerKey);
    }
    r := Success(Signed(tbs, key.value, tools));
  }

  /** getSelfSigned as written: it hands a null issuer on, so it fails on
      every input. */
  method GetSelfSigned(keyPair: KeyPair, params: CertificateParameters, now: int, serialNumber: int,
                       tools: CertificateTools)
    returns (r: Result<X509Certificate, IssuanceError>)
    ensures r == Failure(NullIssuer)
  {
    r := GetSignedByIssuer(keyPair, params, None, now, serialNumber, tools);
  }

  /** A self-signed certificate as intended: the subject is its own issuer
      and the subject's own private key signs it. */
  function SelfSigned(keyPair: KeyPair, params: CertificateParameters, now: int, serialNumber: int,
                      tools: CertificateTools): (c: X509Certificate)
    ensures c.tbs.issuer == c.tbs.subject == params.x500Name
    ensures c.signature == tools.sign(c.tbs, keyPair.privateKey)
    ensures c.tbs == TbsFor(keyPair, params, params.x500Name, now, serialNumber, tools)
  {
    Signed(TbsFor(keyPair, params, params.x500Name, now, serialNumber, tools), keyPair.privateKey, tools)
  }

  /** The corrected self-signing: the same builder steps with the subject's
      own name as issuer, signed with the key pair's own private key; it
      never fails. */
  method GetSelfSignedCorrected(keyPair: KeyPair, params: CertificateParameters, now: int, serialNumber: int,
                                tools: CertificateTools)
    returns (c: X509Certificate)
    ensures c == SelfSigned(keyPair, params, now, serialNumber, tools)
  {
    var tbs := BuildTbs(keyPair, params, params.x500Name, now, serialNumber, tools);
    c := Signed(tbs, keyPair.privateKey, tools);
  }

  /** Self-signing is signing by an issuer that is the subject itself: an
      issuer credential whose certificate names the subject and whose key is
      the subject's own gives the same certificate. */
  lemma SelfSignedIsSignedBySelf(keyPair: KeyPair, params: CertificateParameters, self: Certificate,
                                 now: int, serialNumber: int, tools: CertificateTools)
    requires tools.subjectOf(self.publicKeyCertificate) == Some(params.x500Name)
    requires tools.parsePrivateKey(self.privateKey) == Some(keyPair.privateKey)
    ensures SignedByIssuer(keyPair, params, Some(self), now, serialNumber, tools) ==
            Success(SelfSigned(keyPair, params, now, serialNumber, tools))
  {
  }
}
