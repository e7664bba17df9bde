# CredHub core, modelled in Dafny

This project models seven small parts of CredHub, a credential server, and
proves what each of them promises:

- **CredentialHandler** (`handler.dfy`, module `Handler`): permission-checked
  delete and reads of credential versions. The permission service and the
  data service are abstract state. Every read appends exactly one audit entry
  to the caller's list. A denied read and a missing entry give the same
  `EntryNotFound("error.credential.invalid_access")`. A negative version count
  is rejected before permissions are consulted. CredentialHandler's own Java
  source is not available, so its model follows the assertions of
  CredentialHandlerTest.
- **AuditLogFactory.createEventAuditRecord** (`audit.dfy`, module `Audit`): a
  total function from nullable parameters to an audit record. It falls back
  to `"unknown_operation"` and normalises names to a leading `/`
  (`common.dfy`, `Common.NormalizeName`).
- **CertificateCredential** (`certificate_credential.dfy`, module `Domain`):
  fluent setters that write through to the stored row. The private key is
  stored only as the envelope the `Encryptor` produced, and reading it
  decrypts that envelope.
- **EncryptionKeyCanary** (`canary.dfy`, module `Entity`): a record whose
  byte-array fields are cloned on every get and on every set. The arrays are
  Dafny arrays, and the model proves that no array is shared with a caller.
- **TimedRetry.retryEverySecondUntil** (`timed_retry.dfy`, module `Retry`): a
  do-while polling loop over a clock that advances. It is proved to
  terminate. Its answer is tied to the predicate answers and clock readings
  it saw.
- **RsaCredentialHelper.getKeyLength** (`rsa_helper.dfy`, module
  `RsaHelper`): the empty-input guard and the PEM armour stripping of section
  13 of RFC 7468. Base64 decoding and key parsing are function parameters.
- **SignedCertificateGenerator** (`cert_generator.dfy`, module `CertGen`): the
  validity window, issuer and subject, and the extension plan (section 4.2 of
  RFC 5280) of an issued X.509 certificate. Parsing, key identifiers and
  signing are function parameters.

Java `null` is `Option.None` (byte arrays are `array?`, null as in Java). A thrown exception is the `Failure` side of a
`Result`. Collaborators the code only calls are function-typed parameters or
record fields: the encryptor, the certificate tools, Base64 decoding, the key
factory, the clock and the predicate. The certificate generator's time
provider and serial number generator become the plain parameters `now` and
`serialNumber`.

## Model

| member | source | states |
|---|---|---|
| Common.NormalizeName | src/test/java/io/pivotal/security/domain/CertificateCredentialTest.java:71-83 | null stays null and "" stays ""; a non-empty result starts with "/"; a name that already has one is unchanged; otherwise "/" is prepended to the whole name |
| Common.NormalizeNameIdempotent | src/test/java/io/pivotal/security/audit/AuditLogFactoryTest.java:129-144 | normalising an already normalised name changes nothing |
| Common.NormalizeNameKeepsPath | src/test/java/io/pivotal/security/audit/AuditLogFactoryTest.java:129-144 | two names that normalise alike are equal, or differ only by a leading "/" |
| Audit.AccessParameters | src/test/java/io/pivotal/security/handler/CredentialHandlerTest.java:127-140 | the parameters a read records: the given operation code and name, and no ACE operation or actor |
| Audit.CreateEventAuditRecord | src/test/java/io/pivotal/security/audit/AuditLogFactoryTest.java:23-126 | actor, request UUID and success are copied through; the operation is "unknown_operation" exactly when the parameters or their code are absent, and otherwise the code's lower-case name; the name is normalised; the ACE operation is present exactly when given and then is its lower-case name; absent parameters still give a record |
| Audit.OperationString | src/test/java/io/pivotal/security/audit/AuditLogFactoryTest.java:42 | an operation code's string is its constant name lower-cased (only lower-case letters and underscores) and never the "unknown_operation" fallback |
| Audit.PermissionString | src/test/java/io/pivotal/security/audit/AuditLogFactoryTest.java:47 | an ACE operation's string is its constant name lower-cased (only lower-case letters and underscores) |
| Audit.OperationStringInjective | src/test/java/io/pivotal/security/audit/AuditLogFactoryTest.java:23-49 | distinct operation codes give distinct operation strings |
| Audit.PermissionStringInjective | src/test/java/io/pivotal/security/audit/AuditLogFactoryTest.java:23-49 | distinct ACE operations give distinct strings |
| Handler.PermissionService.HasPermission | src/test/java/io/pivotal/security/handler/CredentialHandlerTest.java:73-74 | true exactly when (actor, path, operation) is a grant in the set |
| Handler.CredentialDataService.FindAllByName | src/test/java/io/pivotal/security/handler/CredentialHandlerTest.java:109-124 | the versions stored under the name, in stored order, or none for an unknown name |
| Handler.CredentialDataService.FindMostRecent | src/test/java/io/pivotal/security/handler/CredentialHandlerTest.java:226-239 | absent exactly when nothing is stored under the name, otherwise the first stored version |
| Handler.CredentialDataService.FindByUuid | src/test/java/io/pivotal/security/handler/CredentialHandlerTest.java:303-316 | present exactly when the UUID is stored, and then that version |
| Handler.CredentialDataService.Delete | src/test/java/io/pivotal/security/handler/CredentialHandlerTest.java:71-79 | logs one call with the name, answers what the store reports, and on success removes the name and every version under it |
| Handler.Unnamed | src/test/java/io/pivotal/security/handler/CredentialHandlerTest.java:71-79 | a UUID stays exactly when its version is not under the name, and keeps its version |
| Handler.AuditParameterList.Add | src/test/java/io/pivotal/security/handler/CredentialHandlerTest.java:127-140 | appends one entry to the caller's list |
| Handler.AccessEntry | src/test/java/io/pivotal/security/handler/CredentialHandlerTest.java:127-140 | the entry a read appends carries CREDENTIAL_ACCESS and the name |
| Handler.DeleteOutcome | src/test/java/io/pivotal/security/handler/CredentialHandlerTest.java:71-106 | success exactly when DELETE is granted and the store deleted; otherwise EntryNotFound "error.credential.invalid_access" |
| Handler.VersionsOutcome | src/test/java/io/pivotal/security/handler/CredentialHandlerTest.java:109-191 | success exactly when READ is granted and some version was found, and then the found versions unchanged; otherwise the invalid-access EntryNotFound |
| Handler.MostRecent | src/test/java/io/pivotal/security/handler/CredentialHandlerTest.java:210-223 | a prefix of the stored versions, of length count or all when fewer are stored |
| Handler.NVersionsOutcome | src/test/java/io/pivotal/security/handler/CredentialHandlerTest.java:210-223 | a negative count is InvalidQueryParameter "error.invalid_query_parameter" naming "versions"; otherwise the outcome of reading the count most recent versions |
| Handler.VersionOutcome | src/test/java/io/pivotal/security/handler/CredentialHandlerTest.java:226-361 | success exactly when READ is granted and the version was found, and then that version; otherwise the invalid-access EntryNotFound |
| Handler.DenialLooksLikeAbsence | src/test/java/io/pivotal/security/handler/CredentialHandlerTest.java:82-191 | a denial gives the same outcome as an empty store, for multi-version reads, single-version reads and deletes |
| Handler.CountCheckPrecedesPermission | src/test/java/io/pivotal/security/handler/CredentialHandlerTest.java:210-223 | a negative count gives the same InvalidQueryParameter whatever the permission and the store |
| Handler.EnoughVersionsAreAllVersions | src/test/java/io/pivotal/security/handler/CredentialHandlerTest.java:210-223 | asking for at least as many versions as are stored is the same as asking for all |
| Handler.NVersionsArePrefix | src/test/java/io/pivotal/security/handler/CredentialHandlerTest.java:210-223 | every version a successful getN returns is the stored version at the same position, for a positive count |
| Handler.TwoVersionsScenario | src/test/java/io/pivotal/security/handler/CredentialHandlerTest.java:109-140 | with two versions under a name and READ granted, getAll returns both in stored order; a negative count then fails on "versions" for a caller with no grant; the caller's list holds exactly one CREDENTIAL_ACCESS entry per call |
| Handler.CredentialHandler.constructor | src/test/java/io/pivotal/security/handler/CredentialHandlerTest.java:51-68 | the handler is built over the given data and permission services |
| Handler.CredentialHandler.DeleteCredential | src/test/java/io/pivotal/security/handler/CredentialHandlerTest.java:71-106 | the outcome is DeleteOutcome of the DELETE permission and the store's report; the store is called once with the name when permitted and left untouched when not; the store keeps its delete answer; after a success the name and every UUID under it are gone and all other names and UUIDs keep their versions, and after a failure both maps are as before |
| Handler.CredentialHandler.GetAllCredentialVersions | src/test/java/io/pivotal/security/handler/CredentialHandlerTest.java:109-207 | exactly one CREDENTIAL_ACCESS entry for the name is appended; the result is VersionsOutcome of READ and the stored versions |
| Handler.CredentialHandler.GetNCredentialVersions | src/test/java/io/pivotal/security/handler/CredentialHandlerTest.java:210-223 | exactly one entry is appended; the result is NVersionsOutcome, so the count is checked before the permission |
| Handler.CredentialHandler.GetMostRecentCredentialVersion | src/test/java/io/pivotal/security/handler/CredentialHandlerTest.java:226-300 | exactly one entry is appended; the result is VersionOutcome of READ and the store's most recent version |
| Handler.CredentialHandler.GetCredentialVersion | src/test/java/io/pivotal/security/handler/CredentialHandlerTest.java:303-380 | exactly one entry is appended, naming the found version's credential; READ is checked on that name, not on the UUID; an absent version or a denial gives the invalid-access EntryNotFound |
| Domain.CertificateCredentialData.constructor | src/test/java/io/pivotal/security/domain/CertificateCredentialTest.java:44 | a row with the given name and every other field, the envelope included, unset |
| Domain.CertificateCredentialData.StoredEncryption | src/test/java/io/pivotal/security/domain/CertificateCredentialTest.java:58-62 | the stored envelope exists exactly when ciphertext, nonce and key UUID are all stored, and is made of them |
| Domain.CertificateCredential.constructor | src/test/java/io/pivotal/security/domain/CertificateCredentialTest.java:44-45 | wraps the given row, with no encryptor yet |
| Domain.CertificateCredential.FromValue | src/test/java/io/pivotal/security/domain/CertificateCredentialTest.java:86-94 | a new row holding the value's CA and certificate, the normalised CA name, and the encryption of the private key |
| Domain.CertificateCredential.GetCredentialType | src/test/java/io/pivotal/security/domain/CertificateCredentialTest.java:52-55 | the type is "certificate" |
| Domain.CertificateCredential.SetEncryptor | src/test/java/io/pivotal/security/domain/CertificateCredentialTest.java:44-49 | installs the encryptor and returns the same object |
| Domain.CertificateCredential.SetCa | src/test/java/io/pivotal/security/domain/CertificateCredentialTest.java:44-49 | stores the CA; the row's name, certificate, CA name, ciphertext, nonce and key UUID are unchanged; returns the same object |
| Domain.CertificateCredential.SetCertificate | src/test/java/io/pivotal/security/domain/CertificateCredentialTest.java:44-49 | stores the certificate; the row's name, CA, CA name, ciphertext, nonce and key UUID are unchanged; returns the same object |
| Domain.CertificateCredential.SetCaName | src/test/java/io/pivotal/security/domain/CertificateCredentialTest.java:71-83 | stores the normalised CA name; the row's name, CA, certificate, ciphertext, nonce and key UUID are unchanged; returns the same object |
| Domain.CertificateCredential.SetPrivateKey | src/test/java/io/pivotal/security/domain/CertificateCredentialTest.java:58-62 | the stored envelope becomes exactly the encryptor's output for the key, so ciphertext and nonce are present; no plain field changes |
| Domain.CertificateCredential.GetCa | src/test/java/io/pivotal/security/domain/CertificateCredentialTest.java:86-94 | reads the stored CA |
| Domain.CertificateCredential.GetCertificate | src/test/java/io/pivotal/security/domain/CertificateCredentialTest.java:86-94 | reads the stored certificate |
| Domain.CertificateCredential.GetCaName | src/test/java/io/pivotal/security/domain/CertificateCredentialTest.java:71-83 | reads the stored CA name |
| Domain.CertificateCredential.GetPrivateKey | src/test/java/io/pivotal/security/domain/CertificateCredentialTest.java:64-68 | the encryptor's decryption of the stored envelope; nothing when no envelope is stored |
| Domain.PrivateKeyRoundTrip | src/test/java/io/pivotal/security/domain/CertificateCredentialTest.java:39-68 | with an encryptor that round-trips, a get after a set returns the key that was set |
| Domain.ChainedSetters | src/test/java/io/pivotal/security/domain/CertificateCredentialTest.java:44-49 | the setters chain on one object, and every field then reads back as set, the CA name normalised |
| Domain.FromValueReadsBack | src/test/java/io/pivotal/security/domain/CertificateCredentialTest.java:86-94 | a credential built from a value, an empty certificate included, reads back CA, certificate, private key and normalised CA name |
| Entity.Clone | src/main/java/io/pivotal/security/entity/EncryptionKeyCanary.java:49 | a fresh array with the same contents |
| Entity.CloneOrNull | src/main/java/io/pivotal/security/entity/EncryptionKeyCanary.java:48-55 | null for null; otherwise a fresh array with the same contents |
| Entity.EncryptionKeyCanary.constructor | src/main/java/io/pivotal/security/entity/EncryptionKeyCanary.java:19-38 | all fields null |
| Entity.EncryptionKeyCanary.GetUuid | src/main/java/io/pivotal/security/entity/EncryptionKeyCanary.java:40-42 | returns the stored UUID |
| Entity.EncryptionKeyCanary.SetUuid | src/main/java/io/pivotal/security/entity/EncryptionKeyCanary.java:44-46 | stores the UUID and leaves the arrays alone |
| Entity.EncryptionKeyCanary.SetEncryptionKeyUuid | src/main/java/io/pivotal/security/entity/EncryptionKeyCanary.java:66-69 | the same effect as SetUuid; returns the same object |
| Entity.EncryptionKeyCanary.GetEncryptedCanaryValue | src/main/java/io/pivotal/security/entity/EncryptionKeyCanary.java:48-50 | null when null is stored; otherwise a fresh copy of the stored contents |
| Entity.EncryptionKeyCanary.SetEncryptedCanaryValue | src/main/java/io/pivotal/security/entity/EncryptionKeyCanary.java:52-55 | stores null for null or a fresh copy; other fields unchanged; the stored array is fresh, so no caller and no other field shares it; returns the same object |
| Entity.EncryptionKeyCanary.GetNonce | src/main/java/io/pivotal/security/entity/EncryptionKeyCanary.java:57-59 | null when null is stored; otherwise a fresh copy of the stored contents |
| Entity.EncryptionKeyCanary.SetNonce | src/main/java/io/pivotal/security/entity/EncryptionKeyCanary.java:61-64 | stores null for null or a fresh copy; other fields unchanged; the stored array is fresh, so no caller and no other field shares it; returns the same object |
| Entity.EncryptionKeyCanary.GetSalt | src/main/java/io/pivotal/security/entity/EncryptionKeyCanary.java:71-73 | null when null is stored; otherwise a fresh copy of the stored contents |
| Entity.EncryptionKeyCanary.SetSalt | src/main/java/io/pivotal/security/entity/EncryptionKeyCanary.java:75-77 | stores null for null or a fresh copy; other fields unchanged; the stored array is fresh, so no caller and no other field shares it |
| Entity.CallerWriteAfterSetIsInvisible | src/main/java/io/pivotal/security/entity/EncryptionKeyCanary.java:61-64 | a caller's write to an array it handed to a setter does not change what a later get returns |
| Entity.CallerWriteAfterGetIsInvisible | src/main/java/io/pivotal/security/entity/EncryptionKeyCanary.java:71-73 | a caller's write to an array a getter returned does not change the stored contents |
| Entity.SetGetRoundTrip | src/main/java/io/pivotal/security/entity/EncryptionKeyCanary.java:48-77 | for all three array fields, null in gives null out, and a get after a set returns the contents that were set |
| Retry.EndTime | src/main/java/io/pivotal/security/util/TimedRetry.java:15-17 | the deadline lies 1000 ms per requested second after the entry reading |
| Retry.RetryEverySecondUntil | src/main/java/io/pivotal/security/util/TimedRetry.java:7-34 | terminates on an advancing clock; every evaluation before the last was false; every reading after a sleep but before the last was short of the deadline; true exactly when the last evaluation was; false only on a reading at or past the deadline; one 1000 ms sleep after each false evaluation |
| Retry.RunAnswersSomeEvaluation | src/main/java/io/pivotal/security/util/TimedRetry.java:19-33 | the answer is true exactly when some evaluation was true |
| Retry.FalseOnlyAfterDuration | src/main/java/io/pivotal/security/util/TimedRetry.java:30-33 | a false answer comes only once the requested duration has passed on the clock |
| Retry.TrueAtOnceNeedsNoSleep | src/main/java/io/pivotal/security/util/TimedRetry.java:19-22 | a predicate true at its first evaluation ends the run there, before any sleep |
| Retry.NoDurationEvaluatesOnce | src/main/java/io/pivotal/security/util/TimedRetry.java:19-31 | with a zero or negative duration the predicate is still evaluated, exactly once |
| Retry.RunIsDetermined | src/main/java/io/pivotal/security/util/TimedRetry.java:14-34 | the clock and the predicate answers determine the answer and the number of evaluations |
| RsaHelper.IndexOf | src/main/java/io/pivotal/security/util/RsaCredentialHelper.java:36-37 | the first occurrence of the pattern at or after the start, or none when it does not occur |
| RsaHelper.RemoveFirst | src/main/java/io/pivotal/security/util/RsaCredentialHelper.java:36-37 | cuts out the first occurrence of the pattern; unchanged when there is none; never longer than the input |
| RsaHelper.RemoveAll | src/main/java/io/pivotal/security/util/RsaCredentialHelper.java:38 | no occurrence of the character remains; every other character is kept as often as it occurred; unchanged when the character is absent; never longer than the input |
| RsaHelper.RemoveAllConcat | src/main/java/io/pivotal/security/util/RsaCredentialHelper.java:38 | removal works piece by piece: what is kept of a concatenation is what is kept of each part, in the original order |
| RsaHelper.RemoveAllSingle | src/main/java/io/pivotal/security/util/RsaCredentialHelper.java:38 | a single character is dropped when it is the removed one and kept otherwise |
| RsaHelper.StripPem | src/main/java/io/pivotal/security/util/RsaCredentialHelper.java:35-38 | the text handed to the decoder holds no newline and is never longer than the stored key; StripPemOfArmoured gives it exactly for an armoured key |
| RsaHelper.Pow2 | src/main/java/io/pivotal/security/util/RsaCredentialHelper.java:42 | powers of two are at least 1 |
| RsaHelper.BitLength | src/main/java/io/pivotal/security/util/RsaCredentialHelper.java:42 | zero exactly for zero; otherwise the n with 2^(n-1) <= modulus < 2^n |
| RsaHelper.GetKeyLength | src/main/java/io/pivotal/security/util/RsaCredentialHelper.java:27-46 | 0 for a null or empty key, without decoding; otherwise the bit length of the modulus of the key parsed from the stripped and decoded text; a key-factory failure is a RuntimeException wrapping its cause |
| RsaHelper.NoEndLineWithoutNewlines | src/main/java/io/pivotal/security/util/RsaCredentialHelper.java:18-38 | after every newline is gone the end line can no longer be found, so it must be removed first |
| RsaHelper.MismatchAt | src/main/java/io/pivotal/security/util/RsaCredentialHelper.java:36-37 | one differing character rules out an occurrence |
| RsaHelper.EndLineFoundAtEnd | src/main/java/io/pivotal/security/util/RsaCredentialHelper.java:18-37 | in a Base64 body followed by the end line, the first occurrence of the end line is the appended one |
| RsaHelper.IndexOfFirst | src/main/java/io/pivotal/security/util/RsaCredentialHelper.java:36-37 | an occurrence with none before it is the one found |
| RsaHelper.StripPemOfArmoured | src/main/java/io/pivotal/security/util/RsaCredentialHelper.java:17-39 | stripping an armoured key leaves exactly its Base64 body without newlines |
| RsaHelper.KeyLengthOfArmoured | src/main/java/io/pivotal/security/util/RsaCredentialHelper.java:27-46 | the key length of an armoured key depends on its Base64 body alone |
| CertGen.ExtensionPlan | src/main/java/io/pivotal/security/generator/SignedCertificateGenerator.java:81-97 | two to five extensions: the subject key identifier first, the basic constraints with the CA flag last |
| CertGen.ExtensionPlanContents | src/main/java/io/pivotal/security/generator/SignedCertificateGenerator.java:81-97 | subject key identifier (non-critical) and basic constraints (critical) always; subject alternative name (non-critical), key usage (critical) and extended key usage (non-critical) exactly when the parameters carry them, with their values; only key usage and basic constraints are critical |
| CertGen.ExtensionPlanHasNoDuplicates | src/main/java/io/pivotal/security/generator/SignedCertificateGenerator.java:81-97 | no extension is added twice |
| CertGen.TbsFor | src/main/java/io/pivotal/security/generator/SignedCertificateGenerator.java:68-97 | issuer as given, subject from the parameters, the key pair's public key, notBefore = now, notAfter = now + duration days, and the planned extensions |
| CertGen.Signed | src/main/java/io/pivotal/security/generator/SignedCertificateGenerator.java:99-104 | the body, signed as SHA256withRSA under the given key |
| CertGen.SignedByIssuer | src/main/java/io/pivotal/security/generator/SignedCertificateGenerator.java:65-121 | issuance succeeds exactly when the issuer is non-null and both its certificate and its key parse; otherwise a null issuer, an unparsable certificate or a malformed key fails, checked in that order; on success the issuer's subject name is the issuer and the issuer's key signs |
| CertGen.CertificateBuilder.constructor | src/main/java/io/pivotal/security/generator/SignedCertificateGenerator.java:72-79 | the fixed fields as given, no extensions yet |
| CertGen.CertificateBuilder.AddExtension | src/main/java/io/pivotal/security/generator/SignedCertificateGenerator.java:81-97 | appends one extension |
| CertGen.CertificateBuilder.Tbs | src/main/java/io/pivotal/security/generator/SignedCertificateGenerator.java:102 | the body holds the builder's issuer, subject and extensions |
| CertGen.AddPlannedExtensions | src/main/java/io/pivotal/security/generator/SignedCertificateGenerator.java:81-97 | the successive adds append exactly the extension plan |
| CertGen.BuildTbs | src/main/java/io/pivotal/security/generator/SignedCertificateGenerator.java:68-97 | the builder started with the validity window from now and given the extensions one by one yields exactly TbsFor for the given issuer |
| CertGen.GetSignedByIssuer | src/main/java/io/pivotal/security/generator/SignedCertificateGenerator.java:65-105 | the step-by-step build yields SignedByIssuer |
| CertGen.GetSelfSigned | src/main/java/io/pivotal/security/generator/SignedCertificateGenerator.java:59-73 | as written, fails on every input by dereferencing the null issuer |
| CertGen.SelfSigned | src/main/java/io/pivotal/security/generator/SignedCertificateGenerator.java:59-63 | as intended: issuer and subject are both the parameters' name, signed with the key pair's own private key |
| CertGen.GetSelfSignedCorrected | src/main/java/io/pivotal/security/generator/SignedCertificateGenerator.java:59-63 | the corrected self-signing runs the same builder steps with the subject's own name as issuer and the key pair's own key, and always yields SelfSigned |
| CertGen.SelfSignedIsSignedBySelf | src/main/java/io/pivotal/security/generator/SignedCertificateGenerator.java:59-105 | self-signing equals signing by an issuer credential whose certificate names the subject and whose key is the subject's own |

## Left out

- CredentialHandler's own Java source is not available; its model follows the assertions of CredentialHandlerTest. Where the tests leave a case open, the model makes the following choices:
- Handler.CredentialHandler.GetNCredentialVersions: for a count of zero or more the answer is the first `count` versions from `findAllByName`, through `Handler.MostRecent`, and an empty answer (count 0 included) is EntryNotFound. The tests cover only a negative count.
- Handler.CredentialHandler.GetNCredentialVersions: the audit entry is appended even when the count is negative. The tests do not check the audit list in that case.
- Handler.CredentialHandler.GetCredentialVersion: for an unknown UUID the appended audit entry carries no name, since no version supplies one. The tests do not check the audit list in that case.
- Handler.CredentialDataService.Delete: a successful delete removes the name and every UUID whose version is under it. The tests stub the data service's delete and check only that it was called.
- Handler.CredentialDataService.FindMostRecent: the most recent version is taken to be the first of the versions stored under the name (newest first), since the data service's Java source, and so its ordering, is not available.
- The test's stubbing and call counting are not modelled as such. The delete call is logged in `deleteCalls`, and audit entries are kept in the caller's list.
- Only the two audit operation codes the tests use (CREDENTIAL_ACCESS, CREDENTIAL_UPDATE) are modelled. Lower-casing of enum names is written out as a table of strings.
- Domain.CertificateCredential.GetPrivateKey requires an encryptor to be set: a null encryptor is excluded by the `requires` and not modelled; in Java the call would presumably fail on the null reference.
- Domain.CertificateCredential.GetPrivateKey: answering nothing when no complete envelope is stored (none, or only part of one) is this model's choice. CertificateCredential's own Java source is not available; its model follows the assertions of CertificateCredentialTest, which reads the key only after setting it.
- Domain.CertificateCredential.SetPrivateKey requires an encryptor to be set: a null encryptor is excluded by the `requires` and not modelled; in Java the call would presumably fail on the null reference.
- The Encryptor's real cipher is not modelled. The round trip decrypt(encrypt(p)) == p is the predicate `RoundTrips`, required where it is used.
- The stored row's other metadata (JPA annotations, column lengths, versioning) is not modelled.
- The EncryptionKeyCanary's persistence metadata and UUID generator are not modelled. Neither are key-registry canary verification, key rotation and nonce freshness, because no code for them is part of this model.
- Retry.RetryEverySecondUntil: the time provider's clock reading and its `sleep(ONE_SECOND)` are the function `clock` and the list of requested sleeps. An interrupted sleep is not a separate case, since it only changes how far the clock has moved. The clock is required to advance strictly, which is what makes the loop end.
- Retry.EndTime: Java's `long` overflow for very large durations is not modelled.
- RsaHelper.GetKeyLength: Base64 decoding, `String.getBytes`, the key factory and the X.509 key spec are function parameters. The modulus bit length is computed here. `replaceFirst` and `replaceAll` are modelled for their literal patterns only, which have no regular-expression metacharacters.
- CertGen.TbsFor: `Instant` and `Duration` range limits and `long` overflow are not modelled. Times are unbounded milliseconds.
- Certificate parsing (`getSubjectNameOfCa`), PEM private-key parsing (`getPrivateKey`), the subject key identifier and signing are abstract functions. Their checked exceptions become the two parse failures of `IssuanceError`.
- SecretNameRepository is not part of this model: it is a framework-generated query interface with no logic.
- CertGen.SignedByIssuer: the null issuer is an error result rather than a precondition, so that getSelfSigned can be modelled as written.

## Findings

| source | as written | input that shows it | evidently intended | confidence | as-written member | corrected member |
|---|---|---|---|---|---|---|
| src/main/java/io/pivotal/security/generator/SignedCertificateGenerator.java:59-73 | getSelfSigned passes a null issuer credential to getSignedByIssuer, which dereferences it at line 73 | any key pair and any parameters | the subject is its own issuer and the key pair's private key signs, as the commented-out line 61 suggests | not executed | CertGen.GetSelfSigned | CertGen.GetSelfSignedCorrected |
