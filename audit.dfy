/** AuditLogFactory.createEventAuditRecord: a total function from the
    parameters a handler collected, the caller's user context, the request's
    correlating UUID and the outcome, to one immutable audit record. */
module Audit {
  import opened Common

  /** The auditing operation codes the factory is exercised with. */
  datatype AuditingOperationCode = CredentialAccess | CredentialUpdate

  /** The ACL capabilities a permission check or an ACE change is about. */
  datatype PermissionOperation = Read | Write | Delete | ReadAcl | WriteAcl

  /** Non-empty, and only lower-case letters and underscores: how an enum
      constant's name reads once lower-cased. */
  predicate IsLowerSnakeCase(s: string) {
    |s| > 0 && forall i :: 0 <= i < |s| ==> ('a' <= s[i] <= 'z' || s[i] == '_')
  }

  /** The operation string an operation code carries, the lower-case
      spelling of its constant name; it never collides with the fallback. */
  function OperationString(code: AuditingOperationCode): (r: string)
    ensures IsLowerSnakeCase(r)
    ensures r != UnknownOperation
  {
    match code
    case CredentialAccess => "credential_access"
    case CredentialUpdate => "credential_update"
  }

  /** The operation string a permission operation carries. */
  function PermissionString(op: PermissionOperation): (r: string)
    ensures IsLowerSnakeCase(r)
  {
    match op
    case Read => "read"
    case Write => "write"
    case Delete => "delete"
    case ReadAcl => "read_acl"
    case WriteAcl => "write_acl"
  }

  /** The record's operation when the parameters carry no code. */
  const UnknownOperation: string := "unknown_operation"

  /** The identity of the caller; a mocked context may answer null. */
  datatype UserContext = UserContext(aclUser: Option<string>)

  /** EventAuditRecordParameters: every field may be left unset. */
  datatype EventAuditRecordParameters = EventAuditRecordParameters(
    operationCode: Option<AuditingOperationCode>,
    credentialName: Option<string>,
    aceOperation: Option<PermissionOperation>,
    aceActor: Option<string>)

  /** Parameters as a handler builds them: an operation code and a name. */
  function AccessParameters(code: AuditingOperationCode, name: Option<string>): (p: EventAuditRecordParameters)
    ensures p.operationCode == Some(code) && p.credentialName == name
    ensures p.aceOperation.None? && p.aceActor.None?
  {
    EventAuditRecordParameters(Some(code), name, None, None)
  }

  datatype EventAuditRecord = EventAuditRecord(
    operation: string,
    credentialName: Option<string>,
    actor: Option<string>,
    requestUuid: Uuid,
    success: bool,
    aceOperation: Option<string>,
    aceActor: Option<string>)

  /** Builds the record; absent parameters never make it fail. */
  function CreateEventAuditRecord(
    parameters: Option<EventAuditRecordParameters>,
    userContext: UserContext,
    requestUuid: Uuid,
    success: bool): (r: EventAuditRecord)
    // what the caller supplies directly is copied through
    ensures r.actor == userContext.aclUser
    ensures r.requestUuid == requestUuid && r.success == success
    // a missing code, or missing parameters, fall back to "unknown_operation"
    ensures r.operation == UnknownOperation <==>
              parameters.None? || parameters.value.operationCode.None?
    ensures parameters.Some? && parameters.value.operationCode.Some? ==>
              r.operation == OperationString(parameters.value.operationCode.value)
    // the credential name is normalised to a leading separator
    ensures parameters.None? ==> r.credentialName.None?
    ensures parameters.Some? ==> r.credentialName == NormalizeName(parameters.value.credentialName)
    // ACE operation and actor pass through, absent when absent
    ensures r.aceOperation.Some? <==> parameters.Some? && parameters.value.aceOperation.Some?
    ensures r.aceOperation.Some? ==>
              r.aceOperation.value == PermissionString(parameters.value.aceOperation.value)
    ensures r.aceActor == (if parameters.Some? then parameters.value.aceActor else None)
  {
    match parameters
    case None =>
      EventAuditRecord(UnknownOperation, None, userContext.aclUser, requestUuid, success, None, None)
    case Some(p) =>
      var operation := match p.operationCode
        case None => UnknownOperation
        case Some(code) => OperationString(code);
      var aceOperation := match p.aceOperation
        case None => None
        case Some(op) => Some(PermissionString(op));
      EventAuditRecord(operation, NormalizeName(p.credentialName), userContext.aclUser,
                       requestUuid, success, aceOperation, p.aceActor)
  }

  /** Distinct codes give distinct operation strings, so a record's
      operation names the code it came from. */
  lemma OperationStringInjective(a: AuditingOperationCode, b: AuditingOperationCode)
    ensures OperationString(a) == OperationString(b) <==> a == b
  {
  }

  /** Distinct ACE operations give distinct strings. */
  lemma PermissionStringInjective(a: PermissionOperation, b: PermissionOperation)
    ensures PermissionString(a) == PermissionString(b) <==> a == b
  {
  }
}
