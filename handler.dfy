/** CredentialHandler: permission-checked reads and deletes of credential
    versions. The handler keeps no state of its own; it consults the
    permission service, calls the data service, and appends one audit
    parameter entry to the caller's list on every read, whatever the outcome.
    Permission denial and a missing entry are reported by the same error, so
    a caller cannot learn that a path it may not read exists. */
module Handler {
  import opened Common
  import opened Audit

  /** One stored version of a credential. */
  datatype Credential = Credential(name: string, uuid: Uuid, versionCreatedAt: int)

  datatype HandlerError =
    | EntryNotFound(message: string)
    | InvalidQueryParameter(message: string, parameter: string)

  const InvalidAccess: string := "error.credential.invalid_access"
  const InvalidQueryParameterMessage: string := "error.invalid_query_parameter"
  const VersionsParameter: string := "versions"

  /** The one error every denial and every missing entry is reported by. */
  const NotFound: HandlerError := EntryNotFound(InvalidAccess)

  /** One entry of the permission table: `actor` may do `operation` on `path`. */
  datatype Grant = Grant(actor: Option<string>, path: string, operation: PermissionOperation)

  /** The permission service, as the fixed table of grants it answers from. */
  datatype PermissionService = PermissionService(grants: set<Grant>) {
    /** The permission check the handler consults: granted exactly when some
        grant names this actor, this path and this operation. */
    predicate HasPermission(actor: Option<string>, path: string, operation: PermissionOperation): (b: bool)
      ensures b <==> exists g :: g in grants && g.actor == actor && g.path == path && g.operation == operation
    {
      Grant(actor, path, operation) in grants
    }
  }

  /** The data service's storage: the versions under each name, newest first,
      and every version by its UUID. `deleteReports` is what its delete call
      answers; `deleteCalls` logs the names delete was called with. */
  class CredentialDataService {
    var versionsByName: map<string, seq<Credential>>
    var versionsByUuid: map<Uuid, Credential>
    var deleteReports: bool
    var deleteCalls: seq<string>

    constructor (byName: map<string, seq<Credential>>, byUuid: map<Uuid, Credential>, deleteReports: bool)
      ensures versionsByName == byName && versionsByUuid == byUuid
      ensures this.deleteReports == deleteReports && deleteCalls == []
    {
      versionsByName := byName;
      versionsByUuid := byUuid;
      this.deleteReports := deleteReports;
      deleteCalls := [];
    }

    /** Every version stored under `name`, in stored order; none when unknown. */
    function FindAllByName(name: string): (r: seq<Credential>)
      reads this
      ensures name in versionsByName ==> r == versionsByName[name]
      ensures name !in versionsByName ==> r == []
    {
      if name in versionsByName then versionsByName[name] else []
    }

    /** The most recent version under `name`: the first one stored. */
    function FindMostRecent(name: string): (r: Option<Credential>)
      reads this
      ensures r.None? <==> FindAllByName(name) == []
      ensures r.Some? ==> r.value == FindAllByName(name)[0]
    {
      var all := FindAllByName(name);
      if all == [] then None else Some(all[0])
    }

    function FindByUuid(uuid: Uuid): (r: Option<Credential>)
      reads this
      ensures r.Some? <==> uuid in versionsByUuid
      ensures r.Some? ==> r.value == versionsByUuid[uuid]
    {
      if uuid in versionsByUuid then Some(versionsByUuid[uuid]) else None
    }

    /** Deletes every version under `name` when the store reports success. */
    method Delete(name: string) returns (deleted: bool)
      modifies this
      ensures deleted == old(deleteReports) && deleteReports == old(deleteReports)
      ensures deleteCalls == old(deleteCalls) + [name]
      ensures versionsByName == if deleted then old(versionsByName) - {name} else old(versionsByName)
      ensures versionsByUuid == if deleted then Unnamed(old(versionsByUuid), name) else old(versionsByUuid)
    {
      deleted := deleteReports;
      deleteCalls := deleteCalls + [name];
      if deleted {
        versionsByName := versionsByName - {name};
        versionsByUuid := Unnamed(versionsByUuid, name);
      }
    }
  }

  /** `byUuid` without the versions stored under `name`. */
  function Unnamed(byUuid: map<Uuid, Credential>, name: string): (r: map<Uuid, Credential>)
    ensures forall u :: u in r <==> u in byUuid && byUuid[u].name != name
    ensures forall u :: u in r ==> r[u] == byUuid[u]
  {
    map u | u in byUuid && byUuid[u].name != name :: byUuid[u]
  }

  /** The caller-owned list the handler appends audit parameters to. */
  class AuditParameterList {
    var entries: seq<EventAuditRecordParameters>

    constructor ()
      ensures entries == []
    {
      entries := [];
    }

    method Add(p: EventAuditRecordParameters)
      modifies this
      ensures entries == old(entries) + [p]
    {
      entries := entries + [p];
    }
  }

  /** What a read under `name` appends to the audit list. Every handler read
      records the same operation code, CREDENTIAL_ACCESS, so the reads name
      only the credential; the parameters themselves are Audit.AccessParameters. */
  function AccessEntry(name: Option<string>): (p: EventAuditRecordParameters)
    ensures p.operationCode == Some(CredentialAccess) && p.credentialName == name
  {
    AccessParameters(CredentialAccess, name)
  }

  /** The outcome of a delete: success only when DELETE is granted and the
      store reports the deletion. */
  function DeleteOutcome(permitted: bool, deleted: bool): (r: Result<(), HandlerError>)
    ensures r.Success? <==> permitted && deleted
    ensures r.Failure? ==> r.error == NotFound
  {
    if permitted && deleted then Success(()) else Failure(NotFound)
  }

  /** The outcome of a multi-version read: the versions found, unchanged and
      in stored order, when READ is granted and at least one was found. */
  function VersionsOutcome(permitted: bool, found: seq<Credential>): (r: Result<seq<Credential>, HandlerError>)
    ensures r.Success? <==> permitted && found != []
    ensures r.Success? ==> r.value == found
    ensures r.Failure? ==> r.error == NotFound
  {
    if permitted && found != [] then Success(found) else Failure(NotFound)
  }

  /** The `count` most recent of the stored versions (all when fewer). */
  function MostRecent(stored: seq<Credential>, count: nat): (r: seq<Credential>)
    ensures |r| == if count < |stored| then count else |stored|
    ensures r <= stored
  {
    if count < |stored| then stored[..count] else stored
  }

  /** The outcome of getNCredentialVersions: a negative count is rejected,
      naming the "versions" parameter, before permission is looked at. */
  function NVersionsOutcome(count: int, permitted: bool, stored: seq<Credential>): (r: Result<seq<Credential>, HandlerError>)
    ensures count < 0 ==> r == Failure(InvalidQueryParameter(InvalidQueryParameterMessage, VersionsParameter))
    ensures count >= 0 ==> r == VersionsOutcome(permitted, MostRecent(stored, count))
  {
    if count < 0 then Failure(InvalidQueryParameter(InvalidQueryParameterMessage, VersionsParameter))
    else VersionsOutcome(permitted, MostRecent(stored, count))
  }

  /** The outcome of a single-version read. */
  function VersionOutcome(permitted: bool, found: Option<Credential>): (r: Result<Credential, HandlerError>)
    ensures r.Success? <==> permitted && found.Some?
    ensures r.Success? ==> r.value == found.value
    ensures r.Failure? ==> r.error == NotFound
  {
    if permitted && found.Some? then Success(found.value) else Failure(NotFound)
  }

  /** A denied read and a read of nothing cannot be told apart. */
  lemma DenialLooksLikeAbsence(found: seq<Credential>, one: Option<Credential>)
    ensures VersionsOutcome(false, found) == VersionsOutcome(true, [])
    ensures VersionOutcome(false, one) == VersionOutcome(true, None)
    ensures DeleteOutcome(false, true) == DeleteOutcome(true, false)
  {
  }

  /** A negative count is reported whatever the permissions and the store. */
  lemma CountCheckPrecedesPermission(count: int, p1: bool, p2: bool, s1: seq<Credential>, s2: seq<Credential>)
    requires count < 0
    ensures NVersionsOutcome(count, p1, s1) == NVersionsOutcome(count, p2, s2)
    ensures NVersionsOutcome(count, p1, s1).Failure? && NVersionsOutcome(count, p1, s1).error != NotFound
  {
  }

  /** Asking for at least as many versions as are stored is asking for all. */
  lemma EnoughVersionsAreAllVersions(count: int, permitted: bool, stored: seq<Credential>)
    requires count >= |stored|
    ensures NVersionsOutcome(count, permitted, stored) == VersionsOutcome(permitted, stored)
  {
  }

  /** A successful getN answers the newest `count` versions, in stored order. */
  lemma NVersionsArePrefix(count: int, permitted: bool, stored: seq<Credential>, i: int)
    requires NVersionsOutcome(count, permitted, stored).Success?
    requires 0 <= i < |NVersionsOutcome(count, permitted, stored).value|
    ensures 0 < count && i < count && i < |stored|
    ensures NVersionsOutcome(count, permitted, stored).value[i] == stored[i]
  {
  }

  class CredentialHandler {
    const dataService: CredentialDataService
    const permissionService: PermissionService

    constructor (dataService: CredentialDataService, permissionService: PermissionService)
      ensures this.dataService == dataService && this.permissionService == permissionService
    {
      this.dataService := dataService;
      this.permissionService := permissionService;
    }

    /** Deletes `name` when DELETE is granted; the store is not called
        otherwise. */
    method DeleteCredential(name: string, userContext: UserContext) returns (r: Result<(), HandlerError>)
      modifies dataService
      ensures var permitted := permissionService.HasPermission(userContext.aclUser, name, Delete);
              && r == DeleteOutcome(permitted, old(dataService.deleteReports))
              && (permitted ==> dataService.deleteCalls == old(dataService.deleteCalls) + [name])
              && (!permitted ==> unchanged(dataService))
      ensures dataService.deleteReports == old(dataService.deleteReports)
      ensures dataService.versionsByName ==
                if r.Success? then old(dataService.versionsByName) - {name} else old(dataService.versionsByName)
      ensures dataService.versionsByUuid ==
                if r.Success? then Unnamed(old(dataService.versionsByUuid), name) else old(dataService.versionsByUuid)
    {
      if !permissionService.HasPermission(userContext.aclUser, name, Delete) {
        return Failure(NotFound);
      }
      var deleted := dataService.Delete(name);
      if !deleted {
        return Failure(NotFound);
      }
      r := Success(());
    }

    /** Every stored version of `name`. */
    method GetAllCredentialVersions(name: string, userContext: UserContext, auditList: AuditParameterList)
      returns (r: Result<seq<Credential>, HandlerError>)
      modifies auditList
      ensures auditList.entries == old(auditList.entries) + [AccessEntry(Some(name))]
      ensures r == VersionsOutcome(permissionService.HasPermission(userContext.aclUser, name, Read),
                                   dataService.FindAllByName(name))
    {
      auditList.Add(AccessEntry(Some(name)));
      var found := dataService.FindAllByName(name);
      if !permissionService.HasPermission(userContext.aclUser, name, Read) || found == [] {
        return Failure(NotFound);
      }
      r := Success(found);
    }

    /** The `count` most recent versions of `name`. */
    method GetNCredentialVersions(name: string, count: int, userContext: UserContext, auditList: AuditParameterList)
      returns (r: Result<seq<Credential>, HandlerError>)
      modifies auditList
      ensures auditList.entries == old(auditList.entries) + [AccessEntry(Some(name))]
      ensures r == NVersionsOutcome(count, permissionService.HasPermission(userContext.aclUser, name, Read),
                                    dataService.FindAllByName(name))
    {
      auditList.Add(AccessEntry(Some(name)));
      if count < 0 {
        return Failure(InvalidQueryParameter(InvalidQueryParameterMessage, VersionsParameter));
      }
      var found := MostRecent(dataService.FindAllByName(name), count);
      if !permissionService.HasPermission(userContext.aclUser, name, Read) || found == [] {
        return Failure(NotFound);
      }
      r := Success(found);
    }

    /** The most recent version of `name`. */
    method GetMostRecentCredentialVersion(name: string, userContext: UserContext, auditList: AuditParameterList)
      returns (r: Result<Credential, HandlerError>)
      modifies auditList
      ensures auditList.entries == old(auditList.entries) + [AccessEntry(Some(name))]
      ensures r == VersionOutcome(permissionService.HasPermission(userContext.aclUser, name, Read),
                                  dataService.FindMostRecent(name))
    {
      auditList.Add(AccessEntry(Some(name)));
      var found := dataService.FindMostRecent(name);
      if found.None? || !permissionService.HasPermission(userContext.aclUser, name, Read) {
        return Failure(NotFound);
      }
      r := Success(found.value);
    }

    /** The version with the given UUID; READ is checked on the found
        version's credential name, which is also the name audited. */
    method GetCredentialVersion(uuid: Uuid, userContext: UserContext, auditList: AuditParameterList)
      returns (r: Result<Credential, HandlerError>)
      modifies auditList
      ensures var found := dataService.FindByUuid(uuid);
              && auditList.entries == old(auditList.entries) +
                   [AccessEntry(if found.Some? then Some(found.value.name) else None)]
              && r == VersionOutcome(found.Some? && permissionService.HasPermission(userContext.aclUser, found.value.name, Read),
                                     found)
    {
      var found := dataService.FindByUuid(uuid);
      if found.None? {
        auditList.Add(AccessEntry(None));
        return Failure(NotFound);
      }
      auditList.Add(AccessEntry(Some(found.value.name)));
      if !permissionService.HasPermission(userContext.aclUser, found.value.name, Read) {
        return Failure(NotFound);
      }
      r := Success(found.value);
    }
  }

  /** Two versions under one name, READ granted: both come back in stored
      order, and the caller's list gains exactly one CREDENTIAL_ACCESS entry
      for that name; a negative count then fails on the "versions" parameter
      even for a caller with no grant, and still adds one entry. */
  method TwoVersionsScenario(v1: Credential, v2: Credential, user: string)
    returns (all: Result<seq<Credential>, HandlerError>, negative: Result<seq<Credential>, HandlerError>,
             entries: seq<EventAuditRecordParameters>)
    requires v1.name == v2.name
    ensures all == Success([v1, v2])
    ensures negative == Failure(InvalidQueryParameter(InvalidQueryParameterMessage, VersionsParameter))
    ensures entries == [AccessEntry(Some(v1.name)), AccessEntry(Some(v1.name))]
  {
    var name := v1.name;
    var store := new CredentialDataService(map[name := [v1, v2]], map[], false);
    var permissions := PermissionService({Grant(Some(user), name, Read)});
    var handler := new CredentialHandler(store, permissions);
    var audit := new AuditParameterList();
    all := handler.GetAllCredentialVersions(name, UserContext(Some(user)), audit);
    negative := handler.GetNCredentialVersions(name, -1, UserContext(None), audit);
    entries := audit.entries;
  }
}
