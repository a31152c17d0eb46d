/**
 * AuditRecordEntitySetsManager: which audit record and audit edge entity sets
 * record the events of a securable object, and their creation.
 */
module AuditEntitySets {
  import opened Wrappers
  import opened Edm
  import opened Seqs

  /** An AuditEventType constant, identified by its name. */
  datatype AuditEventType = AuditEventType(name: string)

  /** The event types recorded in the EDM audit entity set rather than in the object's own. */
  const EDM_AUDIT_TYPES: set<AuditEventType> := {
    AuditEventType("CREATE_PROPERTY_TYPE"),
    AuditEventType("UPDATE_PROPERTY_TYPE"),
    AuditEventType("DELETE_PROPERTY_TYPE"),
    AuditEventType("CREATE_ENTITY_TYPE"),
    AuditEventType("UPDATE_ENTITY_TYPE"),
    AuditEventType("ADD_PROPERTY_TYPE_TO_ENTITY_TYPE"),
    AuditEventType("REMOVE_PROPERTY_TYPE_FROM_ENTITY_TYPE"),
    AuditEventType("DELETE_ENTITY_TYPE"),
    AuditEventType("CREATE_ASSOCIATION_TYPE"),
    AuditEventType("UPDATE_ASSOCIATION_TYPE"),
    AuditEventType("ADD_ENTITY_TYPE_TO_ASSOCIATION_TYPE"),
    AuditEventType("REMOVE_ENTITY_TYPE_FROM_ASSOCIATION_TYPE"),
    AuditEventType("DELETE_ASSOCIATION_TYPE")
  }

  /** The audit configuration of one securable object: its active sets and all its sets so far. */
  datatype AuditRecordEntitySetConfiguration = AuditRecordEntitySetConfiguration(
    activeAuditRecordEntitySetId: Uuid,
    activeAuditEdgeEntitySetId: Option<Uuid>,
    auditRecordEntitySetIds: seq<Uuid>,
    auditEdgeEntitySetIds: seq<Uuid>)

  type Configurations = map<AclKey, AuditRecordEntitySetConfiguration>

  /** The pair of audit entity sets an event goes to; None is Kotlin's null. */
  datatype AuditEntitySetsConfiguration = AuditEntitySetsConfiguration(auditRecordEntitySet: Option<Uuid>, auditEdgeEntitySet: Option<Uuid>)

  /** What the manager asks other managers to do. */
  datatype Effect =
    | CreatedEntitySet(owner: Principal, entitySet: EntitySet)       // entitySetManager.createEntitySet
    | GrantedAll(aclKeys: set<AclKey>, principals: set<Principal>)   // setPermission with every Permission

  /** Some configuration lists `id` among its audit record sets (the ANY_AUDITING_ENTITY_SETS query). */
  predicate IsAuditRecordSet(configs: Configurations, id: Uuid)
  {
    exists k :: k in configs && id in configs[k].auditRecordEntitySetIds
  }

  /** Some configuration lists `id` among its audit edge sets (the ANY_EDGE_AUDITING_ENTITY_SETS query). */
  predicate IsAuditEdgeSet(configs: Configurations, id: Uuid)
  {
    exists k :: k in configs && id in configs[k].auditEdgeEntitySetIds
  }

  /** isAnAuditEntitySetPredicate: either of the two. */
  predicate IsAnAuditEntitySet(configs: Configurations, id: Uuid)
  {
    IsAuditRecordSet(configs, id) || IsAuditEdgeSet(configs, id)
  }

  /** The first configuration, in the map's iteration order, whose record or edge sets list `id`. */
  function FirstListing(configs: Configurations, order: seq<AclKey>, id: Uuid, edges: bool): (r: Option<AuditRecordEntitySetConfiguration>)
    requires forall k :: k in order ==> k in configs
    ensures r.None? <==> forall i :: 0 <= i < |order| ==> id !in Listed(configs[order[i]], edges)
    ensures r.Some? ==> exists i :: 0 <= i < |order| && r.value == configs[order[i]] && id in Listed(r.value, edges)
  {
    if order == [] then None
    else if id in Listed(configs[order[0]], edges) then Some(configs[order[0]])
    else
      var rest := FirstListing(configs, order[1..], id, edges);
      assert forall i :: 1 <= i < |order| ==> order[i] == order[1..][i - 1];
      rest
  }

  function Listed(c: AuditRecordEntitySetConfiguration, edges: bool): seq<Uuid>
  {
    if edges then c.auditEdgeEntitySetIds else c.auditRecordEntitySetIds
  }

  /** When the order lists every configuration, a listing exists exactly when the query matches one. */
  lemma FirstListingFinds(configs: Configurations, order: seq<AclKey>, id: Uuid)
    requires IsOrderOf(order, configs.Keys)
    ensures FirstListing(configs, order, id, false).Some? <==> IsAuditRecordSet(configs, id)
    ensures FirstListing(configs, order, id, true).Some? <==> IsAuditEdgeSet(configs, id)
  {
    if IsAuditRecordSet(configs, id) {
      var k :| k in configs && id in configs[k].auditRecordEntitySetIds;
      var i :| 0 <= i < |order| && order[i] == k;
    }
    if IsAuditEdgeSet(configs, id) {
      var k :| k in configs && id in configs[k].auditEdgeEntitySetIds;
      var i :| 0 <= i < |order| && order[i] == k;
    }
  }

  /** The decision of getActiveAuditEntitySetIds, once the root id and the EDM audit set are known. */
  function ActiveAuditEntitySetIds(configs: Configurations, order: seq<AclKey>, edmId: Uuid, root: Uuid,
                                   eventType: AuditEventType): (r: AuditEntitySetsConfiguration)
    requires forall k :: k in order ==> k in configs
  {
    if eventType in EDM_AUDIT_TYPES || root == edmId then AuditEntitySetsConfiguration(Some(edmId), None)
    else if [root] in configs then
      AuditEntitySetsConfiguration(Some(configs[[root]].activeAuditRecordEntitySetId), configs[[root]].activeAuditEdgeEntitySetId)
    else
      var auditSet := FirstListing(configs, order, root, false);
      var edgeSet := FirstListing(configs, order, root, true);
      if auditSet.Some? then AuditEntitySetsConfiguration(Some(root), auditSet.value.activeAuditEdgeEntitySetId)
      else if edgeSet.Some? then AuditEntitySetsConfiguration(Some(edgeSet.value.activeAuditRecordEntitySetId), Some(root))
      else AuditEntitySetsConfiguration(None, None)
  }

  /**
   * The five outcomes of getActiveAuditEntitySetIds: the EDM set for EDM
   * events; the object's own configuration; the root itself when it is an
   * audit set of some object, or an edge set; nothing otherwise.
   */
  lemma ActiveAuditEntitySetIdsCases(configs: Configurations, order: seq<AclKey>, edmId: Uuid, root: Uuid, eventType: AuditEventType)
    requires IsOrderOf(order, configs.Keys)
    ensures var r := ActiveAuditEntitySetIds(configs, order, edmId, root, eventType);
      && (eventType in EDM_AUDIT_TYPES || root == edmId ==> r == AuditEntitySetsConfiguration(Some(edmId), None))
      && (!(eventType in EDM_AUDIT_TYPES || root == edmId) && [root] in configs ==>
            r == AuditEntitySetsConfiguration(Some(configs[[root]].activeAuditRecordEntitySetId), configs[[root]].activeAuditEdgeEntitySetId))
      && (!(eventType in EDM_AUDIT_TYPES || root == edmId) && [root] !in configs && IsAuditRecordSet(configs, root) ==>
            r.auditRecordEntitySet == Some(root)
            && exists k :: k in configs && root in configs[k].auditRecordEntitySetIds && r.auditEdgeEntitySet == configs[k].activeAuditEdgeEntitySetId)
      && (!(eventType in EDM_AUDIT_TYPES || root == edmId) && [root] !in configs && !IsAuditRecordSet(configs, root) && IsAuditEdgeSet(configs, root) ==>
            r.auditEdgeEntitySet == Some(root)
            && exists k :: k in configs && root in configs[k].auditEdgeEntitySetIds && r.auditRecordEntitySet == Some(configs[k].activeAuditRecordEntitySetId))
      && (!(eventType in EDM_AUDIT_TYPES || root == edmId) && [root] !in configs && !IsAnAuditEntitySet(configs, root) ==>
            r == AuditEntitySetsConfiguration(None, None))
  {
    FirstListingFinds(configs, order, root);
  }

  /** The decision of getActiveAuditRecordEntitySetId, for a non-EDM event once the root id and the EDM audit set are known. */
  function ActiveAuditRecordEntitySetId(configs: Configurations, edmId: Uuid, root: Uuid): (r: Option<Uuid>)
    ensures root == edmId || IsAuditRecordSet(configs, root) ==> r == Some(root)
    ensures !(root == edmId || IsAuditRecordSet(configs, root)) ==>
      (r.Some? <==> [root] in configs) && ([root] in configs ==> r == Some(configs[[root]].activeAuditRecordEntitySetId))
  {
    if root == edmId || IsAuditRecordSet(configs, root) then Some(root)
    else if [root] in configs then Some(configs[[root]].activeAuditRecordEntitySetId)
    else None
  }

  /**
   * The two lookups agree on the record set for every root that no
   * configuration lists as one of its audit sets.
   */
  lemma RecordSetLookupsAgree(configs: Configurations, order: seq<AclKey>, edmId: Uuid, root: Uuid, eventType: AuditEventType)
    requires IsOrderOf(order, configs.Keys)
    requires eventType !in EDM_AUDIT_TYPES
    requires !IsAnAuditEntitySet(configs, root)
    ensures ActiveAuditEntitySetIds(configs, order, edmId, root, eventType).auditRecordEntitySet
      == ActiveAuditRecordEntitySetId(configs, edmId, root)
  {
    FirstListingFinds(configs, order, root);
  }

  /** The keys that get every permission for a new audit set: the set itself and each of its auditing property types. */
  function AuditAclKeys(entitySetId: Uuid, propertyTypeIds: seq<Uuid>): (r: set<AclKey>)
    ensures [entitySetId] in r
    ensures forall pt :: pt in propertyTypeIds ==> [entitySetId, pt] in r
    ensures forall k :: k in r ==> k == [entitySetId] || (|k| == 2 && k[0] == entitySetId && k[1] in propertyTypeIds)
  {
    (set pt | pt in propertyTypeIds :: [entitySetId, pt]) + {[entitySetId]}
  }

  /** The first owner whose type is USER. */
  function FirstUser(owners: seq<Principal>): (r: Option<Principal>)
    ensures r.None? <==> forall i :: 0 <= i < |owners| ==> owners[i].kind != USER
    ensures r.Some? ==> r.value in owners && r.value.kind == USER
  {
    if owners == [] then None
    else if owners[0].kind == USER then Some(owners[0])
    else
      var rest := FirstUser(owners[1..]);
      assert forall i :: 1 <= i < |owners| ==> owners[i] == owners[1..][i - 1];
      rest
  }

  /** The state the manager changes: the configuration map and what it asked the other managers to do. */
  datatype AuditState = AuditState(configurations: Configurations, effects: seq<Effect>)

  /** How CreateOrUpdateAuditRecordEntitySetsProcessor changes a configuration; the processor is not part of this model. */
  type ConfigUpdate = (Option<AuditRecordEntitySetConfiguration>, Uuid, Uuid) -> AuditRecordEntitySetConfiguration

  /** What createAuditEntitySet(aclKey, entitySet, edgeEntitySet) does, `owners` being the object's owners in iteration order. */
  function CreateAuditEntitySetStep(s: AuditState, update: ConfigUpdate, propertyTypeIds: seq<Uuid>,
                                    aclKey: AclKey, entitySet: EntitySet, edgeEntitySet: EntitySet, owners: seq<Principal>): (AuditState, Result<()>)
  {
    match FirstUser(owners)
    case None => (s, Success(()))
    case Some(user) =>
      if aclKey == [] then (s, Failure(NoSuchElement))
      else
        var created :=
          if IsAnAuditEntitySet(s.configurations, aclKey[0]) then s
          else
            var current := if aclKey in s.configurations then Some(s.configurations[aclKey]) else None;
            AuditState(s.configurations[aclKey := update(current, entitySet.id, edgeEntitySet.id)],
                       s.effects + [CreatedEntitySet(user, entitySet), CreatedEntitySet(user, edgeEntitySet)]);
        (AuditState(created.configurations, created.effects + [GrantedAll(AuditAclKeys(entitySet.id, propertyTypeIds), SetOf(owners))]), Success(()))
  }

  /** With no USER among the owners nothing is configured, created or granted. */
  lemma NoUserOwnerNoChange(s: AuditState, update: ConfigUpdate, propertyTypeIds: seq<Uuid>, aclKey: AclKey,
                            entitySet: EntitySet, edgeEntitySet: EntitySet, owners: seq<Principal>)
    requires forall i :: 0 <= i < |owners| ==> owners[i].kind != USER
    ensures CreateAuditEntitySetStep(s, update, propertyTypeIds, aclKey, entitySet, edgeEntitySet, owners) == (s, Success(()))
  {
  }

  /**
   * With a USER owner, the configuration and both entity sets are created
   * exactly when no configuration lists the root id as an audit or edge set,
   * and in every case the owners get every permission on the new set and its
   * property types.
   */
  lemma CreatesOnlyWhenUnlisted(s: AuditState, update: ConfigUpdate, propertyTypeIds: seq<Uuid>, aclKey: AclKey,
                                entitySet: EntitySet, edgeEntitySet: EntitySet, owners: seq<Principal>)
    requires FirstUser(owners).Some? && aclKey != []
    ensures var (t, r) := CreateAuditEntitySetStep(s, update, propertyTypeIds, aclKey, entitySet, edgeEntitySet, owners);
      var grant := GrantedAll(AuditAclKeys(entitySet.id, propertyTypeIds), SetOf(owners));
      var user := FirstUser(owners).value;
      && r == Success(())
      && (IsAnAuditEntitySet(s.configurations, aclKey[0]) ==> t == AuditState(s.configurations, s.effects + [grant]))
      && (!IsAnAuditEntitySet(s.configurations, aclKey[0]) ==>
            t.configurations.Keys == s.configurations.Keys + {aclKey}
            && (forall k :: k in s.configurations && k != aclKey ==> t.configurations[k] == s.configurations[k])
            && t.effects == s.effects + [CreatedEntitySet(user, entitySet), CreatedEntitySet(user, edgeEntitySet), grant])
  {
  }

  class AuditRecordEntitySetsManager {
    /** auditingTypes.isAuditingInitialized(). */
    const auditingInitialized: bool
    /** auditingTypes.propertyTypeIds.values, in their order. */
    const propertyTypeIds: seq<Uuid>
    /** The id of the entity set named EDM_AUDIT_ENTITY_SET_NAME, if there is one. */
    const edmAuditEntitySetLookup: Option<Uuid>
    /** The organization titles map. */
    const organizationTitles: map<Uuid, string>
    const update: ConfigUpdate

    var configurations: Configurations
    var effects: seq<Effect>
    /** The cached id of the EDM audit entity set; None until first looked up. */
    var edmAuditEntitySetId: Option<Uuid>

    constructor (auditingInitialized: bool, propertyTypeIds: seq<Uuid>, edmAuditEntitySetLookup: Option<Uuid>,
                 organizationTitles: map<Uuid, string>, update: ConfigUpdate, configurations: Configurations)
      ensures this.auditingInitialized == auditingInitialized && this.propertyTypeIds == propertyTypeIds
      ensures this.edmAuditEntitySetLookup == edmAuditEntitySetLookup && this.organizationTitles == organizationTitles
      ensures this.update == update && this.configurations == configurations
      ensures effects == [] && edmAuditEntitySetId == None
    {
      this.auditingInitialized := auditingInitialized;
      this.propertyTypeIds := propertyTypeIds;
      this.edmAuditEntitySetLookup := edmAuditEntitySetLookup;
      this.organizationTitles := organizationTitles;
      this.update := update;
      this.configurations := configurations;
      effects := [];
      edmAuditEntitySetId := None;
    }

    function State(): AuditState
      reads this
    {
      AuditState(configurations, effects)
    }

    /** getAuditRecordEntitySets: the configured record sets, or none without a configuration. */
    function AuditRecordEntitySets(aclKey: AclKey): (r: set<Uuid>)
      reads this
      ensures aclKey !in configurations ==> r == {}
      ensures aclKey in configurations ==> forall id :: id in r <==> id in configurations[aclKey].auditRecordEntitySetIds
    {
      if aclKey in configurations then SetOf(configurations[aclKey].auditRecordEntitySetIds) else {}
    }

    /** getAuditEdgeEntitySets: the configured edge sets, or none without a configuration. */
    function AuditEdgeEntitySets(aclKey: AclKey): (r: set<Uuid>)
      reads this
      ensures aclKey !in configurations ==> r == {}
      ensures aclKey in configurations ==> forall id :: id in r <==> id in configurations[aclKey].auditEdgeEntitySetIds
    {
      if aclKey in configurations then SetOf(configurations[aclKey].auditEdgeEntitySetIds) else {}
    }

    /** getEdmAuditEntitySetId: looked up on first use, then served from the cache; a missing set is a null dereference. */
    method GetEdmAuditEntitySetId() returns (r: Result<Uuid>)
      modifies this
      ensures old(edmAuditEntitySetId).Some? ==> r == Success(old(edmAuditEntitySetId).value) && edmAuditEntitySetId == old(edmAuditEntitySetId)
      ensures old(edmAuditEntitySetId).None? && edmAuditEntitySetLookup.Some? ==>
        r == Success(edmAuditEntitySetLookup.value) && edmAuditEntitySetId == edmAuditEntitySetLookup
      ensures old(edmAuditEntitySetId).None? && edmAuditEntitySetLookup.None? ==> r == Failure(NullPointer) && edmAuditEntitySetId == None
      ensures r.Success? ==> edmAuditEntitySetId == Some(r.value)
      ensures State() == old(State())
    {
      if edmAuditEntitySetId.None? {
        if edmAuditEntitySetLookup.None? {
          return Failure(NullPointer);
        }
        edmAuditEntitySetId := Some(edmAuditEntitySetLookup.value);
      }
      r := Success(edmAuditEntitySetId.value);
    }

    /** getActiveAuditEntitySetIds; `order` is the configuration map's iteration order. */
    method GetActiveAuditEntitySetIds(aclKey: AclKey, eventType: AuditEventType, order: seq<AclKey>) returns (r: Result<AuditEntitySetsConfiguration>)
      requires IsOrderOf(order, configurations.Keys)
      modifies this
      ensures State() == old(State())
      ensures aclKey == [] ==> r == Failure(NoSuchElement) && edmAuditEntitySetId == old(edmAuditEntitySetId)
      ensures aclKey != [] && edmAuditEntitySetId.Some? ==>
        r == Success(ActiveAuditEntitySetIds(configurations, order, edmAuditEntitySetId.value, aclKey[0], eventType))
      ensures aclKey != [] && edmAuditEntitySetId.None? ==> r == Failure(NullPointer)
      ensures aclKey != [] ==>
        edmAuditEntitySetId == (if old(edmAuditEntitySetId).Some? then old(edmAuditEntitySetId) else edmAuditEntitySetLookup)
    {
      if aclKey == [] {
        return Failure(NoSuchElement);
      }
      var edmId :- GetEdmAuditEntitySetId();
      r := Success(ActiveAuditEntitySetIds(configurations, order, edmId, aclKey[0], eventType));
    }

    /** getActiveAuditRecordEntitySetId: an EDM event needs no root id. */
    method GetActiveAuditRecordEntitySetId(aclKey: AclKey, eventType: AuditEventType) returns (r: Result<Option<Uuid>>)
      modifies this
      ensures eventType in EDM_AUDIT_TYPES && edmAuditEntitySetId.Some? ==> r == Success(edmAuditEntitySetId)
      ensures eventType !in EDM_AUDIT_TYPES && aclKey == [] ==> r == Failure(NoSuchElement) && edmAuditEntitySetId == old(edmAuditEntitySetId)
      ensures eventType !in EDM_AUDIT_TYPES && aclKey != [] && edmAuditEntitySetId.Some? ==>
        r == Success(ActiveAuditRecordEntitySetId(configurations, edmAuditEntitySetId.value, aclKey[0]))
      ensures edmAuditEntitySetId.None? ==> r.Failure?
      ensures eventType in EDM_AUDIT_TYPES || aclKey != [] ==>
        edmAuditEntitySetId == (if old(edmAuditEntitySetId).Some? then old(edmAuditEntitySetId) else edmAuditEntitySetLookup)
      ensures State() == old(State())
    {
      if eventType in EDM_AUDIT_TYPES {
        var edmId :- GetEdmAuditEntitySetId();
        return Success(Some(edmId));
      }
      if aclKey == [] {
        return Failure(NoSuchElement);
      }
      var edmId :- GetEdmAuditEntitySetId();
      r := Success(ActiveAuditRecordEntitySetId(configurations, edmId, aclKey[0]));
    }

    /** The public createAuditEntitySet; `owners` are the object's OWNER principals in iteration order. */
    method CreateAuditEntitySet(aclKey: AclKey, entitySet: EntitySet, edgeEntitySet: EntitySet, owners: seq<Principal>) returns (r: Result<()>)
      modifies this
      ensures (State(), r) == CreateAuditEntitySetStep(old(State()), update, propertyTypeIds, aclKey, entitySet, edgeEntitySet, owners)
      ensures edmAuditEntitySetId == old(edmAuditEntitySetId)
    {
      var user := FirstUser(owners);
      if user.None? {
        return Success(());
      }
      if aclKey == [] {
        return Failure(NoSuchElement);
      }
      if !IsAnAuditEntitySet(configurations, aclKey[0]) {
        var current := if aclKey in configurations then Some(configurations[aclKey]) else None;
        configurations := configurations[aclKey := update(current, entitySet.id, edgeEntitySet.id)];
        effects := effects + [CreatedEntitySet(user.value, entitySet), CreatedEntitySet(user.value, edgeEntitySet)];
      }
      effects := effects + [GrantedAll(AuditAclKeys(entitySet.id, propertyTypeIds), SetOf(owners))];
      r := Success(());
    }

    /**
     * createAuditEntitySetForEntitySet: nothing for an audit set itself or
     * while auditing is not initialized; `built` are the audit and edge sets
     * the builders return for it.
     */
    method CreateAuditEntitySetForEntitySet(audited: EntitySet, built: (EntitySet, EntitySet), owners: seq<Principal>) returns (r: Result<()>)
      modifies this
      ensures AUDIT in audited.flags || !auditingInitialized ==> State() == old(State()) && r == Success(())
      ensures !(AUDIT in audited.flags || !auditingInitialized) ==>
        (State(), r) == CreateAuditEntitySetStep(old(State()), update, propertyTypeIds, [audited.id], built.0, built.1, owners)
      ensures edmAuditEntitySetId == old(edmAuditEntitySetId)
    {
      if AUDIT in audited.flags {
        return Success(());
      }
      if auditingInitialized {
        r := CreateAuditEntitySet([audited.id], built.0, built.1, owners);
      } else {
        r := Success(());
      }
    }

    /** createAuditEntitySetForOrganization: the organization must have a title. */
    method CreateAuditEntitySetForOrganization(organizationId: Uuid, built: (EntitySet, EntitySet), owners: seq<Principal>) returns (r: Result<()>)
      modifies this
      ensures !auditingInitialized ==> State() == old(State()) && r == Success(())
      ensures auditingInitialized && organizationId !in organizationTitles ==> State() == old(State()) && r == Failure(NullPointer)
      ensures auditingInitialized && organizationId in organizationTitles ==>
        (State(), r) == CreateAuditEntitySetStep(old(State()), update, propertyTypeIds, [organizationId], built.0, built.1, owners)
      ensures edmAuditEntitySetId == old(edmAuditEntitySetId)
    {
      if !auditingInitialized {
        return Success(());
      }
      if organizationId !in organizationTitles {
        return Failure(NullPointer);
      }
      r := CreateAuditEntitySet([organizationId], built.0, built.1, owners);
    }

    /** removeAuditRecordEntitySetConfiguration. */
    method RemoveAuditRecordEntitySetConfiguration(aclKey: AclKey)
      modifies this
      ensures configurations == old(configurations) - {aclKey}
      ensures effects == old(effects) && edmAuditEntitySetId == old(edmAuditEntitySetId)
    {
      configurations := configurations - {aclKey};
    }
  }
}
