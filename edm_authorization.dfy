/**
 * EdmAuthorizationHelper: which property types of which entity sets a set of
 * principals may use with a given set of permissions.
 */
module EdmAuthorization {
  import opened Wrappers
  import opened Edm
  import opened Seqs
  import opened Stores

  /** An access check: a securable object and the permissions asked for on it. */
  datatype AccessCheck = AccessCheck(aclKey: AclKey, permissions: set<Permission>)

  /** An answer of the authorization manager: for each permission asked for, granted or not. */
  datatype Authorization = Authorization(aclKey: AclKey, permissions: map<Permission, bool>)

  /** The EDM and authorization managers, seen through the answers they give. */
  datatype Managers = Managers(
    propertyTypesAsMap: set<Uuid> -> map<Uuid, PropertyType>,                                        // edm.getPropertyTypesAsMap
    allPropertiesOn: Uuid -> set<Uuid>,                                                               // getAllPropertiesOnEntitySet
    authorize: (map<AclKey, set<Permission>>, set<Principal>) -> map<AclKey, map<Permission, bool>>, // authorize
    setsPermissions: (set<set<AclKey>>, set<Principal>) -> map<set<AclKey>, set<Permission>>,        // authz.getSecurableObjectSetsPermissions
    accessChecks: (set<AccessCheck>, set<Principal>) -> set<Authorization>)                          // authz.accessChecksForPrincipals

  /** The access request for the property types `ptIds` of entity set `entitySetId`. */
  function AccessRequest(entitySetId: Uuid, ptIds: set<Uuid>, required: set<Permission>): (r: map<AclKey, set<Permission>>)
    ensures forall pt :: pt in ptIds ==> [entitySetId, pt] in r && r[[entitySetId, pt]] == required
    ensures forall k :: k in r ==> |k| == 2 && k[0] == entitySetId && k[1] in ptIds
  {
    map pt | pt in ptIds :: [entitySetId, pt] := required
  }

  /** Some permission of the answer is refused: `values().anyMatch(v -> !v)`. */
  predicate Refused(answer: map<Permission, bool>)
  {
    exists p :: p in answer && !answer[p]
  }

  /** The property type ids the refused answers remove: the second id of each refused key. */
  function RemovedIds(auths: map<AclKey, map<Permission, bool>>): set<Uuid>
  {
    set k | k in auths && Refused(auths[k]) && |k| >= 2 :: k[1]
  }

  /** A refused answer on a key too short to have a second id. */
  predicate RemovalFails(auths: map<AclKey, map<Permission, bool>>)
  {
    exists k :: k in auths && Refused(auths[k]) && |k| < 2
  }

  /** The property types that survive the removal of the refused ones. */
  function AuthorizedPropertyTypes(propertyTypes: map<Uuid, PropertyType>, auths: map<AclKey, map<Permission, bool>>): (r: map<Uuid, PropertyType>)
    ensures r.Keys <= propertyTypes.Keys
    ensures forall id :: id in r ==> r[id] == propertyTypes[id]
    ensures forall id :: id in propertyTypes ==> (id in r <==> id !in RemovedIds(auths))
  {
    RemoveIds(propertyTypes, RemovedIds(auths))
  }

  /**
   * When every answer is about a key of the request, a property type survives
   * exactly when its own answer refuses nothing (or there is no answer for it).
   */
  lemma SurvivesIffGranted(entitySetId: Uuid, propertyTypes: map<Uuid, PropertyType>, required: set<Permission>,
                           auths: map<AclKey, map<Permission, bool>>, id: Uuid)
    requires auths.Keys <= AccessRequest(entitySetId, propertyTypes.Keys, required).Keys
    requires id in propertyTypes
    ensures !RemovalFails(auths)
    ensures id in AuthorizedPropertyTypes(propertyTypes, auths) <==>
      ([entitySetId, id] !in auths || !Refused(auths[[entitySetId, id]]))
  {
    var request := AccessRequest(entitySetId, propertyTypes.Keys, required);
    if id in RemovedIds(auths) {
      var k :| k in auths && Refused(auths[k]) && |k| >= 2 && k[1] == id;
      assert k in request;
      assert k == [entitySetId, id];
    }
    if [entitySetId, id] in auths && Refused(auths[[entitySetId, id]]) {
      assert [entitySetId, id][1] == id;
    }
  }

  /**
   * The four-argument getAuthorizedPropertyTypes: asks for `required` on every
   * property type of the entity set and removes, in place, each property the
   * answer refuses; it returns the same map. The answers are visited in
   * `order`; a refused answer on a key without a second id fails the call,
   * after the removals already done.
   */
  method GetAuthorizedPropertyTypes(managers: Managers, entitySetId: Uuid, required: set<Permission>,
                                    propertyTypes: MutableMap<Uuid, PropertyType>, principals: set<Principal>,
                                    order: seq<AclKey>)
    returns (r: Result<map<Uuid, PropertyType>>)
    requires IsOrderOf(order, managers.authorize(AccessRequest(entitySetId, propertyTypes.contents.Keys, required), principals).Keys)
    modifies propertyTypes
    ensures var auths := managers.authorize(AccessRequest(entitySetId, old(propertyTypes.contents).Keys, required), principals);
      && (r.Failure? <==> RemovalFails(auths))
      && (r.Success? ==> propertyTypes.contents == AuthorizedPropertyTypes(old(propertyTypes.contents), auths)
                         && r.value == propertyTypes.contents)
      && (r.Failure? ==> r.error == IndexOutOfBounds
                         && propertyTypes.contents.Keys <= old(propertyTypes.contents).Keys
                         && forall id :: id in propertyTypes.contents ==> propertyTypes.contents[id] == old(propertyTypes.contents)[id])
  {
    var auths := managers.authorize(AccessRequest(entitySetId, propertyTypes.contents.Keys, required), principals);
    var failed := RemoveRefused(auths, propertyTypes, order);
    if failed {
      return Failure(IndexOutOfBounds);
    }
    RemovedAmongAll(auths, order);
    r := Success(propertyTypes.contents);
  }

  /**
   * The loop of getAuthorizedPropertyTypes: visits the answers in `order` and
   * removes the second id of each refused key; a refused key without a
   * second id stops the loop.
   */
  method RemoveRefused(auths: map<AclKey, map<Permission, bool>>, propertyTypes: MutableMap<Uuid, PropertyType>, order: seq<AclKey>)
    returns (failed: bool)
    requires forall k :: k in order ==> k in auths
    modifies propertyTypes
    ensures failed <==> exists j :: 0 <= j < |order| && Refused(auths[order[j]]) && |order[j]| < 2
    ensures !failed ==> propertyTypes.contents == RemoveIds(old(propertyTypes.contents), RemovedAmong(auths, order))
    ensures failed ==> propertyTypes.contents.Keys <= old(propertyTypes.contents).Keys
                       && forall id :: id in propertyTypes.contents ==> propertyTypes.contents[id] == old(propertyTypes.contents)[id]
  {
    ghost var start := propertyTypes.contents;
    var i := 0;
    while i < |order|
      invariant 0 <= i <= |order|
      invariant forall j :: 0 <= j < i ==> !(Refused(auths[order[j]]) && |order[j]| < 2)
      invariant propertyTypes.contents == RemoveIds(start, RemovedAmong(auths, order[..i]))
    {
      var key := order[i];
      assert order[..i + 1] == order[..i] + [key];
      RemovedAmongStep(auths, order[..i], key);
      if Refused(auths[key]) {
        if |key| < 2 {
          return true;
        }
        RemoveIdsStep(start, RemovedAmong(auths, order[..i]), key[1]);
        propertyTypes.contents := propertyTypes.contents - {key[1]};
      }
      i := i + 1;
    }
    assert order[..i] == order;
    failed := false;
  }

  /** The entries of m whose keys are not in ids. */
  function RemoveIds(m: map<Uuid, PropertyType>, ids: set<Uuid>): (r: map<Uuid, PropertyType>)
    ensures r.Keys <= m.Keys
    ensures forall id :: id in r ==> r[id] == m[id]
  {
    map id | id in m && id !in ids :: m[id]
  }

  lemma RemoveIdsStep(m: map<Uuid, PropertyType>, ids: set<Uuid>, id: Uuid)
    ensures RemoveIds(m, ids + {id}) == RemoveIds(m, ids) - {id}
  {
  }

  /** The ids removed by the answers listed in `keys`. */
  function RemovedAmong(auths: map<AclKey, map<Permission, bool>>, keys: seq<AclKey>): set<Uuid>
  {
    set k | k in keys && k in auths && Refused(auths[k]) && |k| >= 2 :: k[1]
  }

  lemma RemovedAmongStep(auths: map<AclKey, map<Permission, bool>>, keys: seq<AclKey>, key: AclKey)
    requires key in auths
    ensures Refused(auths[key]) && |key| >= 2 ==> RemovedAmong(auths, keys + [key]) == RemovedAmong(auths, keys) + {key[1]}
    ensures !(Refused(auths[key]) && |key| >= 2) ==> RemovedAmong(auths, keys + [key]) == RemovedAmong(auths, keys)
  {
    assert forall k :: k in keys + [key] <==> k in keys || k == key;
  }

  /** Listing every answer removes exactly the refused ids, and no short refused key lies among them. */
  lemma RemovedAmongAll(auths: map<AclKey, map<Permission, bool>>, order: seq<AclKey>)
    requires IsOrderOf(order, auths.Keys)
    ensures RemovedAmong(auths, order) == RemovedIds(auths)
  {
  }

  /**
   * The private set variant of getAuthorizedPropertyTypes: for each entity set,
   * the four-argument call on a fresh map of the selected property types.
   */
  function AuthorizedPropertyTypesOfSets(managers: Managers, entitySetIds: set<Uuid>, selected: set<Uuid>,
                                         required: set<Permission>, principals: set<Principal>): (r: Result<map<Uuid, map<Uuid, PropertyType>>>)
    ensures r.Failure? <==> exists es :: es in entitySetIds && RemovalFails(AnswersFor(managers, es, selected, required, principals))
    ensures r.Success? ==> r.value.Keys == entitySetIds
    ensures r.Success? ==> forall es :: es in r.value ==>
      r.value[es] == AuthorizedPropertyTypes(managers.propertyTypesAsMap(selected), AnswersFor(managers, es, selected, required, principals))
  {
    if exists es :: es in entitySetIds && RemovalFails(AnswersFor(managers, es, selected, required, principals)) then
      Failure(IndexOutOfBounds)
    else
      Success(map es | es in entitySetIds ::
        AuthorizedPropertyTypes(managers.propertyTypesAsMap(selected), AnswersFor(managers, es, selected, required, principals)))
  }

  /** The authorization answers for the selected property types of one entity set. */
  function AnswersFor(managers: Managers, es: Uuid, selected: set<Uuid>, required: set<Permission>, principals: set<Principal>): map<AclKey, map<Permission, bool>>
  {
    managers.authorize(AccessRequest(es, managers.propertyTypesAsMap(selected).Keys, required), principals)
  }

  /** For each selected property type, the keys of that property on every entity set. */
  function AclKeySets(entitySetIds: set<Uuid>, ptIds: set<Uuid>): (r: map<Uuid, set<AclKey>>)
    ensures r.Keys == ptIds
    ensures forall pt :: pt in r ==> r[pt] == AclKeysOf(entitySetIds, pt)
  {
    map pt | pt in ptIds :: AclKeysOf(entitySetIds, pt)
  }

  function AclKeysOf(entitySetIds: set<Uuid>, pt: Uuid): (r: set<AclKey>)
    ensures forall k :: k in r <==> |k| == 2 && k[0] in entitySetIds && k[1] == pt
  {
    var r := set es | es in entitySetIds :: [es, pt];
    assert forall k :: |k| == 2 && k[0] in entitySetIds && k[1] == pt ==> k == [k[0], pt];
    r
  }

  /**
   * The three-argument getPermissionsOnLinkingEntitySetProperties: for each
   * selected property type, the permissions the principals hold on it in all
   * the entity sets together. A property type without an answer becomes a
   * null value, which the collector refuses; two ids naming equal property
   * types give the collector one key twice.
   */
  function PermissionsOnLinkingProperties(managers: Managers, entitySetIds: set<Uuid>, selected: set<Uuid>,
                                          principals: set<Principal>): (r: Result<map<PropertyType, set<Permission>>>)
    ensures var pts := managers.propertyTypesAsMap(selected);
      var perms := managers.setsPermissions(AclKeySets(entitySetIds, pts.Keys).Values, principals);
      && (r.Failure? <==>
            (exists pt :: pt in pts.Values && (pt.id !in pts || AclKeysOf(entitySetIds, pt.id) !in perms))
            || (exists i, j :: i in pts && j in pts && i != j && pts[i] == pts[j]))
      && (r == Failure(DuplicateKey) ==> exists i, j :: i in pts && j in pts && i != j && pts[i] == pts[j])
      && (r.Success? ==> r.value.Keys == pts.Values)
      && (r.Success? ==> forall pt :: pt in r.value ==> r.value[pt] == perms[AclKeysOf(entitySetIds, pt.id)])
  {
    var pts := managers.propertyTypesAsMap(selected);
    var aclKeySets := AclKeySets(entitySetIds, pts.Keys);
    var perms := managers.setsPermissions(aclKeySets.Values, principals);
    if exists pt :: pt in pts.Values && (pt.id !in pts || AclKeysOf(entitySetIds, pt.id) !in perms) then
      Failure(NullPointer)
    else if exists i, j :: i in pts && j in pts && i != j && pts[i] == pts[j] then
      Failure(DuplicateKey)
    else
      Success(map pt | pt in pts.Values :: perms[AclKeysOf(entitySetIds, pt.id)])
  }

  /** The two-argument variant: the selected property types are those of the first entity set. */
  function PermissionsOnLinkingEntitySetProperties(managers: Managers, entitySetIds: seq<Uuid>, principals: set<Principal>): Result<map<PropertyType, set<Permission>>>
  {
    if entitySetIds == [] then Failure(NoSuchElement)
    else PermissionsOnLinkingProperties(managers, SetOf(entitySetIds), managers.allPropertiesOn(entitySetIds[0]), principals)
  }

  /**
   * The properties whose permissions contain all the required ones, by id;
   * two property types with one id are the collector's duplicate key.
   */
  function AuthorizedById(permissions: map<PropertyType, set<Permission>>, required: set<Permission>): (r: Result<map<Uuid, PropertyType>>)
    ensures r.Success? ==> forall id :: id in r.value ==> r.value[id] in permissions && r.value[id].id == id && required <= permissions[r.value[id]]
    ensures r.Success? ==> forall pt :: pt in permissions && required <= permissions[pt] ==> pt.id in r.value && r.value[pt.id] == pt
    ensures r.Failure? <==> exists p, q :: p in permissions && q in permissions && required <= permissions[p] && required <= permissions[q] && p != q && p.id == q.id
  {
    var kept := set pt | pt in permissions && required <= permissions[pt];
    if exists p, q :: p in kept && q in kept && p != q && p.id == q.id then Failure(DuplicateKey)
    else Success(map pt | pt in kept :: pt.id := pt)
  }

  /**
   * The properties authorized on linked entity sets taken together: the
   * selected ones whose permissions on all the sets contain the required ones.
   */
  function AuthorizedOnLinkedSets(managers: Managers, linked: seq<Uuid>, selected: set<Uuid>, required: set<Permission>,
                                  principals: set<Principal>): Result<map<Uuid, PropertyType>>
  {
    var pp :- PermissionsOnLinkingProperties(managers, SetOf(linked), selected, principals);
    AuthorizedById(pp, required)
  }

  /** The same property map for every linked entity set. */
  function SameForAll(linked: seq<Uuid>, authorized: map<Uuid, PropertyType>): (r: map<Uuid, map<Uuid, PropertyType>>)
    ensures r.Keys == SetOf(linked)
    ensures forall es :: es in r ==> r[es] == authorized
  {
    map es | es in SetOf(linked) :: authorized
  }

  /** getAuthorizedPropertyTypesOfLinkingEntitySet: nothing for a linking set without linked sets, else those of its first set's properties authorized on all of them. */
  function AuthorizedPropertyTypesOfLinkingEntitySet(managers: Managers, linkingEntitySet: EntitySet, required: set<Permission>,
                                                    principals: set<Principal>): (r: Result<map<Uuid, PropertyType>>)
    ensures linkingEntitySet.linkedEntitySets == [] ==> r == Success(map[])
    ensures var linked := linkingEntitySet.linkedEntitySets;
      linked != [] ==> r == AuthorizedOnLinkedSets(managers, linked, managers.allPropertiesOn(linked[0]), required, principals)
  {
    var linked := linkingEntitySet.linkedEntitySets;
    if linked == [] then Success(map[])
    else AuthorizedOnLinkedSets(managers, linked, managers.allPropertiesOn(linked[0]), required, principals)
  }

  /**
   * getAuthorizedPropertiesByNormalEntitySets: every linked entity set gets
   * the same map, the properties authorized on the linking set.
   */
  function AuthorizedPropertiesByNormalEntitySets(managers: Managers, linkingEntitySet: EntitySet, required: set<Permission>,
                                                  principals: set<Principal>): (r: Result<map<Uuid, map<Uuid, PropertyType>>>)
    ensures linkingEntitySet.linkedEntitySets == [] ==> r == Success(map[])
    ensures var linking := AuthorizedPropertyTypesOfLinkingEntitySet(managers, linkingEntitySet, required, principals);
      linkingEntitySet.linkedEntitySets != [] ==>
      (r.Success? <==> linking.Success?)
      && (r.Success? ==> r.value.Keys == SetOf(linkingEntitySet.linkedEntitySets)
                         && forall es :: es in r.value ==> r.value[es] == linking.value)
  {
    var linked := linkingEntitySet.linkedEntitySets;
    if linked == [] then Success(map[])
    else
      var authorized :- AuthorizedPropertyTypesOfLinkingEntitySet(managers, linkingEntitySet, required, principals);
      Success(SameForAll(linked, authorized))
  }

  /**
   * getAuthorizedPropertyTypesByNormalEntitySet: as above, on the selected
   * property types rather than all of the first set's.
   */
  function AuthorizedPropertyTypesByNormalEntitySet(managers: Managers, linkingEntitySet: EntitySet, selected: set<Uuid>,
                                                    required: set<Permission>, principals: set<Principal>): (r: Result<map<Uuid, map<Uuid, PropertyType>>>)
    ensures linkingEntitySet.linkedEntitySets == [] ==> r == Success(map[])
    ensures var linked := linkingEntitySet.linkedEntitySets;
      var authorized := AuthorizedOnLinkedSets(managers, linked, selected, required, principals);
      linked != [] ==>
      (r.Success? <==> authorized.Success?)
      && (r.Success? ==> r.value.Keys == SetOf(linked) && forall es :: es in r.value ==> r.value[es] == authorized.value)
  {
    var linked := linkingEntitySet.linkedEntitySets;
    if linked == [] then Success(map[])
    else
      var authorized :- AuthorizedOnLinkedSets(managers, linked, selected, required, principals);
      Success(SameForAll(linked, authorized))
  }

  /**
   * getAuthorizedPropertiesOnEntitySets: nothing for no entity sets; otherwise
   * every set is checked against the property types of the first one.
   */
  function AuthorizedPropertiesOnEntitySets(managers: Managers, entitySetIds: seq<Uuid>, required: set<Permission>,
                                            principals: set<Principal>): (r: Result<map<Uuid, map<Uuid, PropertyType>>>)
    ensures entitySetIds == [] ==> r == Success(map[])
    ensures entitySetIds != [] && r.Success? ==> r.value.Keys == SetOf(entitySetIds)
    ensures entitySetIds != [] ==>
      r == AuthorizedPropertyTypesOfSets(managers, SetOf(entitySetIds), managers.allPropertiesOn(entitySetIds[0]), required, principals)
  {
    if entitySetIds == [] then Success(map[])
    else AuthorizedPropertyTypesOfSets(managers, SetOf(entitySetIds), managers.allPropertiesOn(entitySetIds[0]), required, principals)
  }

  /** Every permission of the answer is granted: `values().allMatch(val -> val)`. */
  predicate Granted(answer: map<Permission, bool>)
  {
    forall p :: p in answer ==> answer[p]
  }

  /** The access checks for the selected property types of one entity set. */
  function AccessChecksFor(entitySetId: Uuid, selected: set<Uuid>, required: set<Permission>): (r: set<AccessCheck>)
    ensures forall pt :: pt in selected ==> AccessCheck([entitySetId, pt], required) in r
    ensures forall c :: c in r ==> exists pt :: pt in selected && c == AccessCheck([entitySetId, pt], required)
  {
    set pt | pt in selected :: AccessCheck([entitySetId, pt], required)
  }

  /**
   * The private getAuthorizedPropertiesOnEntitySet: the second id of every
   * answer whose permissions are all granted.
   */
  function AuthorizedPropertiesOnEntitySet(managers: Managers, entitySetId: Uuid, selected: set<Uuid>,
                                           required: set<Permission>, principals: set<Principal>): (r: Result<set<Uuid>>)
    ensures var answers := managers.accessChecks(AccessChecksFor(entitySetId, selected, required), principals);
      r.Success? ==> forall id :: id in r.value <==> exists a :: a in answers && Granted(a.permissions) && |a.aclKey| >= 2 && a.aclKey[1] == id
    ensures var answers := managers.accessChecks(AccessChecksFor(entitySetId, selected, required), principals);
      r.Failure? <==> exists a :: a in answers && Granted(a.permissions) && |a.aclKey| < 2
  {
    var answers := managers.accessChecks(AccessChecksFor(entitySetId, selected, required), principals);
    if exists a :: a in answers && Granted(a.permissions) && |a.aclKey| < 2 then Failure(IndexOutOfBounds)
    else Success(set a | a in answers && Granted(a.permissions) :: a.aclKey[1])
  }

  /**
   * aclKeysForAccessCheck: one key per entry of the multimap, each asking for
   * the required permissions.
   */
  function AclKeysForAccessCheck(rawAclKeys: set<(Uuid, Uuid)>, required: set<Permission>): (r: map<AclKey, set<Permission>>)
    ensures forall e :: e in rawAclKeys ==> [e.0, e.1] in r
    ensures forall k :: k in r ==> |k| == 2 && (k[0], k[1]) in rawAclKeys && r[k] == required
  {
    map e | e in rawAclKeys :: [e.0, e.1] := required
  }
}
