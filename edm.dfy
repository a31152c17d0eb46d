/**
 * The entity data model values that the linking, authorization and auditing
 * code passes around.
 */
module Edm {

  /** java.util.UUID, given by its two 64-bit halves. */
  datatype Uuid = Uuid(mostSigBits: int, leastSigBits: int)

  /** The identity of one entity: the entity set it belongs to and its key inside that set. */
  datatype EntityDataKey = EntityDataKey(entitySetId: Uuid, entityKeyId: Uuid)

  /** An EntitySetFlag constant, identified by its name (the full enum is not part of this model). */
  datatype EntitySetFlag = EntitySetFlag(name: string)

  const LINKING: EntitySetFlag := EntitySetFlag("LINKING")
  const AUDIT: EntitySetFlag := EntitySetFlag("AUDIT")

  /** The fields of an entity set that the modelled code reads. */
  datatype EntitySet = EntitySet(
    id: Uuid,
    name: string,
    entityTypeId: Uuid,
    flags: set<EntitySetFlag>,
    linkedEntitySets: seq<Uuid>,   // a Set, in its iteration order
    contacts: set<string>,
    organizationId: Uuid)

  /** A property type, identified by its id. */
  datatype PropertyType = PropertyType(id: Uuid, fqn: string)

  /** The path of ids that names a securable object. */
  type AclKey = seq<Uuid>

  /** A Permission constant, identified by its name. */
  datatype Permission = Permission(name: string)

  const OWNER: Permission := Permission("OWNER")

  /** A PrincipalType constant, identified by its name. */
  datatype PrincipalType = PrincipalType(name: string)

  const USER: PrincipalType := PrincipalType("USER")

  datatype Principal = Principal(kind: PrincipalType, id: string)
}

/** Mutable collections that the source passes to a callee which changes them in place. */
module Stores {

  /** A java.util.Map (or MutableMap) object; `contents` is its current value. */
  class MutableMap<K(==), V> {
    var contents: map<K, V>

    constructor (initial: map<K, V>)
      ensures contents == initial
    {
      contents := initial;
    }
  }
}
