/**
 * Auth0SyncService: keeps the users, their enrollments and the cache of the
 * principals each user acts as in step with the identity provider.
 */
module Auth0Sync {
  import opened Wrappers
  import opened Edm
  import opened Seqs

  /** A principal with its securable-object key and title. */
  datatype SecurablePrincipal = SecurablePrincipal(aclKey: AclKey, principal: Principal, title: Option<string>)

  /** The fields of an identity-provider user that the service reads. */
  datatype User = User(id: string, email: Option<string>, nickname: Option<string>)

  /** The principal a user acts as. */
  function UserPrincipal(user: User): Principal
  {
    Principal(USER, user.id)
  }

  /** The role trees: for each principal's key, the keys of the roles it holds directly. */
  type PrincipalTrees = map<AclKey, set<AclKey>>

  /** getLayer: the roles held directly by any of `keys`. */
  function Layer(trees: PrincipalTrees, keys: set<AclKey>): set<AclKey>
  {
    set j, k | j in keys && j in trees && k in trees[j] :: k
  }

  /** Every key that some tree lists as a role. */
  function Universe(trees: PrincipalTrees): set<AclKey>
  {
    set j, k | j in trees && k in trees[j] :: k
  }

  /** The keys reachable from `start` in between one and m steps through the trees. */
  ghost function Within(trees: PrincipalTrees, start: AclKey, m: nat): set<AclKey>
  {
    if m == 0 then {} else Layer(trees, {start}) + Layer(trees, Within(trees, start, m - 1))
  }

  /** The keys reachable from `start` in one or more steps. */
  ghost predicate Reachable(trees: PrincipalTrees, start: AclKey, k: AclKey)
  {
    exists m: nat :: k in Within(trees, start, m)
  }

  lemma LayerUnion(trees: PrincipalTrees, a: set<AclKey>, b: set<AclKey>)
    ensures Layer(trees, a + b) == Layer(trees, a) + Layer(trees, b)
  {
  }

  lemma LayerMonotone(trees: PrincipalTrees, a: set<AclKey>, b: set<AclKey>)
    requires a <= b
    ensures Layer(trees, a) <= Layer(trees, b)
  {
  }

  lemma {:induction false} WithinMonotone(trees: PrincipalTrees, start: AclKey, m: nat)
    ensures Within(trees, start, m) <= Within(trees, start, m + 1)
  {
    if m > 0 {
      WithinMonotone(trees, start, m - 1);
      LayerMonotone(trees, Within(trees, start, m - 1), Within(trees, start, m));
    }
  }

  /** One more step adds exactly what the keys found in the last step hold. */
  lemma WithinStep(trees: PrincipalTrees, start: AclKey, n: nat)
    requires n >= 1
    ensures Within(trees, start, n + 1) == Within(trees, start, n) + Layer(trees, Within(trees, start, n) - Within(trees, start, n - 1))
  {
    var prev := Within(trees, start, n - 1);
    var cur := Within(trees, start, n);
    WithinMonotone(trees, start, n - 1);
    assert cur == prev + (cur - prev);
    LayerUnion(trees, prev, cur - prev);
  }

  /** Once a step adds nothing, no later step adds anything either. */
  lemma {:induction false} FixpointStays(trees: PrincipalTrees, start: AclKey, n: nat, m: nat)
    requires n >= 1 && Within(trees, start, n) == Within(trees, start, n - 1)
    requires n <= m
    ensures Within(trees, start, m) == Within(trees, start, n)
    decreases m - n
  {
    if m > n {
      FixpointStays(trees, start, n, m - 1);
      assert Within(trees, start, n + 1) == Within(trees, start, n);
    }
  }

  /** A step that adds nothing reaches the fixpoint. */
  lemma EmptyStepIsFixpoint(trees: PrincipalTrees, start: AclKey, n: nat)
    requires n >= 1 && Within(trees, start, n) - Within(trees, start, n - 1) == {}
    ensures Within(trees, start, n) == Within(trees, start, n - 1)
  {
    WithinMonotone(trees, start, n - 1);
    var prev, cur := Within(trees, start, n - 1), Within(trees, start, n);
    forall x | x in cur ensures x in prev {
      assert x !in cur - prev;
    }
  }

  /** At a fixpoint every key reachable in any number of steps has been found. */
  lemma FixpointReach(trees: PrincipalTrees, start: AclKey, n: nat)
    requires n >= 1 && Within(trees, start, n) == Within(trees, start, n - 1)
    ensures forall k :: k in Within(trees, start, n) <==> Reachable(trees, start, k)
  {
    forall k | Reachable(trees, start, k) ensures k in Within(trees, start, n) {
      var m: nat :| k in Within(trees, start, m);
      if m <= n {
        WithinMonotoneFrom(trees, start, m, n);
      } else {
        FixpointStays(trees, start, n, m);
      }
    }
  }

  /** The step of getAllPrincipals' loop: the new layer is what the last layer holds minus what is known. */
  lemma LayerStep(trees: PrincipalTrees, start: AclKey, n: nat)
    requires n >= 1
    ensures var cur := Within(trees, start, n);
      var added := Layer(trees, cur - Within(trees, start, n - 1)) - cur;
      && Within(trees, start, n + 1) == cur + added
      && Within(trees, start, n + 1) - cur == added
      && added <= Universe(trees)
  {
    WithinStep(trees, start, n);
  }

  lemma {:induction false} WithinMonotoneFrom(trees: PrincipalTrees, start: AclKey, a: nat, b: nat)
    requires a <= b
    ensures Within(trees, start, a) <= Within(trees, start, b)
    decreases b - a
  {
    if a < b {
      WithinMonotoneFrom(trees, start, a, b - 1);
      WithinMonotone(trees, start, b - 1);
    }
  }

  lemma WithinInUniverse(trees: PrincipalTrees, start: AclKey, m: nat)
    ensures Within(trees, start, m) <= Universe(trees)
  {
  }

  /** A set strictly grown inside a finite universe leaves less of it outside. */
  lemma GrowShrinksRest(u: set<AclKey>, roles: set<AclKey>, added: set<AclKey>)
    requires roles <= u && added <= u && added != {} && added !! roles
    ensures |u - (roles + added)| < |u - roles|
  {
    var x :| x in added;
    assert u - (roles + added) <= (u - roles) - {x};
    assert |(u - roles) - {x}| == |u - roles| - 1;
  }

  /** The principals stored under the given keys: `principals.getAll(keys).values`. */
  function PrincipalsAt(principals: map<AclKey, SecurablePrincipal>, keys: set<AclKey>): (r: set<SecurablePrincipal>)
    ensures forall p :: p in r <==> exists k :: k in keys && k in principals && principals[k] == p
  {
    set k | k in keys && k in principals :: principals[k]
  }

  /** The principals a user acts as: its own and those of every role it reaches. */
  function CurrentPrincipals(sp: SecurablePrincipal, roles: set<SecurablePrincipal>): (r: set<Principal>)
    ensures forall p :: p in r <==> p == sp.principal || exists s :: s in roles && s.principal == p
  {
    {sp.principal} + set s | s in roles :: s.principal
  }

  /**
   * The characters Kotlin's isWhitespace accepts on the JVM: Java's
   * isWhitespace (tab to carriage return, the four information separators
   * U+001C to U+001F) together with isSpaceChar (the Unicode space, line and
   * paragraph separators, the non-breaking ones included).
   */
  const WHITESPACE: set<char> := {
    '\t', '\n', '\U{000B}', '\U{000C}', '\r', '\U{001C}', '\U{001D}', '\U{001E}', '\U{001F}',
    ' ', '\U{00A0}', '\U{1680}', '\U{2000}', '\U{2001}', '\U{2002}', '\U{2003}', '\U{2004}', '\U{2005}',
    '\U{2006}', '\U{2007}', '\U{2008}', '\U{2009}', '\U{200A}', '\U{2028}', '\U{2029}', '\U{202F}',
    '\U{205F}', '\U{3000}'}

  /** Kotlin's isNotBlank: some character is not white space. */
  predicate IsNotBlank(s: string)
  {
    exists i :: 0 <= i < |s| && s[i] !in WHITESPACE
  }

  /** The organization service's answers. */
  datatype OrganizationQueries = OrganizationQueries(
    withConnectionsAndDomains: (Principal, set<string>, string) -> seq<Uuid>,  // getOrganizationsWithoutUserAndWithConnectionsAndDomains
    withConnection: (set<string>, Principal) -> seq<Uuid>)                    // getOrganizationsWithoutUserAndWithConnection

  /** The organizations processOrganizationEnrollments adds the user to, in order: those for the email, then the new ones for the connections. */
  function MissingOrganizations(queries: OrganizationQueries, principal: Principal, connections: set<string>, emailDomain: string): seq<Uuid>
  {
    var forDomains := if IsNotBlank(emailDomain) then queries.withConnectionsAndDomains(principal, connections, emailDomain) else [];
    OrderedUnion(forDomains, queries.withConnection(connections, principal))
  }

  /** With a blank email the domain query is not consulted: any answer it would give changes nothing. */
  lemma BlankEmailSkipsDomainQuery(queries: OrganizationQueries, other: (Principal, set<string>, string) -> seq<Uuid>,
                                   principal: Principal, connections: set<string>, emailDomain: string)
    requires !IsNotBlank(emailDomain)
    ensures MissingOrganizations(queries, principal, connections, emailDomain)
      == MissingOrganizations(queries.(withConnectionsAndDomains := other), principal, connections, emailDomain)
  {
  }

  /** The user joins every organization of either answer, and each only once when the answers are sets. */
  lemma MissingOrganizationsSpec(queries: OrganizationQueries, principal: Principal, connections: set<string>, emailDomain: string)
    requires Distinct(queries.withConnection(connections, principal))
    requires Distinct(queries.withConnectionsAndDomains(principal, connections, emailDomain))
    ensures var orgs := MissingOrganizations(queries, principal, connections, emailDomain);
      && Distinct(orgs)
      && forall o :: o in orgs <==>
           (IsNotBlank(emailDomain) && o in queries.withConnectionsAndDomains(principal, connections, emailDomain))
           || o in queries.withConnection(connections, principal)
  {
  }

  /** The title of a new securable principal: the nickname when it is present and not empty, else the email. */
  function Title(user: User): (r: Option<string>)
    ensures user.nickname.Some? && user.nickname.value != "" ==> r == user.nickname
    ensures !(user.nickname.Some? && user.nickname.value != "") ==> r == user.email
  {
    if user.nickname.Some? && user.nickname.value != "" then user.nickname else user.email
  }

  /** What the service asks other services to do. */
  datatype SyncEffect =
    | CreatedPrincipal(principal: Principal, securable: SecurablePrincipal)   // spm.createSecurablePrincipalIfNotExists
    | AddedToGlobal(principal: Principal)                                      // addMembers on the global organization
    | AddedMember(organizationId: Uuid, principal: Principal)                 // orgService.addMembers
    | MarkedUser(userId: string)                                               // the markUser update

  /** One AddedMember per organization, in order. */
  function MemberEffects(orgs: seq<Uuid>, principal: Principal): seq<SyncEffect>
  {
    if orgs == [] then [] else [AddedMember(orgs[0], principal)] + MemberEffects(orgs[1..], principal)
  }

  lemma {:induction false} MemberEffectsSpec(orgs: seq<Uuid>, principal: Principal)
    ensures |MemberEffects(orgs, principal)| == |orgs|
    ensures forall i :: 0 <= i < |orgs| ==> MemberEffects(orgs, principal)[i] == AddedMember(orgs[i], principal)
  {
    if orgs != [] {
      MemberEffectsSpec(orgs[1..], principal);
    }
  }

  // ------------------------------------------------------------------ the principal index

  /** The principal index holds each principal under one key only. */
  predicate Indexed(principals: map<AclKey, SecurablePrincipal>)
  {
    forall k1, k2 :: k1 in principals && k2 in principals && principals[k1].principal == principals[k2].principal ==> k1 == k2
  }

  /** spm.principalExists: some stored securable principal is this principal. */
  predicate PrincipalExists(principals: map<AclKey, SecurablePrincipal>, p: Principal)
  {
    exists k :: k in principals && principals[k].principal == p
  }

  /**
   * getPrincipal(principalId): the PRINCIPAL_INDEX query of the principals
   * map for the user principal of the id.
   */
  function PrincipalOf(principals: map<AclKey, SecurablePrincipal>, principalId: string): (r: Option<SecurablePrincipal>)
    requires Indexed(principals)
    ensures r.None? <==> !PrincipalExists(principals, Principal(USER, principalId))
    ensures r.Some? ==> r.value.principal == Principal(USER, principalId) && exists k :: k in principals && principals[k] == r.value
  {
    if PrincipalExists(principals, Principal(USER, principalId)) then
      var k :| k in principals && principals[k].principal == Principal(USER, principalId);
      Some(principals[k])
    else None
  }

  /** The securable principal createSecurablePrincipalIfNotExists stores for a new user. */
  function NewPrincipal(user: User, key: AclKey): SecurablePrincipal
  {
    SecurablePrincipal(key, UserPrincipal(user), Title(user))
  }

  /**
   * Storing a user's new principal under a fresh key keeps the index and is
   * what getPrincipal of that user then finds.
   */
  lemma StoreNewPrincipal(principals: map<AclKey, SecurablePrincipal>, user: User, key: AclKey)
    requires Indexed(principals) && key !in principals && !PrincipalExists(principals, UserPrincipal(user))
    ensures Indexed(principals[key := NewPrincipal(user, key)])
    ensures PrincipalOf(principals[key := NewPrincipal(user, key)], user.id) == Some(NewPrincipal(user, key))
  {
    var store := principals[key := NewPrincipal(user, key)];
    assert store[key].principal == UserPrincipal(user);
  }

  /**
   * What syncAuthenticationCache leaves in the two caches: nothing changes
   * for an unknown principal; otherwise the principal is cached, and so is
   * the set of principals it acts as, its own and those of every reachable role.
   */
  ghost predicate CacheRefreshed(trees: PrincipalTrees, principals: map<AclKey, SecurablePrincipal>, principalId: string,
                                 principalCache: map<string, SecurablePrincipal>, rolesCache: map<string, set<Principal>>,
                                 principalCache': map<string, SecurablePrincipal>, rolesCache': map<string, set<Principal>>)
    requires Indexed(principals)
  {
    match PrincipalOf(principals, principalId)
    case None => principalCache' == principalCache && rolesCache' == rolesCache
    case Some(sp) =>
      && principalCache' == principalCache[principalId := sp]
      && principalId in rolesCache'
      && rolesCache' == rolesCache[principalId := rolesCache'[principalId]]
      && forall p :: p in rolesCache'[principalId] <==>
           p == sp.principal || exists k :: Reachable(trees, sp.aclKey, k) && k in principals && principals[k].principal == p
  }

  class Auth0SyncService {
    const principalTrees: PrincipalTrees
    /** getConnections(user).values. */
    const connectionsOf: User -> set<string>
    const queries: OrganizationQueries

    var users: map<string, User>
    /** The principals map: securable principals by key, shared with spm. */
    var principals: map<AclKey, SecurablePrincipal>
    var authnPrincipalCache: map<string, SecurablePrincipal>
    var authnRolesCache: map<string, set<Principal>>
    var effects: seq<SyncEffect>

    ghost predicate Valid()
      reads this
    {
      Indexed(principals)
    }

    constructor (principalTrees: PrincipalTrees, principals: map<AclKey, SecurablePrincipal>,
                 connectionsOf: User -> set<string>, queries: OrganizationQueries)
      requires Indexed(principals)
      ensures Valid()
      ensures this.principalTrees == principalTrees && this.principals == principals
      ensures this.connectionsOf == connectionsOf && this.queries == queries
      ensures users == map[] && authnPrincipalCache == map[] && authnRolesCache == map[] && effects == []
    {
      this.principalTrees := principalTrees;
      this.principals := principals;
      this.connectionsOf := connectionsOf;
      this.queries := queries;
      users := map[];
      authnPrincipalCache := map[];
      authnRolesCache := map[];
      effects := [];
    }

    /**
     * The loop of getAllPrincipals: grows `roles` layer by layer, each new
     * layer being what the last one holds minus what is already known, until
     * a layer adds nothing. The result is every key reachable from `start`.
     */
    method ResolveRoles(start: AclKey) returns (roles: set<AclKey>)
      ensures forall k :: k in roles <==> Reachable(principalTrees, start, k)
    {
      var u := Universe(principalTrees);
      ghost var n: nat := 1;
      assert Layer(principalTrees, {}) == {};
      assert Within(principalTrees, start, 1) == Layer(principalTrees, {start});
      roles := Layer(principalTrees, {start});
      var nextLayer := roles;
      while nextLayer != {}
        invariant n >= 1
        invariant roles == Within(principalTrees, start, n)
        invariant nextLayer == roles - Within(principalTrees, start, n - 1)
        invariant roles <= u
        decreases |u - roles| + (if nextLayer == {} then 0 else 1)
      {
        LayerStep(principalTrees, start, n);
        var added := Layer(principalTrees, nextLayer) - roles;
        if added != {} {
          GrowShrinksRest(u, roles, added);
        }
        nextLayer := added;
        roles := roles + added;
        n := n + 1;
      }
      EmptyStepIsFixpoint(principalTrees, start, n);
      FixpointReach(principalTrees, start, n);
    }

    /** getAllPrincipals: the securable principals of every role reachable from the principal. */
    method GetAllPrincipals(sp: SecurablePrincipal) returns (r: set<SecurablePrincipal>)
      ensures forall p :: p in r <==> exists k :: Reachable(principalTrees, sp.aclKey, k) && k in principals && principals[k] == p
    {
      var roles := ResolveRoles(sp.aclKey);
      r := PrincipalsAt(principals, roles);
    }

    /**
     * syncAuthenticationCache: nothing for an unknown principal; otherwise the
     * principal is cached with every principal it acts as.
     */
    method SyncAuthenticationCache(principalId: string)
      requires Valid()
      modifies this
      ensures Valid()
      ensures CacheRefreshed(principalTrees, principals, principalId, old(authnPrincipalCache), old(authnRolesCache),
                             authnPrincipalCache, authnRolesCache)
      ensures users == old(users) && principals == old(principals) && effects == old(effects)
    {
      var found := PrincipalOf(principals, principalId);
      if found.None? {
        return;
      }
      var sp := found.value;
      authnPrincipalCache := authnPrincipalCache[principalId := sp];
      var securablePrincipals := GetAllPrincipals(sp);
      authnRolesCache := authnRolesCache[principalId := CurrentPrincipals(sp, securablePrincipals)];
    }

    /**
     * ensureSecurablePrincipalExists: when the user's principal is not
     * stored, a principal titled by Title is created under the key the
     * principals manager reserves for it (`freshKey`).
     */
    method EnsureSecurablePrincipalExists(user: User, freshKey: AclKey) returns (principal: Principal)
      requires Valid() && freshKey !in principals
      modifies this
      ensures Valid()
      ensures principal == UserPrincipal(user)
      ensures PrincipalExists(old(principals), principal) ==> principals == old(principals) && effects == old(effects)
      ensures !PrincipalExists(old(principals), principal) ==>
        principals == old(principals)[freshKey := NewPrincipal(user, freshKey)]
        && effects == old(effects) + [CreatedPrincipal(principal, SecurablePrincipal([], principal, Title(user)))]
      ensures PrincipalOf(principals, user.id).Some?
      ensures users == old(users) && authnPrincipalCache == old(authnPrincipalCache) && authnRolesCache == old(authnRolesCache)
    {
      principal := UserPrincipal(user);
      if !PrincipalExists(principals, principal) {
        effects := effects + [CreatedPrincipal(principal, SecurablePrincipal([], principal, Title(user)))];
        StoreNewPrincipal(principals, user, freshKey);
        principals := principals[freshKey := NewPrincipal(user, freshKey)];
      }
    }

    /** updateUser: the principal exists afterwards and the user record is stored. */
    method UpdateUser(user: User, freshKey: AclKey)
      requires Valid() && freshKey !in principals
      modifies this
      ensures Valid()
      ensures users == old(users)[user.id := user]
      ensures principals == if PrincipalExists(old(principals), UserPrincipal(user)) then old(principals)
                            else old(principals)[freshKey := NewPrincipal(user, freshKey)]
      ensures effects == old(effects) + (if PrincipalExists(old(principals), UserPrincipal(user)) then []
        else [CreatedPrincipal(UserPrincipal(user), SecurablePrincipal([], UserPrincipal(user), Title(user)))])
      ensures PrincipalOf(principals, user.id).Some?
      ensures authnPrincipalCache == old(authnPrincipalCache) && authnRolesCache == old(authnRolesCache)
    {
      var _ := EnsureSecurablePrincipalExists(user, freshKey);
      users := users[user.id := user];
    }

    /** processOrganizationEnrollments: the user joins each missing organization once, in order. */
    method ProcessOrganizationEnrollments(principal: Principal, user: User)
      modifies this
      ensures effects == old(effects) + MemberEffects(MissingOrganizations(queries, principal, connectionsOf(user), user.email.GetOr("")), principal)
      ensures users == old(users) && principals == old(principals)
      ensures authnPrincipalCache == old(authnPrincipalCache) && authnRolesCache == old(authnRolesCache)
    {
      var emailDomain := user.email.GetOr("");
      var orgs := MissingOrganizations(queries, principal, connectionsOf(user), emailDomain);
      AddMemberships(orgs, principal);
    }

    /** The forEach of processOrganizationEnrollments: addMembers for each organization in turn. */
    method AddMemberships(orgs: seq<Uuid>, principal: Principal)
      modifies this
      ensures effects == old(effects) + MemberEffects(orgs, principal)
      ensures users == old(users) && principals == old(principals)
      ensures authnPrincipalCache == old(authnPrincipalCache) && authnRolesCache == old(authnRolesCache)
    {
      ghost var target := effects + MemberEffects(orgs, principal);
      var rest := orgs;
      while rest != []
        invariant effects + MemberEffects(rest, principal) == target
        invariant users == old(users) && principals == old(principals)
        invariant authnPrincipalCache == old(authnPrincipalCache) && authnRolesCache == old(authnRolesCache)
      {
        ghost var e := effects;
        effects := effects + [AddedMember(rest[0], principal)];
        assert e + ([AddedMember(rest[0], principal)] + MemberEffects(rest[1..], principal)) == effects + MemberEffects(rest[1..], principal);
        rest := rest[1..];
      }
    }

    /**
     * syncUserEnrollmentsAndAuthentication: the global enrollment, then the
     * organization enrollments, then the cache, then the mark.
     */
    method SyncUserEnrollmentsAndAuthentication(user: User)
      requires Valid()
      modifies this
      ensures Valid()
      ensures var principal := UserPrincipal(user);
        effects == old(effects) + [AddedToGlobal(principal)]
          + MemberEffects(MissingOrganizations(queries, principal, connectionsOf(user), user.email.GetOr("")), principal)
          + [MarkedUser(user.id)]
      ensures CacheRefreshed(principalTrees, principals, user.id, old(authnPrincipalCache), old(authnRolesCache),
                             authnPrincipalCache, authnRolesCache)
      ensures users == old(users) && principals == old(principals)
    {
      var principal := UserPrincipal(user);
      effects := effects + [AddedToGlobal(principal)];
      ProcessOrganizationEnrollments(principal, user);
      SyncAuthenticationCache(principal.id);
      effects := effects + [MarkedUser(user.id)];
    }

    /**
     * syncUser: updateUser, then the enrollments and the cache. The user's
     * principal is stored by then, so the cache always receives it, the new
     * one when it was just created.
     */
    method SyncUser(user: User, freshKey: AclKey)
      requires Valid() && freshKey !in principals
      modifies this
      ensures Valid()
      ensures users == old(users)[user.id := user]
      ensures var isNew := !PrincipalExists(old(principals), UserPrincipal(user));
        && principals == (if isNew then old(principals)[freshKey := NewPrincipal(user, freshKey)] else old(principals))
        && effects == old(effects)
             + (if isNew then [CreatedPrincipal(UserPrincipal(user), SecurablePrincipal([], UserPrincipal(user), Title(user)))] else [])
             + [AddedToGlobal(UserPrincipal(user))]
             + MemberEffects(MissingOrganizations(queries, UserPrincipal(user), connectionsOf(user), user.email.GetOr("")), UserPrincipal(user))
             + [MarkedUser(user.id)]
        && (isNew ==> PrincipalOf(principals, user.id) == Some(NewPrincipal(user, freshKey)))
      ensures PrincipalOf(principals, user.id).Some?
      ensures CacheRefreshed(principalTrees, principals, user.id, old(authnPrincipalCache), old(authnRolesCache),
                             authnPrincipalCache, authnRolesCache)
      ensures user.id in authnPrincipalCache && authnPrincipalCache[user.id].principal == UserPrincipal(user)
    {
      ghost var isNew := !PrincipalExists(principals, UserPrincipal(user));
      if isNew {
        StoreNewPrincipal(principals, user, freshKey);
      }
      UpdateUser(user, freshKey);
      SyncUserEnrollmentsAndAuthentication(user);
    }
  }
}
