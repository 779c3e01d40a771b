/**
 * The database as finite maps keyed by record id, the uniqueness checks the
 * services run before writing, and the expansion of a role's permission ids.
 */
module Stores {
  import opened Wrappers
  import opened Schemas

  /** One map per collection. */
  datatype Store = Store(
    users: map<Id, User>,
    roles: map<Id, Role>,
    permissions: map<Id, Permission>,
    clients: map<Id, Client>,
    templates: map<Id, JobTemplate>,
    vacancies: map<Id, JobVacancy>,
    candidates: map<Id, Candidate>)

  /** The empty database. */
  const EmptyStore: Store := Store(map[], map[], map[], map[], map[], map[], map[])

  /** The unique string of each kind of record. */
  function UserEmail(u: User): string { u.email }
  function RoleName(r: Role): string { r.name }
  function PermissionKey(p: Permission): string { p.key }
  function ClientEmail(c: Client): string { c.email }

  /** `findOne({ <key>: k })` finds a record: some record has that key. */
  predicate KeyTaken<T>(m: map<Id, T>, key: T -> string, k: string) {
    exists id | id in m :: key(m[id]) == k
  }

  /** `findOne({ <key>: k, _id: { $ne: self } })` finds a record: another record has that key. */
  predicate KeyTakenByOther<T>(m: map<Id, T>, key: T -> string, k: string, self: Id) {
    exists id | id in m && id != self :: key(m[id]) == k
  }

  /** No two records share a key (what the schema's unique index promises). */
  ghost predicate UniqueOn<T>(m: map<Id, T>, key: T -> string) {
    forall a, b | a in m && b in m && key(m[a]) == key(m[b]) :: a == b
  }

  /** Inserting a record whose key is free keeps keys unique. */
  lemma UniqueOnInsert<T>(m: map<Id, T>, key: T -> string, id: Id, x: T)
    requires UniqueOn(m, key) && id !in m && !KeyTaken(m, key, key(x))
    ensures UniqueOn(m[id := x], key)
  {}

  /** Replacing a record by one whose key no other record holds keeps keys unique. */
  lemma UniqueOnReplace<T>(m: map<Id, T>, key: T -> string, id: Id, x: T)
    requires UniqueOn(m, key) && !KeyTakenByOther(m, key, key(x), id)
    ensures UniqueOn(m[id := x], key)
  {}

  /** Removing a record keeps keys unique. */
  lemma UniqueOnRemove<T>(m: map<Id, T>, key: T -> string, id: Id)
    requires UniqueOn(m, key)
    ensures UniqueOn(m - {id}, key)
  {}

  /** The uniqueness every schema index declares: user email, role name, permission key, client email. */
  ghost predicate UniqueKeys(s: Store) {
    && UniqueOn(s.users, UserEmail)
    && UniqueOn(s.roles, RoleName)
    && UniqueOn(s.permissions, PermissionKey)
    && UniqueOn(s.clients, ClientEmail)
  }

  /** Some id in `ids` names a stored permission with key `k`. */
  ghost predicate Grants(perms: map<Id, Permission>, ids: seq<Id>, k: string) {
    exists i :: 0 <= i < |ids| && ids[i] in perms && perms[ids[i]].key == k
  }

  /**
   * `populate('permissions')`: the permission records a list of ids names, in
   * order; ids with no record are dropped.
   */
  function Populate(perms: map<Id, Permission>, ids: seq<Id>): (ps: seq<Permission>)
    ensures |ps| <= |ids|
    ensures forall p :: p in ps <==> exists i :: 0 <= i < |ids| && ids[i] in perms && perms[ids[i]] == p
  {
    if ids == [] then []
    else
      var rest := Populate(perms, ids[1..]);
      assert forall i :: 1 <= i < |ids| ==> ids[i] == ids[1..][i - 1];
      if ids[0] in perms then [perms[ids[0]]] + rest else rest
  }

  /**
   * Populating a concatenation populates each part, so the records come in
   * the order of their ids.
   */
  lemma {:induction false} PopulateAppend(perms: map<Id, Permission>, a: seq<Id>, b: seq<Id>)
    ensures Populate(perms, a + b) == Populate(perms, a) + Populate(perms, b)
  {
    if a == [] {
      assert a + b == b;
    } else {
      assert (a + b)[0] == a[0];
      assert (a + b)[1..] == a[1..] + b;
      PopulateAppend(perms, a[1..], b);
    }
  }

  /** Populating one id gives its record, or nothing when it is dangling. */
  lemma PopulateSingleton(perms: map<Id, Permission>, x: Id)
    ensures Populate(perms, [x]) == if x in perms then [perms[x]] else []
  {}

  /** The permission keys a role's permission ids grant, as the guard maps them. */
  function GrantedKeys(perms: map<Id, Permission>, ids: seq<Id>): (ks: seq<string>)
    ensures forall k :: k in ks <==> Grants(perms, ids, k)
  {
    var ps := Populate(perms, ids);
    var ks := seq(|ps|, i requires 0 <= i < |ps| => ps[i].key);
    assert forall k :: k in ks ==> Grants(perms, ids, k) by {
      forall k | k in ks ensures Grants(perms, ids, k) {
        var j :| 0 <= j < |ks| && ks[j] == k;
        assert ps[j] in ps;
      }
    }
    assert forall k :: Grants(perms, ids, k) ==> k in ks by {
      forall k | Grants(perms, ids, k) ensures k in ks {
        var i :| 0 <= i < |ids| && ids[i] in perms && perms[ids[i]].key == k;
        assert perms[ids[i]] in ps;
        var j :| 0 <= j < |ps| && ps[j] == perms[ids[i]];
        assert ks[j] == k;
      }
    }
    ks
  }

  /** Appending permission ids never withdraws a granted key. */
  lemma {:induction false} GrantsMonotone(perms: map<Id, Permission>, ids: seq<Id>, extra: seq<Id>, k: string)
    requires Grants(perms, ids, k)
    ensures Grants(perms, ids + extra, k)
  {
    var i :| 0 <= i < |ids| && ids[i] in perms && perms[ids[i]].key == k;
    assert (ids + extra)[i] == ids[i];
  }
}
