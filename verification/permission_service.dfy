/** The permission store: unique keys; deleting a permission does not touch roles. */
module PermissionService {
  import opened Wrappers
  import opened Errors
  import opened Schemas
  import opened Stores

  /** The body of a create request. */
  datatype CreatePermission = CreatePermission(key: string, description: Option<string>)

  /** The body of an update request: only the given properties change. */
  datatype UpdatePermission = UpdatePermission(key: Option<string>, description: Option<string>)

  /** Creates a permission under the fresh id `id`; a used key is a conflict. */
  function Create(s: Store, dto: CreatePermission, id: Id): (r: Result<Store, Error>)
    requires id !in s.permissions
    ensures r.Ok? <==> !KeyTaken(s.permissions, PermissionKey, dto.key)
    ensures r.Err? ==> r.error == Conflict(PermissionRecord)
    ensures r.Ok? ==> r.value == s.(permissions := s.permissions[id := Permission(dto.key, dto.description)])
  {
    if KeyTaken(s.permissions, PermissionKey, dto.key) then Err(Conflict(PermissionRecord))
    else Ok(s.(permissions := s.permissions[id := Permission(dto.key, dto.description)]))
  }

  /** Reads one permission. */
  function FindOne(s: Store, id: Id): (r: Result<Permission, Error>)
    ensures r.Ok? <==> id in s.permissions
    ensures r.Ok? ==> r.value == s.permissions[id]
    ensures r.Err? ==> r.error == NotFound(PermissionRecord)
  {
    if id in s.permissions then Ok(s.permissions[id]) else Err(NotFound(PermissionRecord))
  }

  /**
   * Updates one permission. A non-empty key held by another permission is a
   * conflict; then an unknown id is not found.
   */
  function Update(s: Store, id: Id, dto: UpdatePermission): (r: Result<Store, Error>)
    ensures Truthy(dto.key) && KeyTakenByOther(s.permissions, PermissionKey, dto.key.value, id) ==>
      r == Err(Conflict(PermissionRecord))
    ensures !(Truthy(dto.key) && KeyTakenByOther(s.permissions, PermissionKey, dto.key.value, id)) ==>
      (r.Ok? <==> id in s.permissions) && (r.Err? ==> r.error == NotFound(PermissionRecord))
    ensures r.Ok? ==> r.value.permissions.Keys == s.permissions.Keys
    ensures r.Ok? ==>
      var before := s.permissions[id];
      var p := r.value.permissions[id];
      && p.key == dto.key.GetOr(before.key)
      && p.description == (if dto.description.Some? then dto.description else before.description)
      && (forall o | o in s.permissions && o != id :: r.value.permissions[o] == s.permissions[o])
      && r.value == s.(permissions := r.value.permissions)
  {
    if Truthy(dto.key) && KeyTakenByOther(s.permissions, PermissionKey, dto.key.value, id) then
      Err(Conflict(PermissionRecord))
    else if id !in s.permissions then Err(NotFound(PermissionRecord))
    else
      var p := s.permissions[id];
      var p' := Permission(dto.key.GetOr(p.key), if dto.description.Some? then dto.description else p.description);
      Ok(s.(permissions := s.permissions[id := p']))
  }

  /** Deletes one permission record only; roles keep the id, which no longer grants anything. */
  function Remove(s: Store, id: Id): (r: Result<Store, Error>)
    ensures r.Ok? <==> id in s.permissions
    ensures r.Err? ==> r.error == NotFound(PermissionRecord)
    ensures r.Ok? ==> r.value.roles == s.roles && r.value.permissions == s.permissions - {id}
    ensures r.Ok? ==> r.value == s.(permissions := r.value.permissions)
  {
    if id in s.permissions then Ok(s.(permissions := s.permissions - {id})) else Err(NotFound(PermissionRecord))
  }

  /** Create keeps permission keys unique. */
  lemma CreateKeepsKeysUnique(s: Store, dto: CreatePermission, id: Id)
    requires id !in s.permissions && UniqueOn(s.permissions, PermissionKey)
    requires Create(s, dto, id).Ok?
    ensures UniqueOn(Create(s, dto, id).value.permissions, PermissionKey)
  {
    UniqueOnInsert(s.permissions, PermissionKey, id, Permission(dto.key, dto.description));
  }

  /**
   * Update keeps permission keys unique when the supplied key, if any, is
   * non-empty: an empty key skips the pre-check yet is written.
   */
  lemma UpdateKeepsKeysUnique(s: Store, id: Id, dto: UpdatePermission)
    requires UniqueOn(s.permissions, PermissionKey) && dto.key != Some("")
    requires Update(s, id, dto).Ok?
    ensures UniqueOn(Update(s, id, dto).value.permissions, PermissionKey)
  {
    var p := Update(s, id, dto).value.permissions[id];
    if dto.key.None? {
      assert p.key == s.permissions[id].key;
      assert !KeyTakenByOther(s.permissions, PermissionKey, p.key, id);
    }
    UniqueOnReplace(s.permissions, PermissionKey, id, p);
  }

  /** An empty key skips the conflict check, so two permissions can end up sharing it. */
  lemma EmptyKeySkipsConflictCheck()
    ensures var s := EmptyStore.(permissions := map["p" := Permission("", None), "q" := Permission("X", None)]);
      && Update(s, "q", UpdatePermission(Some(""), None)).Ok?
      && !UniqueOn(Update(s, "q", UpdatePermission(Some(""), None)).value.permissions, PermissionKey)
  {
    var s := EmptyStore.(permissions := map["p" := Permission("", None), "q" := Permission("X", None)]);
    var s1 := Update(s, "q", UpdatePermission(Some(""), None)).value;
    assert s1.permissions["p"].key == s1.permissions["q"].key;
  }

  /**
   * With unique keys, once a permission is deleted its key is granted by no
   * role, although every role still lists its id.
   */
  lemma RemoveRevokesKey(s: Store, id: Id, ids: seq<Id>)
    requires id in s.permissions && UniqueOn(s.permissions, PermissionKey)
    ensures !Grants(Remove(s, id).value.permissions, ids, s.permissions[id].key)
  {
    var perms := Remove(s, id).value.permissions;
    forall i | 0 <= i < |ids| && ids[i] in perms
      ensures perms[ids[i]].key != s.permissions[id].key
    {
      assert ids[i] != id && perms[ids[i]] == s.permissions[ids[i]];
    }
  }
}
