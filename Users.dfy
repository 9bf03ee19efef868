/**
  The `User` principal (model/User.java) and the persisted `UserEntity` it is
  copied from. Timestamps are milliseconds; a `null` timestamp is `None`.
 */
module Users {
  import opened Wrappers

  /**
    A role enum constant, carried by its name: the enum's `toString` is that
    name. The set of constants is not part of this model.
   */
  datatype UserRole = UserRole(name: string)

  type Timestamp = int

  /** The database row. */
  datatype UserEntity = UserEntity(
    id: int,
    userName: string,
    password: string,
    role: UserRole,
    registeredAt: Option<Timestamp>,
    updatedAt: Option<Timestamp>,
    removedAt: Option<Timestamp>)

  /** The authenticated principal and the value kept in the user cache. */
  datatype User = User(
    id: int,
    username: string,
    password: string,
    role: UserRole,
    registeredAt: Option<Timestamp>,
    updatedAt: Option<Timestamp>,
    removedAt: Option<Timestamp>)

  /** A granted authority: a role string. */
  datatype Authority = Authority(authority: string)

  /** `User.fromEntity`: a field-by-field copy. */
  function FromEntity(entity: UserEntity): User {
    User(entity.id, entity.userName, entity.password, entity.role,
         entity.registeredAt, entity.updatedAt, entity.removedAt)
  }

  /** The row a principal was copied from (there is no such method in the source; it states what a copy means). */
  function EntityOf(u: User): UserEntity {
    UserEntity(u.id, u.username, u.password, u.role, u.registeredAt, u.updatedAt, u.removedAt)
  }

  /** `fromEntity` keeps every field: copying back yields the row it came from, and the other way round. */
  lemma FromEntityRoundTrip(entity: UserEntity, u: User)
    ensures EntityOf(FromEntity(entity)) == entity
    ensures FromEntity(EntityOf(u)) == u
  {
  }

  /** `getAuthorities`: exactly one authority, the role's string form. */
  function GetAuthorities(u: User): (r: seq<Authority>)
    ensures |r| == 1 && r[0].authority == u.role.name
  {
    [Authority(u.role.name)]
  }

  function IsAccountNonExpired(u: User): bool {
    u.removedAt.None?
  }

  function IsAccountNonLocked(u: User): bool {
    u.removedAt.None?
  }

  function IsCredentialsNonExpired(u: User): bool {
    u.removedAt.None?
  }

  function IsEnabled(u: User): bool {
    u.removedAt.None?
  }

  /** The four account flags agree, and they hold exactly for a user that has not been removed. */
  lemma AccountFlagsAgree(u: User)
    ensures IsEnabled(u) <==> u.removedAt.None?
    ensures IsAccountNonExpired(u) == IsAccountNonLocked(u) == IsCredentialsNonExpired(u) == IsEnabled(u)
  {
  }
}
