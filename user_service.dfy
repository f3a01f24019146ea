/**
 * The users table: keyed lookup, lookup by email, creation and update under
 * the email-uniqueness rule, and deletion. Passwords are stored only as the
 * image of a hash function, which is a parameter here, and read projections
 * leave the password out.
 *
 * Email lookups and the unique index are the database's: two emails match
 * when the column's collation says so (MySQL's default collation ignores
 * case). The collation is modelled by `collate`, the key it compares by;
 * the service's own `!==` test compares exact strings.
 */
module UserService {
  import opened Wrappers
  import opened Exceptions

  /** The role column's two values, admin and user; user is the column's default. */
  datatype Role = Admin | Regular

  /** A row of the users table; senha holds the stored hash. */
  datatype User = User(id: int, nome: string, email: string, senha: string, role: Role)

  /** A user as the service returns it: every column but senha. */
  datatype UserView = UserView(id: int, nome: string, email: string, role: Role)

  datatype CreateUserDto = CreateUserDto(nome: string, email: string, senha: string, role: Option<Role>)

  datatype UpdateUserDto = UpdateUserDto(
    nome: Option<string>,
    email: Option<string>,
    senha: Option<string>,
    role: Option<Role>)

  /** The projection reads return: every column of the row except the password hash. */
  function View(u: User): UserView {
    UserView(u.id, u.nome, u.email, u.role)
  }

  /** No two users' emails match under the collation (the column's unique index). */
  ghost predicate UniqueEmails(rows: map<int, User>, collate: string -> string) {
    forall i, j | i in rows && j in rows && collate(rows[i].email) == collate(rows[j].email) :: i == j
  }

  /** Some user's email matches under the collation: the lookup by email that create and update make. */
  predicate EmailTaken(rows: map<int, User>, email: string, collate: string -> string) {
    exists id | id in rows :: collate(rows[id].email) == collate(email)
  }

  ghost predicate Keyed(rows: map<int, User>, nextId: int) {
    && 0 < nextId
    && forall id | id in rows :: rows[id].id == id && 0 < id < nextId
  }

  class UserTable {
    var rows: map<int, User>
    var nextId: int
    /** The email column's collation key. */
    const collate: string -> string

    ghost predicate Valid()
      reads this
    {
      Keyed(rows, nextId) && UniqueEmails(rows, collate)
    }

    constructor (collate: string -> string)
      ensures Valid() && rows == map[] && nextId == 1 && this.collate == collate
    {
      rows := map[];
      nextId := 1;
      this.collate := collate;
    }
  }

  /** findOne: the user with that id without its password, or NotFound. */
  function FindOne(rows: map<int, User>, id: int): (r: Result<UserView, Exception>)
    ensures r.Ok? <==> id in rows
    ensures r.Ok? ==> r.value == View(rows[id])
    ensures r.Err? ==> r.error == NotFound(UserNotFound(id))
  {
    if id in rows then Ok(View(rows[id])) else Err(NotFound(UserNotFound(id)))
  }

  /**
   * findByEmail: the (unique) user whose email matches under the collation,
   * password hash included, or NotFound.
   */
  function FindByEmail(rows: map<int, User>, email: string, collate: string -> string): (r: Result<User, Exception>)
    requires UniqueEmails(rows, collate)
    ensures r.Ok? <==> EmailTaken(rows, email, collate)
    ensures r.Ok? ==> collate(r.value.email) == collate(email) && r.value in rows.Values
    ensures r.Ok? ==> forall id | id in rows && collate(rows[id].email) == collate(email) :: rows[id] == r.value
    ensures r.Err? ==> r.error == NotFound(EmailNotFound(email))
  {
    if EmailTaken(rows, email, collate) then
      var id :| id in rows && collate(rows[id].email) == collate(email);
      Ok(rows[id])
    else
      Err(NotFound(EmailNotFound(email)))
  }

  /**
   * update probes the email only when one is given, non-empty and not the
   * very string stored; the probe then matches any user under the collation,
   * the user being updated included.
   */
  predicate EmailConflict(rows: map<int, User>, id: int, dto: UpdateUserDto, collate: string -> string)
    requires id in rows
  {
    && dto.email.Some? && dto.email.value != "" && dto.email.value != rows[id].email
    && EmailTaken(rows, dto.email.value, collate)
  }

  /**
   * Changing one's own email to a spelling the collation does not tell apart
   * from it (a change of case under MySQL's default collation) is refused
   * with Conflict: the probe finds the user's own row.
   */
  lemma RespellingOwnEmailConflicts(rows: map<int, User>, id: int, email: string, collate: string -> string)
    requires id in rows && email != "" && email != rows[id].email
    requires collate(email) == collate(rows[id].email)
    ensures EmailConflict(rows, id, UpdateUserDto(None, Some(email), None, None), collate)
  {
  }

  /** The dto after update replaces a given, non-empty password by its hash. */
  function HashPassword(dto: UpdateUserDto, hash: string -> string): (d: UpdateUserDto)
    ensures d.nome == dto.nome && d.email == dto.email && d.role == dto.role
    ensures dto.senha.Some? && dto.senha.value != "" ==> d.senha == Some(hash(dto.senha.value))
    ensures !(dto.senha.Some? && dto.senha.value != "") ==> d.senha == dto.senha
  {
    if dto.senha.Some? && dto.senha.value != "" then dto.(senha := Some(hash(dto.senha.value))) else dto
  }

  /** The row after a partial update: fields the dto carries replaced, the rest kept. */
  function Apply(u: User, dto: UpdateUserDto): (r: User)
    ensures r.id == u.id
    ensures dto.nome.None? ==> r.nome == u.nome
    ensures dto.email.None? ==> r.email == u.email
    ensures dto.senha.None? ==> r.senha == u.senha
    ensures dto.role.None? ==> r.role == u.role
    ensures dto.nome.Some? ==> r.nome == dto.nome.value
    ensures dto.email.Some? ==> r.email == dto.email.value
    ensures dto.senha.Some? ==> r.senha == dto.senha.value
    ensures dto.role.Some? ==> r.role == dto.role.value
  {
    User(u.id, dto.nome.GetOr(u.nome), dto.email.GetOr(u.email), dto.senha.GetOr(u.senha), dto.role.GetOr(u.role))
  }

  /** A new user whose email nobody has keeps emails unique. */
  lemma CreateKeepsEmailsUnique(rows: map<int, User>, u: User, collate: string -> string)
    requires UniqueEmails(rows, collate) && u.id !in rows && !EmailTaken(rows, u.email, collate)
    ensures UniqueEmails(rows[u.id := u], collate)
  {
  }

  /**
   * An update that passes the email check keeps emails unique: the new email
   * is either the very string the user has or one no user's email matches.
   */
  lemma UpdateKeepsEmailsUnique(rows: map<int, User>, id: int, dto: UpdateUserDto, collate: string -> string)
    requires UniqueEmails(rows, collate) && id in rows
    requires dto.email != Some("")
    requires !EmailConflict(rows, id, dto, collate)
    ensures UniqueEmails(rows[id := Apply(rows[id], dto)], collate)
  {
  }

  /**
   * create: Conflict, changing nothing, when the email is taken; otherwise one
   * new row under the next id with the password hashed and role defaulting to
   * 'user', returned without its password.
   */
  method Create(table: UserTable, dto: CreateUserDto, hash: string -> string) returns (r: Result<UserView, Exception>)
    requires table.Valid()
    modifies table
    ensures table.Valid()
    ensures EmailTaken(old(table.rows), dto.email, table.collate) ==>
              && r == Err(Conflict(EmailInUse))
              && table.rows == old(table.rows) && table.nextId == old(table.nextId)
    ensures !EmailTaken(old(table.rows), dto.email, table.collate) ==>
              var u := User(old(table.nextId), dto.nome, dto.email, hash(dto.senha), dto.role.GetOr(Regular));
              && u.id !in old(table.rows)
              && table.rows == old(table.rows)[u.id := u]
              && table.nextId == old(table.nextId) + 1
              && r == Ok(View(u))
  {
    if EmailTaken(table.rows, dto.email, table.collate) {
      return Err(Conflict(EmailInUse));
    }
    var user := User(table.nextId, dto.nome, dto.email, hash(dto.senha), dto.role.GetOr(Regular));
    CreateKeepsEmailsUnique(table.rows, user, table.collate);
    table.rows := table.rows[user.id := user];
    table.nextId := table.nextId + 1;
    r := Ok(View(user));
  }

  /**
   * update: NotFound for an unknown id; Conflict when the dto moves the user to
   * an email another user has; otherwise the row takes the dto's fields, with a
   * given password stored as its hash, and is returned without its password.
   * Failures change nothing.
   */
  method Update(table: UserTable, id: int, dto: UpdateUserDto, hash: string -> string)
    returns (r: Result<UserView, Exception>)
    requires table.Valid()
    requires dto.email != Some("")
    requires dto.senha.Some? ==> |dto.senha.value| >= 6
    modifies table
    ensures table.Valid() && table.nextId == old(table.nextId)
    ensures id !in old(table.rows) ==> r == Err(NotFound(UserNotFound(id))) && table.rows == old(table.rows)
    ensures id in old(table.rows) && EmailConflict(old(table.rows), id, dto, table.collate) ==>
              r == Err(Conflict(EmailInUse)) && table.rows == old(table.rows)
    ensures id in old(table.rows) && !EmailConflict(old(table.rows), id, dto, table.collate) ==>
              var u := Apply(old(table.rows)[id], HashPassword(dto, hash));
              && table.rows == old(table.rows)[id := u]
              && r == Ok(View(u))
    ensures r.Ok? && dto.senha.Some? ==> table.rows[id].senha == hash(dto.senha.value)
    ensures r.Ok? && dto.senha.None? ==> table.rows[id].senha == old(table.rows)[id].senha
  {
    if id !in table.rows {
      return Err(NotFound(UserNotFound(id)));
    }
    var user := table.rows[id];
    if dto.email.Some? && dto.email.value != "" && dto.email.value != user.email {
      if EmailTaken(table.rows, dto.email.value, table.collate) {
        return Err(Conflict(EmailInUse));
      }
    }
    var stored := HashPassword(dto, hash);
    UpdateKeepsEmailsUnique(table.rows, id, stored, table.collate);
    table.rows := table.rows[id := Apply(user, stored)];
    r := FindOne(table.rows, id);
  }

  /** remove: deletes the row, or NotFound when nothing was deleted. */
  method Remove(table: UserTable, id: int) returns (r: Result<(), Exception>)
    requires table.Valid()
    modifies table
    ensures table.Valid() && table.nextId == old(table.nextId)
    ensures id in old(table.rows) ==> r == Ok(()) && table.rows == old(table.rows) - {id}
    ensures id !in old(table.rows) ==> r == Err(NotFound(UserNotFound(id))) && table.rows == old(table.rows)
  {
    var deletedCount := if id in table.rows then 1 else 0;
    table.rows := table.rows - {id};
    if deletedCount == 0 {
      return Err(NotFound(UserNotFound(id)));
    }
    r := Ok(());
  }
}
