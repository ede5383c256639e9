/**
 * The credential store: the `users` table (unique email) and the `datasets`
 * table (rows only ever appended). The tables are values here; the class
 * Database holds them as fields and performs the INSERTs and the SELECT.
 */
module Store {
  import opened Wrappers

  newtype byte = x: int | 0 <= x < 256

  /** A bcrypt hash as stored in the `password` column. */
  type PasswordHash = seq<byte>

  datatype User = User(id: nat, name: string, email: string, passwordHash: PasswordHash)

  datatype DatasetRecord =
    DatasetRecord(id: nat, userEmail: string, filename: string, domain: string, data: seq<byte>)

  /** `users` keyed by its UNIQUE email column; `datasets` in insertion order. */
  datatype Tables = Tables(users: map<string, User>, datasets: seq<DatasetRecord>)

  const NoTables: Tables := Tables(map[], [])

  /**
   * Each user row sits under its own email; AUTOINCREMENT ids without deletes
   * are 1..n for the users, and a dataset's id is its 1-based position.
   */
  predicate WellFormed(t: Tables) {
    && (forall e :: e in t.users ==> t.users[e].email == e && 1 <= t.users[e].id <= |t.users|)
    && (forall e1, e2 :: e1 in t.users && e2 in t.users && t.users[e1].id == t.users[e2].id ==> e1 == e2)
    && (forall i :: 0 <= i < |t.datasets| ==> t.datasets[i].id == i + 1)
  }

  /** `INSERT INTO users`: refused (IntegrityError) when the email is taken. */
  function AddUser(t: Tables, name: string, email: string, hash: PasswordHash): (r: Option<Tables>)
    ensures r.None? <==> email in t.users
    ensures r.Some? ==> r.value.datasets == t.datasets
    ensures r.Some? ==> r.value.users.Keys == t.users.Keys + {email}
    ensures r.Some? ==> forall e :: e in t.users ==> r.value.users[e] == t.users[e]
    ensures r.Some? ==> var u := r.value.users[email];
                        u.name == name && u.email == email && u.passwordHash == hash
    ensures r.Some? && WellFormed(t) ==> WellFormed(r.value)
  {
    if email in t.users then None
    else
      var r := t.(users := t.users[email := User(|t.users| + 1, name, email, hash)]);
      assert |r.users| == |t.users| + 1;
      Some(r)
  }

  /** `SELECT ... FROM users WHERE email = ?`: the row stored under exactly that email. */
  function FindUser(t: Tables, email: string): (r: Option<User>)
    ensures r.Some? <==> email in t.users
    ensures r.Some? ==> r.value == t.users[email]
    ensures r.Some? && WellFormed(t) ==> r.value.email == email
  {
    if email in t.users then Some(t.users[email]) else None
  }

  /** `INSERT INTO datasets`: a new row behind all earlier ones, nothing replaced. */
  function AddDataset(t: Tables, userEmail: string, filename: string, domain: string, data: seq<byte>)
    : (r: Tables)
    ensures r.users == t.users
    ensures |r.datasets| == |t.datasets| + 1 && r.datasets[..|t.datasets|] == t.datasets
    ensures var row := r.datasets[|t.datasets|];
            row.userEmail == userEmail && row.filename == filename
            && row.domain == domain && row.data == data
    ensures WellFormed(t) ==> WellFormed(r)
  {
    var row := DatasetRecord(|t.datasets| + 1, userEmail, filename, domain, data);
    t.(datasets := t.datasets + [row])
  }

  /** The database connection's two tables, changed in place by the statements below. */
  class Database {
    var users: map<string, User>
    var datasets: seq<DatasetRecord>

    function Contents(): Tables
      reads this
    {
      Tables(users, datasets)
    }

    ghost predicate Valid()
      reads this
    {
      WellFormed(Contents())
    }

    /** `CREATE TABLE IF NOT EXISTS` on a fresh database file. */
    constructor ()
      ensures Valid() && Contents() == NoTables
    {
      users, datasets := map[], [];
    }

    method InsertUser(name: string, email: string, hash: PasswordHash) returns (ok: bool)
      requires Valid()
      modifies this
      ensures Valid()
      ensures ok <==> email !in old(users)
      ensures var added := AddUser(old(Contents()), name, email, hash);
              Contents() == if ok then added.value else old(Contents())
    {
      ok := email !in users;
      if ok {
        users := users[email := User(|users| + 1, name, email, hash)];
      }
    }

    method SelectUser(email: string) returns (row: Option<User>)
      requires Valid()
      ensures row == FindUser(Contents(), email)
      ensures row.Some? ==> row.value.email == email
    {
      row := if email in users then Some(users[email]) else None;
    }

    method InsertDataset(userEmail: string, filename: string, domain: string, data: seq<byte>)
      requires Valid()
      modifies this
      ensures Valid()
      ensures Contents() == AddDataset(old(Contents()), userEmail, filename, domain, data)
    {
      datasets := datasets + [DatasetRecord(|datasets| + 1, userEmail, filename, domain, data)];
    }
  }
}
