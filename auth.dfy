/**
 * Registration and login. bcrypt is not modelled: a Hasher is any pair of a
 * salted hash and a check, and the one thing assumed of it (Sound) is that a
 * hash checks against the password it was made from. Properties below hold
 * for every sound hasher; the random salt is a parameter.
 */
module Auth {
  import opened Wrappers
  import opened Store

  type Salt = seq<byte>

  /** `bcrypt.hashpw` and `bcrypt.checkpw`. */
  datatype Hasher = Hasher(hash: (string, Salt) -> PasswordHash, checks: (string, PasswordHash) -> bool)

  ghost predicate Sound(h: Hasher) {
    forall password, salt :: h.checks(password, h.hash(password, salt))
  }

  /** What the sign-up form submits. */
  datatype RegisterForm = RegisterForm(name: string, email: string, password: string, agree: bool)

  /** Name, email and password all non-empty, and the policy box ticked. */
  predicate Complete(f: RegisterForm) {
    f.name != "" && f.email != "" && f.password != "" && f.agree
  }

  datatype RegisterOutcome = Registered | MissingFields | EmailExists

  datatype Registration = Registration(outcome: RegisterOutcome, tables: Tables)

  /** The sign-up handler's effect on the store and what it reports. */
  function Register(t: Tables, h: Hasher, f: RegisterForm, salt: Salt): (r: Registration)
    ensures r.outcome == MissingFields <==> !Complete(f)
    ensures r.outcome == EmailExists <==> Complete(f) && f.email in t.users
    ensures r.outcome != Registered ==> r.tables == t
    ensures r.outcome == Registered ==>
              && r.tables.datasets == t.datasets
              && r.tables.users.Keys == t.users.Keys + {f.email}
              && (forall e :: e in t.users ==> r.tables.users[e] == t.users[e])
              && r.tables.users[f.email].name == f.name
              && r.tables.users[f.email].passwordHash == h.hash(f.password, salt)
    ensures WellFormed(t) ==> WellFormed(r.tables)
  {
    if !Complete(f) then Registration(MissingFields, t)
    else match AddUser(t, f.name, f.email, h.hash(f.password, salt))
      case None => Registration(EmailExists, t)
      case Some(t') => Registration(Registered, t')
  }

  /**
   * The sign-in handler: the identity it establishes, or None for an unknown
   * email and a wrong password alike.
   */
  function Login(t: Tables, h: Hasher, email: string, password: string): (r: Option<string>)
    ensures r.Some? <==> email in t.users && h.checks(password, t.users[email].passwordHash)
    ensures r.Some? ==> r.value == t.users[email].email
    ensures r.Some? && WellFormed(t) ==> r.value == email
  {
    match FindUser(t, email)
    case Some(row) => if h.checks(password, row.passwordHash) then Some(row.email) else None
    case None => None
  }

  /** A successful registration stores a hash that lets the same credentials sign in. */
  lemma RegisteredUserCanLogin(t: Tables, h: Hasher, f: RegisterForm, salt: Salt)
    requires Sound(h)
    requires Register(t, h, f, salt).outcome == Registered
    ensures Login(Register(t, h, f, salt).tables, h, f.email, f.password) == Some(f.email)
  {
    var t' := Register(t, h, f, salt).tables;
    assert h.checks(f.password, h.hash(f.password, salt));
    assert t'.users[f.email].passwordHash == h.hash(f.password, salt);
  }

  /** Registering an email a second time fails and leaves the store as it was. */
  lemma DuplicateRegistrationFails(t: Tables, h: Hasher, first: RegisterForm, second: RegisterForm,
                                   salt1: Salt, salt2: Salt)
    requires Register(t, h, first, salt1).outcome == Registered
    requires Complete(second) && second.email == first.email
    ensures var t1 := Register(t, h, first, salt1).tables;
            Register(t1, h, second, salt2) == Registration(EmailExists, t1)
  {
  }

  /** A registration never changes who can sign in with an existing account. */
  lemma RegisterKeepsExistingLogins(t: Tables, h: Hasher, f: RegisterForm, salt: Salt,
                                    email: string, password: string)
    requires email in t.users
    ensures Login(Register(t, h, f, salt).tables, h, email, password) == Login(t, h, email, password)
  {
  }

  /** Unknown email and wrong password are reported identically. */
  lemma LoginFailuresAlike(t: Tables, h: Hasher, unknown: string, known: string,
                           password: string, wrong: string)
    requires unknown !in t.users
    requires known in t.users && !h.checks(wrong, t.users[known].passwordHash)
    ensures Login(t, h, unknown, password) == Login(t, h, known, wrong) == None
  {
  }
}
