/** The session: log in by employee code or e-mail with a password, a session restored
    from the browser's stored user, and log out. */
module Auth {
  import opened Wrappers
  import opened SeqUtil
  import opened JsValues
  import opened Types
  import Storage
  import MockData

  /** Whether an employee answers to an identifier and a password that have already
      been normalised: code or e-mail compare after trimming and lower-casing, the
      password after trimming only (it stays case-sensitive). */
  predicate Matches(e: Employee, identifier: string, password: string) {
    (ToLower(Trim(e.code)) == identifier || ToLower(Trim(e.email)) == identifier)
    && Trim(StrOr(e.password, "")) == password
  }

  /** The employee a login finds: the first one matching the normalised input. */
  function FindUser(employees: seq<Employee>, codeOrEmail: string, password: string): (r: Option<Employee>)
    ensures r.Some? ==> r.value in employees && Matches(r.value, ToLower(Trim(codeOrEmail)), Trim(password))
    ensures r.None? <==> forall e :: e in employees ==> !Matches(e, ToLower(Trim(codeOrEmail)), Trim(password))
  {
    var identifier := ToLower(Trim(codeOrEmail));
    var pw := Trim(password);
    Find(employees, e => Matches(e, identifier, pw))
  }

  /** The user kept for the session: the employee with its role trimmed and lower-cased
      (without the fallback to "employee" that loading applies). */
  function SessionUser(e: Employee): (u: Employee)
    ensures u.(role := e.role) == e
    ensures u.role == ToLower(Trim(e.role))
  {
    e.(role := ToLower(Trim(e.role)))
  }

  /** The first matching employee is the one logged in. */
  lemma FindUserIsFirstMatch(employees: seq<Employee>, codeOrEmail: string, password: string, k: nat)
    requires k < |employees| && Matches(employees[k], ToLower(Trim(codeOrEmail)), Trim(password))
    requires forall j :: 0 <= j < k ==> !Matches(employees[j], ToLower(Trim(codeOrEmail)), Trim(password))
    ensures FindUser(employees, codeOrEmail, password) == Some(employees[k])
  {
    var identifier := ToLower(Trim(codeOrEmail));
    var pw := Trim(password);
    FindFirst(employees, e => Matches(e, identifier, pw), k);
  }

  /** Surrounding white space and letter case of the identifier, and surrounding white
      space of the password, do not change who logs in. */
  lemma LoginIgnoresCaseAndSpace(employees: seq<Employee>, codeOrEmail: string, password: string)
    ensures FindUser(employees, codeOrEmail, password)
            == FindUser(employees, ToLower(Trim(codeOrEmail)), Trim(password))
  {
    LowerTrimIdempotent(codeOrEmail);
    TrimIdempotent(password);
  }

  /** The password comparison is case-sensitive: a typed password that agrees with the
      stored one only up to letter case is rejected. */
  lemma PasswordIsCaseSensitive(e: Employee, identifier: string, stored: string, typed: string)
    requires e.password == Some(stored) && stored == Trim(stored) && typed == Trim(typed)
    requires ToLower(stored) == ToLower(typed) && stored != typed
    ensures !Matches(e, identifier, typed)
  {
  }

  /** Employees as loaded are already in session form, so the session user is the stored
      employee itself. */
  lemma SessionUserOfClean(e: Employee)
    requires Storage.CleanEmployee(e)
    ensures SessionUser(e) == e
  {
    Storage.RoleNamesNormal(e.role);
  }

  /** The authentication provider: the current user and the browser's stored copy of it
      (the `kpi_user` entry). */
  class Session {
    var user: Option<Employee>
    var stored: Option<Employee>

    /** Mounting: the stored user, if any, becomes the current user. */
    constructor Restore(stored: Option<Employee>)
      ensures this.stored == stored && user == stored
    {
      this.stored := stored;
      user := stored;
    }

    predicate IsAuthenticated()
      reads this
    {
      user.Some?
    }

    /** `login`: succeeds exactly when some employee matches; then the first match,
        in session form, becomes the user and is stored; otherwise nothing changes. */
    method Login(employees: seq<Employee>, codeOrEmail: string, password: string) returns (ok: bool)
      modifies this
      ensures ok <==> exists e :: e in employees && Matches(e, ToLower(Trim(codeOrEmail)), Trim(password))
      ensures ok ==> user == Some(SessionUser(FindUser(employees, codeOrEmail, password).value))
                     && stored == user
      ensures !ok ==> user == old(user) && stored == old(stored)
    {
      var found := FindUser(employees, codeOrEmail, password);
      ghost var identifier, pw := ToLower(Trim(codeOrEmail)), Trim(password);
      if found.Some? {
        assert found.value in employees && Matches(found.value, identifier, pw);
        user := Some(SessionUser(found.value));
        stored := user;
        ok := true;
      } else {
        ok := false;
      }
    }

    /** `logout`: no user, nothing stored. */
    method Logout()
      modifies this
      ensures user.None? && stored.None?
      ensures !IsAuthenticated()
    {
      user := None;
      stored := None;
    }
  }

}
