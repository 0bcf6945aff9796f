/** utils/auth.py: a login gate kept in the session state. The SHA-256 hex
    digest is left uninterpreted (a function parameter), and the table of
    users with their stored digests stands for `st.secrets["users"]`. */
module Auth {
  import opened Common

  /** `hashlib.sha256(password.encode()).hexdigest()`. */
  type Digest = string -> string

  /** A login succeeds when the user is known and the digest of the
      password equals the digest stored for that user. */
  predicate Accepts(users: map<string, string>, sha256Hex: Digest, username: string, password: string)
    ensures username !in users ==> !Accepts(users, sha256Hex, username, password)
    ensures username in users ==>
              (Accepts(users, sha256Hex, username, password) <==> sha256Hex(password) == users[username])
  {
    username in users && sha256Hex(password) == users[username]
  }

  /** The three session-state entries the gate uses; `None` is an absent
      entry. */
  class AuthSession {
    var passwordCorrect: Option<bool>
    var username: Option<string>
    var password: Option<string>

    constructor ()
      ensures passwordCorrect == None && username == None && password == None
    {
      passwordCorrect, username, password := None, None, None;
    }

    /** `password_entered`: records whether the entered credentials are
        right, and on success forgets the password. */
    method PasswordEntered(users: map<string, string>, sha256Hex: Digest)
      requires username.Some? && password.Some?
      modifies this
      ensures username == old(username)
      ensures passwordCorrect == Some(Accepts(users, sha256Hex, old(username).value, old(password).value))
      ensures Accepts(users, sha256Hex, old(username).value, old(password).value) ==> password == None
      ensures !Accepts(users, sha256Hex, old(username).value, old(password).value) ==> password == old(password)
    {
      if username.value in users && sha256Hex(password.value) == users[username.value] {
        passwordCorrect := Some(true);
        password := None;
      } else {
        passwordCorrect := Some(false);
      }
    }

    /** `check_password`, one run of the page. It answers true at once, and
        touches nothing, when an earlier run recorded a correct login.
        Otherwise the two text inputs store what is typed into them; a Login
        click checks the credentials, shows the error iff they are wrong, and
        still answers false: a success is only seen on the next run. */
    method CheckPassword(users: map<string, string>, sha256Hex: Digest, typedUsername: string,
                         typedPassword: string, loginClicked: bool) returns (ok: bool, errorShown: bool)
      modifies this
      ensures ok <==> old(passwordCorrect) == Some(true)
      ensures ok ==> !errorShown && unchanged(this)
      ensures !ok ==> username == Some(typedUsername)
      ensures !ok && !loginClicked ==>
                !errorShown && passwordCorrect == old(passwordCorrect) && password == Some(typedPassword)
      ensures !ok && loginClicked ==>
                && passwordCorrect == Some(Accepts(users, sha256Hex, typedUsername, typedPassword))
                && password == (if Accepts(users, sha256Hex, typedUsername, typedPassword) then None
                                else Some(typedPassword))
                && (errorShown <==> !Accepts(users, sha256Hex, typedUsername, typedPassword))
    {
      if passwordCorrect == Some(true) {
        return true, false;
      }
      username := Some(typedUsername);
      password := Some(typedPassword);
      errorShown := false;
      if loginClicked {
        PasswordEntered(users, sha256Hex);
        if passwordCorrect != Some(true) {
          errorShown := true;
        }
      }
      ok := false;
    }
  }

  /** Logging in with right credentials: the run with the click answers
      false and shows no error, the next run answers true whatever is typed
      or clicked. */
  method LoginThenRevisit(users: map<string, string>, sha256Hex: Digest, name: string, pass: string,
                          laterName: string, laterPass: string, laterClick: bool)
    returns (first: bool, firstError: bool, second: bool)
    requires Accepts(users, sha256Hex, name, pass)
    ensures !first && !firstError && second
  {
    var session := new AuthSession();
    first, firstError := session.CheckPassword(users, sha256Hex, name, pass, true);
    var laterError;
    second, laterError := session.CheckPassword(users, sha256Hex, laterName, laterPass, laterClick);
  }

  /** Wrong credentials never open the gate: every run answers false, and
      the error is shown on each click. */
  method WrongCredentialsStayLocked(users: map<string, string>, sha256Hex: Digest, name: string, pass: string)
    returns (first: bool, firstError: bool, second: bool, secondError: bool)
    requires !Accepts(users, sha256Hex, name, pass)
    ensures !first && firstError && !second && secondError
  {
    var session := new AuthSession();
    first, firstError := session.CheckPassword(users, sha256Hex, name, pass, true);
    second, secondError := session.CheckPassword(users, sha256Hex, name, pass, true);
  }
}
