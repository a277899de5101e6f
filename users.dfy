/**
 * Optional login and registration on the start page, over the dictionary of
 * registered users (user name to password). Passwords are kept as given.
 */
module Users {
  import opened PyStr

  datatype Registration = Registered | MissingCredentials | NameTaken

  datatype LoginOutcome = NoUsers | LoggedIn | Rejected

  /** The registration rule: blank input first, then an existing name, else accept. */
  function RegistrationOutcome(users: map<string, string>, newUser: string, newPass: string)
    : (o: Registration)
    ensures o == MissingCredentials <==> AllSpace(newUser) || AllSpace(newPass)
    ensures o == NameTaken <==> !AllSpace(newUser) && !AllSpace(newPass) && newUser in users
    ensures o == Registered <==> !AllSpace(newUser) && !AllSpace(newPass) && newUser !in users
  {
    if Strip(newUser) == "" || Strip(newPass) == "" then MissingCredentials
    else if newUser in users then NameTaken
    else Registered
  }

  /** The login check: with users registered, the name must map to exactly this password. */
  function Login(users: map<string, string>, username: string, password: string): (o: LoginOutcome)
    ensures o == LoggedIn <==> username in users && users[username] == password
    ensures o == NoUsers <==> users == map[]
  {
    if |users| == 0 then NoUsers
    else if username in users && users[username] == password then LoggedIn
    else Rejected
  }

  /** After a successful registration the same credentials log in. */
  lemma RegisterThenLogin(users: map<string, string>, newUser: string, newPass: string)
    requires RegistrationOutcome(users, newUser, newPass) == Registered
    ensures Login(users[newUser := newPass], newUser, newPass) == LoggedIn
  {
  }

  /** Registration never changes the password of a registered user. */
  lemma RegistrationKeepsPasswords(users: map<string, string>, newUser: string, newPass: string, u: string)
    requires u in users
    ensures var after := if RegistrationOutcome(users, newUser, newPass) == Registered
                         then users[newUser := newPass] else users;
      u in after && after[u] == users[u]
  {
  }

  /** The registered users, changed in place by the registration form. */
  class UserStore {
    var users: map<string, string>

    constructor (loaded: map<string, string>)
      ensures users == loaded
    {
      users := loaded;
    }

    /** "Jetzt registrieren": adds the unstripped name and password, or changes nothing. */
    method Register(newUser: string, newPass: string) returns (o: Registration)
      modifies this
      ensures o == RegistrationOutcome(old(users), newUser, newPass)
      ensures users == if o == Registered then old(users)[newUser := newPass] else old(users)
    {
      if Strip(newUser) == "" || Strip(newPass) == "" {
        o := MissingCredentials;
      } else if newUser in users {
        o := NameTaken;
      } else {
        users := users[newUser := newPass];
        o := Registered;
      }
    }
  }
}
