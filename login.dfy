/** The mock login page: two fixed accounts, each with the password
    "password".  A match writes the session and opens that account's home
    page; anything else shows an error and changes nothing. */
module Login {
  import opened Common
  import opened Session

  /** The display name of the first mock breeder (mockData.js). */
  const FirstMockBreederName: string := "Marcus Romano"

  const InvalidCredentials: string := "Invalid credentials. Try breeder@test.com / buyer@test.com with password: password"

  /** The account a pair of credentials opens, compared by exact equality. */
  function Credentials(email: string, password: string): Option<Account>
  {
    if email == "breeder@test.com" && password == "password" then
      Some(Account("breeder", "breeder-1", FirstMockBreederName, "/dashboard/breeder"))
    else if email == "buyer@test.com" && password == "password" then
      Some(Account("buyer", "buyer-1", "John Buyer", "/search"))
    else None
  }

  /** Exactly two pairs are accepted. */
  lemma AcceptedPairs(email: string, password: string)
    ensures Credentials(email, password).Some? <==>
      password == "password" && (email == "breeder@test.com" || email == "buyer@test.com")
  {
  }

  /** Either account lands on a page whose guard admits the type just stored. */
  lemma LoginLandsAdmitted(email: string, password: string, store: map<string, string>)
    requires Credentials(email, password).Some?
    ensures var a := Credentials(email, password).value;
      Visit(Written(store, a), a.home) == Some(Render)
  {
    var a := Credentials(email, password).value;
    VisitMeaning(Written(store, a), a.home);
  }

  class LoginPage {
    var email: string
    var password: string
    var error: string

    constructor()
      ensures email == "" && password == "" && error == ""
    {
      email := "";
      password := "";
      error := "";
    }

    /** `handleLogin`: the error is cleared first; a match performs the three
        writes and the navigation, anything else only sets the error. */
    method HandleLogin(b: Browser)
      modifies this, b
      ensures email == old(email) && password == old(password)
      ensures Credentials(email, password).Some? ==>
        && error == ""
        && b.store == Written(old(b.store), Credentials(email, password).value)
        && b.path == Credentials(email, password).value.home
      ensures Credentials(email, password).None? ==>
        error == InvalidCredentials && b.store == old(b.store) && b.path == old(b.path)
    {
      error := "";
      if email == "breeder@test.com" && password == "password" {
        b.SetItem("mockUser", "breeder");
        b.SetItem("mockUserId", "breeder-1");
        b.SetItem("mockUserName", FirstMockBreederName);
        b.Navigate("/dashboard/breeder");
      } else if email == "buyer@test.com" && password == "password" {
        b.SetItem("mockUser", "buyer");
        b.SetItem("mockUserId", "buyer-1");
        b.SetItem("mockUserName", "John Buyer");
        b.Navigate("/search");
      } else {
        error := InvalidCredentials;
      }
    }
  }
}
