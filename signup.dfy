/** The mock sign-up page: whatever user type the URL names is stored as the
    session's user type, with an id made from the type and the clock.  No
    credentials are checked and the email and password are never stored. */
module Signup {
  import opened Common
  import opened Session

  /** The session a sign-up writes; `now` is `Date.now()`. */
  function SignupAccount(userType: string, name: string, now: nat): (a: Account)
    ensures a.userType == userType && a.userName == name
    ensures a.home == (if userType == "breeder" then "/dashboard/breeder" else "/search")
  {
    Account(userType, userType + "-" + IntToString(now), name,
            if userType == "breeder" then "/dashboard/breeder" else "/search")
  }

  /** `handleSubmit`: three writes, then the home page for the type. */
  method HandleSubmit(b: Browser, userType: string, name: string, email: string, password: string, now: nat)
    modifies b
    ensures b.store == Written(old(b.store), SignupAccount(userType, name, now))
    ensures b.path == SignupAccount(userType, name, now).home
  {
    b.SetItem("mockUser", userType);
    b.SetItem("mockUserId", userType + "-" + IntToString(now));
    b.SetItem("mockUserName", name);
    if userType == "breeder" {
      b.Navigate("/dashboard/breeder");
    } else {
      b.Navigate("/search");
    }
  }

  /** The id is the type, a dash and the timestamp, which reads back. */
  lemma IdCarriesTimestamp(userType: string, name: string, now: nat)
    ensures var id := SignupAccount(userType, name, now).userId;
      && |id| > |userType| + 1
      && id[..|userType| + 1] == userType + "-"
      && ParseInt(id[|userType| + 1..]) == Some(now)
  {
    var id := SignupAccount(userType, name, now).userId;
    assert id[|userType| + 1..] == IntToString(now);
    ParseIntRoundTrip(now);
  }

  /** Signing up as a breeder or a buyer lands on a page that admits it. */
  lemma KnownTypeLandsAdmitted(userType: string, name: string, now: nat, store: map<string, string>)
    requires userType == "breeder" || userType == "buyer"
    ensures var a := SignupAccount(userType, name, now);
      Visit(Written(store, a), a.home) == Some(Render)
  {
    var a := SignupAccount(userType, name, now);
    VisitMeaning(Written(store, a), a.home);
  }

  /** Any other type is still stored, but the search page it lands on turns
      it away: home for a non-empty type, the login page for an empty one. */
  lemma OtherTypeTurnedAway(userType: string, name: string, now: nat, store: map<string, string>)
    requires userType != "breeder" && userType != "buyer"
    ensures var a := SignupAccount(userType, name, now);
      && Written(store, a)["mockUser"] == userType
      && a.home == "/search"
      && Visit(Written(store, a), a.home) == Some(RedirectTo(if userType == "" then "/login" else "/"))
  {
    var a := SignupAccount(userType, name, now);
    VisitMeaning(Written(store, a), a.home);
  }
}
