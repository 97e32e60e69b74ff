/** The login form: input checks, the email shape test, the lookup of the
    user by email and the session it stores. */
module Login {
  import opened Records

  // ---------------------------------------------------------------------
  // The email shape
  // ---------------------------------------------------------------------

  /** A character the email pattern's `[^\s@]` class admits. */
  predicate EmailChar(c: char) {
    !IsWhitespace(c) && c != '@'
  }

  /** `validateEmail`, stated directly on positions: no white space anywhere, exactly one '@',
      something before it, and after it a '.' with something on each side. */
  predicate ValidEmail(s: string)
    ensures ValidEmail(s) ==> |s| >= 5 && !Blank(s)
  {
    exists a | 0 < a < |s| ::
      s[a] == '@' &&
      (forall i :: 0 <= i < |s| ==> !IsWhitespace(s[i]) && (s[i] == '@' ==> i == a)) &&
      exists d | a + 1 < d < |s| - 1 :: s[d] == '.'
  }

  /** A maximal run the pattern's `[^\s@]+` matches. */
  ghost predicate Segment(x: string) {
    |x| > 0 && forall i :: 0 <= i < |x| ==> EmailChar(x[i])
  }

  /** The language of the pattern `^[^\s@]+@[^\s@]+\.[^\s@]+$`. */
  ghost predicate MatchesEmailPattern(s: string) {
    exists local, domain, top ::
      Segment(local) && Segment(domain) && Segment(top) && s == local + "@" + domain + "." + top
  }

  /** The positional test accepts exactly the strings the pattern matches. */
  lemma ValidEmailMatchesPattern(s: string)
    ensures ValidEmail(s) <==> MatchesEmailPattern(s)
  {
    if ValidEmail(s) {
      var a :| 0 < a < |s| && s[a] == '@' &&
        (forall i :: 0 <= i < |s| ==> !IsWhitespace(s[i]) && (s[i] == '@' ==> i == a)) &&
        exists d | a + 1 < d < |s| - 1 :: s[d] == '.';
      var d :| a + 1 < d < |s| - 1 && s[d] == '.';
      PatternFromPositions(s, a, d);
    }
    if MatchesEmailPattern(s) {
      var local, domain, top :| Segment(local) && Segment(domain) && Segment(top) &&
        s == local + "@" + domain + "." + top;
      PositionsFromPattern(local, domain, top);
    }
  }

  lemma PatternFromPositions(s: string, a: int, d: int)
    requires 0 < a && a + 1 < d < |s| - 1 && s[a] == '@' && s[d] == '.'
    requires forall i :: 0 <= i < |s| ==> !IsWhitespace(s[i]) && (s[i] == '@' ==> i == a)
    ensures MatchesEmailPattern(s)
  {
    var local, domain, top := s[..a], s[a + 1..d], s[d + 1..];
    assert Segment(local) by {
      forall i | 0 <= i < |local| ensures EmailChar(local[i]) { assert local[i] == s[i]; }
    }
    assert Segment(domain) by {
      forall i | 0 <= i < |domain| ensures EmailChar(domain[i]) { assert domain[i] == s[a + 1 + i]; }
    }
    assert Segment(top) by {
      forall i | 0 <= i < |top| ensures EmailChar(top[i]) { assert top[i] == s[d + 1 + i]; }
    }
    assert s == local + "@" + domain + "." + top;
  }

  lemma PositionsFromPattern(local: string, domain: string, top: string)
    requires Segment(local) && Segment(domain) && Segment(top)
    ensures ValidEmail(local + "@" + domain + "." + top)
  {
    var s := local + "@" + domain + "." + top;
    var a, d := |local|, |local| + 1 + |domain|;
    assert s[a] == '@' && s[d] == '.';
    forall i | 0 <= i < |s|
      ensures !IsWhitespace(s[i]) && (s[i] == '@' ==> i == a)
    {
      if i < a {
        assert s[i] == local[i];
      } else if a < i < d {
        assert s[i] == domain[i - a - 1];
      } else if d < i {
        assert s[i] == top[i - d - 1];
      }
    }
    assert a + 1 < d < |s| - 1;
  }

  /** "bob" is rejected and "bob@x.com" accepted. */
  lemma EmailExamples()
    ensures !ValidEmail("bob")
    ensures ValidEmail("bob@x.com")
  {
    var s := "bob@x.com";
    assert s[3] == '@' && s[5] == '.';
    assert forall i :: 0 <= i < |s| ==> !IsWhitespace(s[i]) && (s[i] == '@' ==> i == 3);
  }

  // ---------------------------------------------------------------------
  // The session and the form
  // ---------------------------------------------------------------------

  /** `{ id: user.id, username: user.username, email: user.email }` */
  function SessionOf(user: Record): (session: Record)
    ensures session.Keys == {"id", "username", "email"}
    ensures forall k :: k in session ==> session[k] == Get(user, k)
  {
    map["id" := Get(user, "id"), "username" := Get(user, "username"), "email" := Get(user, "email")]
  }

  /** The reply to `GET /users?email=...`. */
  datatype LoginReply = Users(users: seq<Record>) | LoginThrew

  const FillBothError: string := "Please fill in both fields."
  const InvalidEmailError: string := "Please enter a valid email address."
  const NotFoundError: string := "User not found"
  const FailedError: string := "Failed to login. Please try again."

  class LoginForm {
    var email: string
    var password: string
    var error: string
    var loading: bool
    /** Every value handed to `setLoading`, oldest first. */
    ghost var loadingTrace: seq<bool>

    constructor ()
      ensures email == "" && password == "" && error == "" && !loading && loadingTrace == []
    {
      email, password, error, loading := "", "", "", false;
      loadingTrace := [];
    }

    /** The inputs' onChange handlers. */
    method Edit(newEmail: string, newPassword: string)
      modifies this
      ensures email == newEmail && password == newPassword
      ensures error == old(error) && loading == old(loading) && loadingTrace == old(loadingTrace)
    {
      email, password := newEmail, newPassword;
    }

    /** `handleSubmit`. `query` is the email looked up, when the lookup is made; `session`
        is what is stored as the current user; `loggedIn` says whether the parent's login
        handler was called. */
    method HandleSubmit(reply: LoginReply) returns (query: Option<string>, session: Option<Record>, loggedIn: bool)
      modifies this
      ensures email == old(email) && password == old(password)
      ensures old(email) == "" || old(password) == "" ==>
                error == FillBothError && query == None && session == None && !loggedIn &&
                loading == old(loading) && loadingTrace == old(loadingTrace)
      ensures old(email) != "" && old(password) != "" && !ValidEmail(old(email)) ==>
                error == InvalidEmailError && query == None && session == None && !loggedIn &&
                loading == old(loading) && loadingTrace == old(loadingTrace)
      ensures old(email) != "" && old(password) != "" && ValidEmail(old(email)) ==>
                query == Some(old(email)) && !loading && loadingTrace == old(loadingTrace) + [true, false]
      ensures query.Some? && reply.Users? && reply.users == [] ==>
                error == NotFoundError && session == None && !loggedIn
      ensures query.Some? && reply.Users? && reply.users != [] ==>
                session == Some(SessionOf(reply.users[0])) && loggedIn && error == old(error)
      ensures query.Some? && reply.LoginThrew? ==>
                error == FailedError && session == None && !loggedIn
    {
      query, session, loggedIn := None, None, false;
      if email == "" || password == "" {
        error := FillBothError;
        return;
      }
      if !ValidEmail(email) {
        error := InvalidEmailError;
        return;
      }
      loading := true;
      loadingTrace := loadingTrace + [true];
      query := Some(email);
      match reply {
        case Users(users) =>
          if |users| == 0 {
            error := NotFoundError;
            loading := false;
            loadingTrace := loadingTrace + [false];
            return;
          }
          session := Some(SessionOf(users[0]));
          loading := false;
          loadingTrace := loadingTrace + [false];
          loggedIn := true;
        case LoginThrew =>
          error := FailedError;
          loading := false;
          loadingTrace := loadingTrace + [false];
      }
    }
  }

  /** The stored session never carries the password, whatever the store returned. */
  lemma SessionHasNoPassword(user: Record)
    ensures "password" !in SessionOf(user)
  {
  }
}
