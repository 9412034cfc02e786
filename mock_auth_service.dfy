/**
 * The authentication test double: it checks passwords against a fixed
 * table, issues predictable tokens `mock_token_{id}_{k}` (and refresh tokens
 * `refresh_token_{id}_{k}`), where `k` is the number of tokens issued so far,
 * and reads the user id back out of a token.
 */
module MockAuth {
  import opened Py
  import opened MockUsers

  /** The user fields a login answers with. */
  datatype UserResponse = UserResponse(id: int, email: string, fullName: string, role: string,
                                       isActive: bool, createdAt: string)

  datatype AuthResponse = AuthResponse(accessToken: string, tokenType: string, user: UserResponse)

  /** `f"{word}_token_{id}_{k}"`: it starts with the word and `_token_`. */
  function Token(word: string, id: int, k: nat): (t: string)
    ensures StartsWith(t, word + "_token_")
  {
    PrefixOf(word + "_token_", IntToString(id) + "_" + IntToString(k));
    word + "_token_" + IntToString(id) + "_" + IntToString(k)
  }

  /** A token whose word has no underscore splits at `_` into the word, `token`, the id and the count. */
  lemma TokenParts(word: string, id: int, k: nat)
    requires '_' !in word
    ensures Split(Token(word, id, k), '_') == [word, "token", IntToString(id), IntToString(k)]
  {
    NoUnderscore(id);
    NoUnderscore(k);
    TokenSplit(word, IntToString(id), IntToString(k));
  }

  /** A mock token names the user it was issued for. */
  function MockToken(id: int, k: nat): (t: string)
    ensures TokenUserId(t) == Some(id)
  {
    MockTokenNamesId(id, k);
    Token("mock", id, k)
  }

  /** A refresh token never names a user. */
  function RefreshToken(id: int, k: nat): (t: string)
    ensures TokenUserId(t) == None
  {
    var t := Token("refresh", id, k);
    assert t[0] == ("refresh" + "_token_")[0] == 'r';
    NotPrefixByFirst(t, "mock_token_");
    t
  }

  /**
   * The user id a token names: it must start with `mock_token_` and its
   * third `_`-separated field must read as an integer.
   */
  function TokenUserId(token: string): (r: Option<int>)
    ensures r.Some? ==> StartsWith(token, "mock_token_")
  {
    if !StartsWith(token, "mock_token_") then None
    else
      var parts := Split(token, '_');
      if |parts| >= 3 then
        match ParseInt(parts[2])
        case Ok(id) => Some(id)
        case Err(_) => None
      else None
  }

  /** The decimal form of an integer holds no underscore. */
  lemma NoUnderscore(i: int)
    ensures '_' !in IntToString(i)
  {
    if i < 0 {
      assert IntToString(i) == "-" + NatToString(-i);
      assert '_' !in NatToString(-i);
    } else {
      assert '_' !in NatToString(i);
    }
  }

  /** The token's pieces, none holding an underscore, split apart at `_`. */
  lemma TokenSplit(word: string, a: string, b: string)
    requires '_' !in word && '_' !in a && '_' !in b
    ensures Split(word + "_token_" + a + "_" + b, '_') == [word, "token", a, b]
  {
    SplitNoSep(b, '_');
    var ab := a + "_" + b;
    SplitCons(a, '_', b);
    var tab := "token" + "_" + ab;
    SplitCons("token", '_', ab);
    SplitCons(word, '_', tab);
    TokenShape(word, a, b);
  }

  /** The f-string pieces regrouped around each separator. */
  lemma TokenShape(word: string, a: string, b: string)
    ensures word + "_token_" + a + "_" + b == word + "_" + ("token" + "_" + (a + "_" + b))
  {
    assert "_token_" == "_" + "token" + "_";
  }

  lemma PrefixOf(p: string, x: string)
    ensures StartsWith(p + x, p)
  {
    assert (p + x)[..|p|] == p;
  }

  /** The token built with the word `mock` reads back as its id. */
  lemma MockTokenNamesId(id: int, k: nat)
    ensures TokenUserId(Token("mock", id, k)) == Some(id)
  {
    var t := Token("mock", id, k);
    assert StartsWith(t, "mock_token_") by {
      assert "mock" + "_token_" == "mock_token_";
    }
    TokenParts("mock", id, k);
    var parts := Split(t, '_');
    assert parts[2] == IntToString(id);
    ParseIntOfIntToString(id);
    ReadsId(t, id);
  }

  /** A token with the mock prefix whose third field reads as `id` names `id`. */
  lemma ReadsId(t: string, id: int)
    requires StartsWith(t, "mock_token_") && |Split(t, '_')| >= 3 && ParseInt(Split(t, '_')[2]) == Ok(id)
    ensures TokenUserId(t) == Some(id)
  {
  }

  lemma NotPrefixByFirst(t: string, p: string)
    requires t != [] && p != [] && t[0] != p[0]
    ensures !StartsWith(t, p)
  {
  }

  /** Tokens issued at different counts differ, whatever their word and id. */
  lemma TokensDiffer(w1: string, id1: int, k1: nat, w2: string, id2: int, k2: nat)
    requires '_' !in w1 && '_' !in w2 && k1 != k2
    ensures Token(w1, id1, k1) != Token(w2, id2, k2)
  {
    TokenParts(w1, id1, k1);
    TokenParts(w2, id2, k2);
    ParseIntOfIntToString(k1);
    ParseIntOfIntToString(k2);
  }

  class MockAuthService {
    const userService: MockUserService
    var validPasswords: map<string, string>
    var generatedTokens: seq<string>
    /** The word (`mock` or `refresh`) and user id each token was issued with. */
    ghost var issued: seq<(string, int)>

    /** Token `k` of the log is the one issued when `k` tokens had been issued. */
    ghost predicate Valid()
      reads this
    {
      |issued| == |generatedTokens|
      && forall k :: 0 <= k < |issued| ==>
           (issued[k].0 == "mock" || issued[k].0 == "refresh")
           && generatedTokens[k] == Token(issued[k].0, issued[k].1, k)
    }

    constructor (userService: MockUserService)
      ensures Valid() && this.userService == userService
      ensures validPasswords == map["admin@test.com" := "admin_password", "user@test.com" := "user_password",
                                    "test_password" := "test_password"]
      ensures generatedTokens == []
    {
      this.userService := userService;
      validPasswords := map["admin@test.com" := "admin_password", "user@test.com" := "user_password",
                            "test_password" := "test_password"];
      generatedTokens := [];
      issued := [];
    }

    /** The password a login for `email` must give: its table entry, or `test_password`. */
    function ExpectedPassword(email: string): string
      reads this
    {
      if email in validPasswords then validPasswords[email] else "test_password"
    }

    /**
     * `authenticate_user`: the stored user with that e-mail, when it is
     * active and the password matches.
     */
    function AuthenticateUser(email: string, password: string): (r: Option<MockUser>)
      reads this, userService
      requires userService.Valid()
      ensures r.Some? <==> userService.GetUserByEmail(email).Some? && userService.GetUserByEmail(email).value.isActive
                           && password == ExpectedPassword(email)
      ensures r.Some? ==> r.value.email == email && r.value.isActive
                          && r.value.id in userService.users && userService.users[r.value.id] == r.value
    {
      var user := userService.GetUserByEmail(email);
      if user.None? || !user.value.isActive || password != ExpectedPassword(email) then None
      else user
    }

    /**
     * `login`: a failed check is an AuthenticationError and issues nothing;
     * otherwise one mock token, counted from the tokens issued so far, is
     * issued and returned with the user.
     */
    method Login(email: string, password: string) returns (r: Result<AuthResponse>)
      requires userService.Valid() && Valid()
      modifies this
      ensures Valid() && validPasswords == old(validPasswords)
      ensures old(AuthenticateUser(email, password)).None? ==>
        r == Err(AuthenticationError("Invalid email or password")) && generatedTokens == old(generatedTokens)
      ensures old(AuthenticateUser(email, password)).Some? ==>
        var u := old(AuthenticateUser(email, password)).value;
        r.Ok? && r.value.accessToken == MockToken(u.id, |old(generatedTokens)|)
        && r.value.tokenType == "bearer"
        && r.value.user == UserResponse(u.id, u.email, u.fullName, u.role, u.isActive, MockCreatedAt)
        && generatedTokens == old(generatedTokens) + [r.value.accessToken]
    {
      var user := AuthenticateUser(email, password);
      if user.None? {
        return Err(AuthenticationError("Invalid email or password"));
      }
      var u := user.value;
      var token := Issue("mock", u.id);
      r := Ok(AuthResponse(token, "bearer",
                           UserResponse(u.id, u.email, u.fullName, u.role, u.isActive, MockCreatedAt)));
    }

    /** Appends the token for `word` and `id` counted from the tokens issued so far. */
    method Issue(word: string, id: int) returns (token: string)
      requires Valid() && (word == "mock" || word == "refresh")
      modifies this
      ensures Valid() && validPasswords == old(validPasswords)
      ensures token == Token(word, id, |old(generatedTokens)|)
      ensures generatedTokens == old(generatedTokens) + [token]
    {
      token := Token(word, id, |generatedTokens|);
      generatedTokens := generatedTokens + [token];
      issued := issued + [(word, id)];
    }

    /**
     * `get_current_user_from_token`: the active stored user a mock token
     * names, or None.
     */
    function GetCurrentUserFromToken(token: string): (r: Option<MockUser>)
      reads userService
      requires userService.Valid()
      ensures r.Some? <==> TokenUserId(token).Some? && TokenUserId(token).value in userService.users
                           && userService.users[TokenUserId(token).value].isActive
      ensures r.Some? ==> r.value == userService.users[TokenUserId(token).value]
    {
      match TokenUserId(token)
      case None => None
      case Some(id) =>
        var user := userService.GetUserById(id);
        if user.Some? && user.value.isActive then user else None
    }

    /** `refresh_token`: issues `refresh_token_{id}_{k}`, which no lookup accepts. */
    method RefreshTokenFor(user: MockUser) returns (token: string)
      requires Valid()
      modifies this
      ensures Valid() && validPasswords == old(validPasswords)
      ensures token == RefreshToken(user.id, |old(generatedTokens)|)
      ensures generatedTokens == old(generatedTokens) + [token]
      ensures userService.Valid() ==> GetCurrentUserFromToken(token).None?
    {
      token := Issue("refresh", user.id);
    }

    /** `set_valid_password`. */
    method SetValidPassword(email: string, password: string)
      requires Valid()
      modifies this
      ensures Valid() && generatedTokens == old(generatedTokens)
      ensures validPasswords == old(validPasswords)[email := password]
      ensures ExpectedPassword(email) == password
    {
      validPasswords := validPasswords[email := password];
    }

    /** `clear_tokens`. */
    method ClearTokens()
      modifies this
      ensures Valid() && generatedTokens == [] && validPasswords == old(validPasswords)
    {
      generatedTokens := [];
      issued := [];
    }

    /** `get_generated_tokens`: a copy of the log. */
    function GetGeneratedTokens(): (r: seq<string>)
      reads this
      requires Valid()
      ensures r == generatedTokens && Distinct(r)
    {
      TokensDistinct();
      generatedTokens
    }

    /**
     * `create_mock_token_for_user`: issues a mock token for the user; for an
     * active stored user, reading it back gives that user.
     */
    method CreateMockTokenForUser(user: MockUser) returns (token: string)
      requires Valid()
      modifies this
      ensures Valid() && validPasswords == old(validPasswords)
      ensures token == MockToken(user.id, |old(generatedTokens)|)
      ensures generatedTokens == old(generatedTokens) + [token]
      ensures (userService.Valid() && user.id in userService.users && userService.users[user.id] == user
               && user.isActive) ==> GetCurrentUserFromToken(token) == Some(user)
    {
      token := Issue("mock", user.id);
    }

    /** The tokens issued since the last clear are pairwise distinct. */
    lemma TokensDistinct()
      requires Valid()
      ensures Distinct(generatedTokens)
    {
      forall i, j | 0 <= i < j < |generatedTokens| ensures generatedTokens[i] != generatedTokens[j] {
        TokensDiffer(issued[i].0, issued[i].1, i, issued[j].0, issued[j].1, j);
      }
    }
  }
}
