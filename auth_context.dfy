/** The authentication provider of the tourist app
    (tourist-app/src/contexts/AuthContext.tsx): the token, the user record
    and the loading flag, with the token mirrored under the local-storage
    key 'authToken'. The user-info request is an input that says how it
    ended. */
module AuthContext {
  import opened Wrappers
  import opened Api

  /** The user record `/users/me` returns. */
  type UserInfo = map<string, string>

  class AuthProvider {
    var token: Option<string>
    var userInfo: Option<UserInfo>
    var isLoading: bool
    /** What local storage holds under 'authToken'. */
    var storedToken: Option<string>

    /** The provider before its mount effect: no token, no user, loading. */
    constructor (storage: Option<string>)
      ensures token == None && userInfo == None && isLoading && storedToken == storage
    {
      token := None;
      userInfo := None;
      isLoading := true;
      storedToken := storage;
    }

    /** `isAuthenticated: !!token`: a missing token and an empty token do not
        authenticate; any other token does. */
    predicate IsAuthenticated(): (r: bool)
      reads this
      ensures token == None || token == Some("") ==> !r
      ensures token.Some? && |token.value| > 0 ==> r
    {
      TruthyText(token)
    }

    /** The mount effect: a truthy stored token becomes the token; loading
        ends either way. */
    method CheckStoredToken()
      modifies this
      ensures !isLoading
      ensures TruthyText(storedToken) ==> token == storedToken
      ensures !TruthyText(storedToken) ==> token == old(token)
      ensures userInfo == old(userInfo) && storedToken == old(storedToken)
    {
      if storedToken.Some? && storedToken.value != "" {
        token := storedToken;
      }
      isLoading := false;
    }

    /** `fetchUserInfo` given how the request ended: nothing without a
        token; the data on success; on failure the user record stays. */
    method FetchUserInfo(outcome: Result<UserInfo, ApiError>)
      modifies this
      ensures TruthyText(token) && outcome.Ok? ==> userInfo == Some(outcome.value)
      ensures !TruthyText(token) || outcome.Err? ==> userInfo == old(userInfo)
      ensures token == old(token) && isLoading == old(isLoading) && storedToken == old(storedToken)
    {
      if token.Some? && token.value != "" {
        if outcome.Ok? {
          userInfo := Some(outcome.value);
        }
      }
    }

    /** The token effect: with a token the user record is fetched; without
        one it is cleared. */
    method OnTokenChange(outcome: Result<UserInfo, ApiError>)
      modifies this
      ensures !TruthyText(token) ==> userInfo == None
      ensures TruthyText(token) && outcome.Ok? ==> userInfo == Some(outcome.value)
      ensures TruthyText(token) && outcome.Err? ==> userInfo == old(userInfo)
      ensures token == old(token) && isLoading == old(isLoading) && storedToken == old(storedToken)
    {
      if token.Some? && token.value != "" {
        FetchUserInfo(outcome);
      } else {
        userInfo := None;
      }
    }

    /** `login`: the token goes to storage and to the state. */
    method Login(newToken: string)
      modifies this
      ensures storedToken == Some(newToken) && token == Some(newToken)
      ensures IsAuthenticated() <==> newToken != ""
      ensures userInfo == old(userInfo) && isLoading == old(isLoading)
    {
      storedToken := Some(newToken);
      token := Some(newToken);
    }

    /** `logout`: storage cleared, token and user record gone. */
    method Logout()
      modifies this
      ensures storedToken == None && token == None && userInfo == None
      ensures !IsAuthenticated()
      ensures isLoading == old(isLoading)
    {
      storedToken := None;
      token := None;
      userInfo := None;
    }
  }

  /** A non-empty token survives a reload: a new provider over the same
      storage finishes its mount check authenticated with that token. */
  method LoginSurvivesReload(provider: AuthProvider, newToken: string) returns (reloaded: AuthProvider)
    requires newToken != ""
    modifies provider
    ensures fresh(reloaded)
    ensures reloaded.IsAuthenticated() && reloaded.token == Some(newToken) && !reloaded.isLoading
  {
    provider.Login(newToken);
    reloaded := new AuthProvider(provider.storedToken);
    reloaded.CheckStoredToken();
  }

  /** After logging out, a reload starts unauthenticated. */
  method LogoutSurvivesReload(provider: AuthProvider) returns (reloaded: AuthProvider)
    modifies provider
    ensures fresh(reloaded)
    ensures !reloaded.IsAuthenticated() && !reloaded.isLoading
  {
    provider.Logout();
    reloaded := new AuthProvider(provider.storedToken);
    reloaded.CheckStoredToken();
  }
}
