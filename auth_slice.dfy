/**
 * The authentication store: the session token, a loading flag and the last
 * login error, with the browser's stored copy of the token kept as a field.
 */
module AuthSlice {
  import opened Base

  /** The token a page load starts with: the stored one, an empty one reading as none. */
  function TokenOnLoad(stored: Option<string>): (token: Option<string>)
    ensures token.Some? ==> token == stored && token.value != ""
    ensures stored.Some? && stored.value != "" ==> token == stored
  {
    if stored == Some("") then None else stored
  }

  /** What storage keeps when handed a token: a missing token is written as the text "undefined". */
  function StoredForm(token: Option<string>): (s: string)
    ensures token.Some? ==> s == token.value
    ensures token.None? ==> s == "undefined"
    ensures s == "" <==> token == Some("")
  {
    if token.Some? then token.value else "undefined"
  }

  /**
   * The login response body; the server is expected to send a token. `None`
   * stands for a body without a `token` key; a JSON `null` token, which
   * storage would keep as the text "null", is not modelled.
   */
  datatype LoginPayload = LoginPayload(token: Option<string>)

  /**
   * A token that login writes is the one the next page load reads back
   * exactly when it is present and not empty.
   */
  lemma LoginTokenSurvivesReload(token: Option<string>)
    ensures TokenOnLoad(Some(StoredForm(token))) == token <==> token.Some? && token.value != ""
  {
  }

  class AuthState {
    var token: Option<string>
    var loading: bool
    var error: Option<string>
    /** The browser's stored copy of the token. */
    var stored: Option<string>

    /** A page load would restore the token the store holds now. */
    predicate InSync()
      reads this
    {
      TokenOnLoad(stored) == token
    }

    /** `initialState`, read from storage. */
    constructor (storedToken: Option<string>)
      ensures token == TokenOnLoad(storedToken) && stored == storedToken
      ensures !loading && error == None
      ensures InSync()
    {
      token := TokenOnLoad(storedToken);
      stored := storedToken;
      loading := false;
      error := None;
    }

    /** `logout`: the token goes from the store and from storage. */
    method Logout()
      modifies this
      ensures token == None && stored == None
      ensures loading == old(loading) && error == old(error)
      ensures InSync()
    {
      token := None;
      stored := None;
    }

    /** `loginUser.pending`. */
    method LoginPending()
      modifies this
      ensures loading && error == None
      ensures token == old(token) && stored == old(stored)
      ensures old(InSync()) ==> InSync()
    {
      loading := true;
      error := None;
    }

    /** `loginUser.fulfilled`: the token goes into the store and into storage. */
    method LoginFulfilled(payload: LoginPayload)
      modifies this
      ensures !loading && token == payload.token && stored == Some(StoredForm(payload.token))
      ensures error == old(error)
      ensures InSync() <==> payload.token.Some? && payload.token.value != ""
    {
      loading := false;
      token := payload.token;
      stored := Some(StoredForm(payload.token));
      LoginTokenSurvivesReload(payload.token);
    }

    /** `loginUser.rejected`: the error is recorded, the token is left alone. */
    method LoginRejected(payload: string)
      modifies this
      ensures !loading && error == Some(payload)
      ensures token == old(token) && stored == old(stored)
      ensures old(InSync()) ==> InSync()
    {
      loading := false;
      error := Some(payload);
    }
  }
}
