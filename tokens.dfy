/** `get_fresh_spotify_token` and the token test of `check_auth` in
    server/app.py: when the stored access token is used, when it is
    refreshed through the identity provider, and what is written back. The
    provider's refresh call is an oracle; whether the write-back succeeds is
    a parameter here and the database state in the route layer. */
module Tokens {
  import opened Wrappers
  import opened Schema

  /** `timedelta(minutes=5)`: a token that expires within this many seconds
      is refreshed before use. */
  const EXPIRY_MARGIN: int := 300

  /** The message of the exception every failure is turned into. */
  const AUTH_REQUIRED: string := "Authentication required. Please sign in again."

  /** What `refresh_access_token` answers: `refresh_token` may be absent
      (None); `expires_in` is in seconds. */
  datatype TokenInfo = TokenInfo(accessToken: string, refreshToken: Option<string>, expiresIn: int)

  /** The provider's refresh call: None when it raises. */
  type Refresher = string -> Option<TokenInfo>

  /** The stored expiry is set and lies more than five minutes ahead. */
  predicate StillValid(expiresAt: Option<Time>, now: Time) {
    expiresAt.Some? && expiresAt.value > now + EXPIRY_MARGIN
  }

  /** The refresh answer `get_fresh_spotify_token` works with, or None when
      it has no refresh token or the provider call raises. */
  function RefreshAnswer(user: UserRow, refresh: Refresher): (r: Option<TokenInfo>)
    ensures r.Some? ==> Truthy(user.refreshToken) && r == refresh(user.refreshToken.value)
    ensures Truthy(user.refreshToken) && refresh(user.refreshToken.value).Some? ==> r.Some?
  {
    if Truthy(user.refreshToken) then refresh(user.refreshToken.value) else None
  }

  /** The user row after `update_user_tokens` stores a refresh answer: the
      old refresh token is kept when the provider sent none. */
  function Refreshed(user: UserRow, info: TokenInfo, now: Time): (u: UserRow)
    ensures u.displayName == user.displayName && u.email == user.email
    ensures u.accessToken == Some(info.accessToken)
    ensures u.tokenExpiresAt == Some(now + info.expiresIn)
    ensures info.refreshToken.None? ==> u.refreshToken == user.refreshToken
    ensures info.refreshToken.Some? ==> u.refreshToken == info.refreshToken
  {
    var kept := if info.refreshToken.Some? then info.refreshToken else user.refreshToken;
    user.(accessToken := Some(info.accessToken), refreshToken := kept,
          tokenExpiresAt := Some(now + info.expiresIn))
  }

  /** What `get_fresh_spotify_token` returns or raises, given whether the
      write-back of a refreshed token succeeds (`stored`). */
  function TokenOutcome(user: UserRow, now: Time, refresh: Refresher, stored: bool): (r: Result<Option<string>>)
    ensures r.Err? ==> r.message == AUTH_REQUIRED
    ensures StillValid(user.tokenExpiresAt, now) ==> r == Ok(user.accessToken)
    ensures !StillValid(user.tokenExpiresAt, now) ==>
              (r.Ok? <==> RefreshAnswer(user, refresh).Some? && stored)
    ensures !StillValid(user.tokenExpiresAt, now) && r.Ok? ==>
              r.value == Some(RefreshAnswer(user, refresh).value.accessToken)
  {
    if StillValid(user.tokenExpiresAt, now) then Ok(user.accessToken)
    else
      match RefreshAnswer(user, refresh)
      case None => Err(AUTH_REQUIRED)
      case Some(info) => if stored then Ok(Some(info.accessToken)) else Err(AUTH_REQUIRED)
  }

  /** A refresh whose lifetime exceeds the margin makes the next call, at the
      same moment, use the new token without asking the provider again. */
  lemma RefreshThenValid(user: UserRow, info: TokenInfo, now: Time, refresh: Refresher, stored: bool)
    requires info.expiresIn > EXPIRY_MARGIN
    ensures TokenOutcome(Refreshed(user, info, now), now, refresh, stored) == Ok(Some(info.accessToken))
  {
  }

  /** A refresh that brings no new refresh token keeps the old one, so the
      user can be refreshed again once the new token expires. */
  lemma RefreshedCanRefreshAgain(user: UserRow, info: TokenInfo, now: Time, later: Time, refresh: Refresher)
    requires Truthy(user.refreshToken) && info.refreshToken.None?
    requires refresh(user.refreshToken.value).Some?
    ensures RefreshAnswer(Refreshed(user, info, now), refresh) == refresh(user.refreshToken.value)
    ensures !StillValid(Refreshed(user, info, now).tokenExpiresAt, later) ==>
              TokenOutcome(Refreshed(user, info, now), later, refresh, true)
                == Ok(Some(refresh(user.refreshToken.value).value.accessToken))
  {
  }

  /** `check_auth`'s first test: access token, refresh token and expiry are
      all present (the tokens not empty). */
  predicate HasTokens(user: UserRow) {
    Truthy(user.accessToken) && Truthy(user.refreshToken) && user.tokenExpiresAt.Some?
  }

  /** A user with all tokens whose refresh succeeds and is stored keeps all
      tokens, when the provider sends no refresh token or a non-empty one. */
  lemma RefreshedHasTokens(user: UserRow, info: TokenInfo, now: Time)
    requires HasTokens(user)
    requires info.refreshToken.None? || Truthy(info.refreshToken)
    requires info.accessToken != ""
    ensures HasTokens(Refreshed(user, info, now))
  {
  }
}
