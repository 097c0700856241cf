/** `get_access_token`: the single process-wide slot of client-credentials
    tokens, reused while it has more than a day left and refreshed
    otherwise. Time is an integer count of seconds. */
module Credentials {
  import opened Wrappers

  /** The safety margin: one day in seconds. */
  const OneDay: int := 86400

  const MissingClientId: string := "Missing TWITCH_CLIENT_ID"
  const MissingClientSecret: string := "Missing TWITCH_CLIENT_SECRET"
  const GrantType: string := "client_credentials"

  /** The parsed body of the token endpoint's answer. */
  datatype CredentialsResponse = CredentialsResponse(accessToken: string, expiresIn: nat)

  /** The form posted to the token endpoint. */
  datatype CredentialsForm = CredentialsForm(clientId: string, clientSecret: string, grantType: string)

  datatype CachedCredentials = CachedCredentials(credentials: CredentialsResponse, expirationDate: int)

  /** The slot holds a token whose expiration is more than a day after `now`. */
  predicate Reusable(slot: Option<CachedCredentials>, now: int)
  {
    slot.Some? && slot.value.expirationDate - OneDay > now
  }

  /** What the call returns. `exchange` is the outcome the token endpoint
      (request and parse) would give; it is consulted only on a refresh. */
  function AccessTokenResult(slot: Option<CachedCredentials>, now: int, clientId: Option<string>,
                             clientSecret: Option<string>, exchange: Result<CredentialsResponse>): Result<string>
  {
    if Reusable(slot, now) then Ok(slot.value.credentials.accessToken)
    else if clientId.None? then Err(MissingClientId)
    else if clientSecret.None? then Err(MissingClientSecret)
    else if exchange.Err? then Err(exchange.message)
    else Ok(exchange.value.accessToken)
  }

  /** The slot after the call: overwritten only by a successful refresh,
      with an expiration `expires_in` seconds after `issuedAt`, the clock
      reading taken once the exchange has completed. */
  function SlotAfter(slot: Option<CachedCredentials>, now: int, issuedAt: int, clientId: Option<string>,
                     clientSecret: Option<string>, exchange: Result<CredentialsResponse>): Option<CachedCredentials>
  {
    if Reusable(slot, now) || clientId.None? || clientSecret.None? || exchange.Err? then slot
    else Some(CachedCredentials(exchange.value, issuedAt + exchange.value.expiresIn))
  }

  /** The form the call posts, if it reaches the exchange at all. */
  function FormSent(slot: Option<CachedCredentials>, now: int, clientId: Option<string>,
                    clientSecret: Option<string>): Option<CredentialsForm>
  {
    if Reusable(slot, now) || clientId.None? || clientSecret.None? then None
    else Some(CredentialsForm(clientId.value, clientSecret.value, GrantType))
  }

  class CredentialStore {
    var credentials: Option<CachedCredentials>

    constructor ()
      ensures credentials == None
    {
      credentials := None;
    }

    /** `get_access_token` at clock reading `now`; `issuedAt` is the second
        clock reading taken after the exchange. Returns the token and the
        form posted to the token endpoint (`None` when none was posted). */
    method GetAccessToken(now: int, issuedAt: int, clientId: Option<string>, clientSecret: Option<string>,
                          exchange: Result<CredentialsResponse>)
      returns (r: Result<string>, form: Option<CredentialsForm>)
      modifies this
      ensures r == AccessTokenResult(old(credentials), now, clientId, clientSecret, exchange)
      ensures form == FormSent(old(credentials), now, clientId, clientSecret)
      ensures credentials == SlotAfter(old(credentials), now, issuedAt, clientId, clientSecret, exchange)
    {
      form := None;
      if Reusable(credentials, now) {
        r := Ok(credentials.value.credentials.accessToken);
        return;
      }
      if clientId.None? {
        r := Err(MissingClientId);
        return;
      }
      if clientSecret.None? {
        r := Err(MissingClientSecret);
        return;
      }
      form := Some(CredentialsForm(clientId.value, clientSecret.value, GrantType));
      if exchange.Err? {
        r := Err(exchange.message);
        return;
      }
      var issued := exchange.value;
      var expirationDate := issuedAt + issued.expiresIn;
      var accessToken := issued.accessToken;
      credentials := Some(CachedCredentials(issued, expirationDate));
      r := Ok(accessToken);
    }
  }

  /** A token with more than a day left is returned as it is, nothing is
      posted and the slot is left alone. */
  lemma CachedTokenReused(slot: Option<CachedCredentials>, now: int, issuedAt: int, clientId: Option<string>,
                          clientSecret: Option<string>, exchange: Result<CredentialsResponse>)
    requires slot.Some? && slot.value.expirationDate - OneDay > now
    ensures AccessTokenResult(slot, now, clientId, clientSecret, exchange) == Ok(slot.value.credentials.accessToken)
    ensures FormSent(slot, now, clientId, clientSecret) == None
    ensures SlotAfter(slot, now, issuedAt, clientId, clientSecret, exchange) == slot
  {
  }

  /** An empty slot, or a token with a day or less left, is refreshed: once
      the configuration is present the form is posted. */
  lemma StaleTokenRefreshed(slot: Option<CachedCredentials>, now: int, clientId: string, clientSecret: string)
    requires slot.None? || slot.value.expirationDate - OneDay <= now
    ensures FormSent(slot, now, Some(clientId), Some(clientSecret)) == Some(CredentialsForm(clientId, clientSecret, "client_credentials"))
  {
  }

  /** A token expiring 23 hours from now is not reused. */
  lemma TwentyThreeHoursRefreshes(token: CredentialsResponse, now: int)
    ensures !Reusable(Some(CachedCredentials(token, now + 23 * 3600)), now)
  {
  }

  /** A successful refresh stores the new token, expiring `expires_in`
      seconds after `issuedAt`, and returns exactly that token. */
  lemma RefreshStores(slot: Option<CachedCredentials>, now: int, issuedAt: int, clientId: string,
                      clientSecret: string, issued: CredentialsResponse)
    requires !Reusable(slot, now)
    ensures AccessTokenResult(slot, now, Some(clientId), Some(clientSecret), Ok(issued)) == Ok(issued.accessToken)
    ensures SlotAfter(slot, now, issuedAt, Some(clientId), Some(clientSecret), Ok(issued))
            == Some(CachedCredentials(issued, issuedAt + issued.expiresIn))
  {
  }

  /** Missing configuration fails before any exchange, with the message of
      the first missing variable, and leaves the slot alone. */
  lemma MissingConfigFails(slot: Option<CachedCredentials>, now: int, issuedAt: int, clientId: Option<string>,
                           clientSecret: Option<string>, exchange: Result<CredentialsResponse>)
    requires !Reusable(slot, now)
    requires clientId.None? || clientSecret.None?
    ensures AccessTokenResult(slot, now, clientId, clientSecret, exchange)
            == Err(if clientId.None? then MissingClientId else MissingClientSecret)
    ensures FormSent(slot, now, clientId, clientSecret) == None
    ensures SlotAfter(slot, now, issuedAt, clientId, clientSecret, exchange) == slot
  {
  }

  /** A failed exchange returns its error and keeps the previous slot,
      stale or empty. */
  lemma FailedExchangeKeepsSlot(slot: Option<CachedCredentials>, now: int, issuedAt: int, clientId: string,
                                clientSecret: string, message: string)
    requires !Reusable(slot, now)
    ensures AccessTokenResult(slot, now, Some(clientId), Some(clientSecret), Err(message)) == Err(message)
    ensures SlotAfter(slot, now, issuedAt, Some(clientId), Some(clientSecret), Err(message)) == slot
  {
  }

  /** Right after a successful refresh (second call at the clock reading the
      token was stamped with), the token is reused exactly when it was
      issued for more than a day. */
  lemma ImmediateReuse(slot: Option<CachedCredentials>, now: int, issuedAt: int, clientId: string,
                       clientSecret: string, issued: CredentialsResponse,
                       exchange2: Result<CredentialsResponse>)
    requires !Reusable(slot, now)
    ensures var slot' := SlotAfter(slot, now, issuedAt, Some(clientId), Some(clientSecret), Ok(issued));
      (Reusable(slot', issuedAt) <==> issued.expiresIn > OneDay) &&
      (issued.expiresIn > OneDay ==>
         AccessTokenResult(slot', issuedAt, Some(clientId), Some(clientSecret), exchange2) == Ok(issued.accessToken) &&
         FormSent(slot', issuedAt, Some(clientId), Some(clientSecret)) == None) &&
      (issued.expiresIn <= OneDay ==>
         FormSent(slot', issuedAt, Some(clientId), Some(clientSecret)).Some?)
  {
  }

  /** A token issued for a day or less is never reused: every call at or
      after the second clock reading of its refresh posts the form again. */
  lemma ShortTokenAlwaysRefreshed(slot: Option<CachedCredentials>, now: int, issuedAt: int, clientId: string,
                                  clientSecret: string, issued: CredentialsResponse, now2: int)
    requires !Reusable(slot, now)
    requires issued.expiresIn <= OneDay && now2 >= issuedAt
    ensures var slot' := SlotAfter(slot, now, issuedAt, Some(clientId), Some(clientSecret), Ok(issued));
      !Reusable(slot', now2) &&
      FormSent(slot', now2, Some(clientId), Some(clientSecret)) == Some(CredentialsForm(clientId, clientSecret, GrantType))
  {
  }
}
