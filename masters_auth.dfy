/**
 * The `MastersIndiaAuth` token cache: an object holding the last token and its
 * expiry in memory, mirrored in the file `auth_token.json`, whose `expires_at`
 * is written five minutes before the assumed one-hour lifetime ends.
 * Time is in whole seconds and passed in as `now`.
 */
module MastersAuth {
  import opened Optional
  import opened Upstream

  /** The lifetime, in seconds, assumed for a new token. */
  const AssumedLifetime := 3600
  /** The seconds taken off the lifetime when the expiry is written to the file. */
  const ExpiryBuffer := 300
  /** 2000-01-01T00:00:00 in seconds: the `expires_at` read from a file that has none. */
  const DefaultExpiry := 946684800

  /** The `expires_at` entry of the file. */
  datatype ExpiryField =
    | NoExpiry          // the entry is absent
    | BadExpiry         // null, or a text `datetime.fromisoformat` rejects
    | ExpiresAt(t: int)

  /** The file `auth_token.json` as `load_cached_token` finds it. */
  datatype TokenFile =
    | NoFile
    | Unreadable        // not JSON, or not a JSON object
    | Stored(token: Option<string>, expiresAt: ExpiryField, createdAt: Option<int>)

  /** The instant the stored `expires_at` denotes; None when it cannot be parsed. */
  function ExpiryInstant(e: ExpiryField): Option<int>
  {
    match e
    case NoExpiry => Some(DefaultExpiry)
    case BadExpiry => None
    case ExpiresAt(t) => Some(t)
  }

  /** The file holds a record whose expiry parses and lies strictly after `now`. */
  predicate Fresh(f: TokenFile, now: int)
  {
    f.Stored? && ExpiryInstant(f.expiresAt).Some? && now < ExpiryInstant(f.expiresAt).value
  }

  /**
   * What `load_cached_token` returns: the stored token exactly when `now` is
   * strictly before the stored expiry. A record without `expires_at` counts as
   * expired at any time after 2000-01-01; a missing, unreadable or unparseable
   * file yields nothing.
   */
  function CachedToken(f: TokenFile, now: int): (r: Option<string>)
    ensures r.Some? ==> f.Stored? && r == f.token
    ensures f.Stored? && f.expiresAt.ExpiresAt? ==> (r.Some? <==> f.token.Some? && now < f.expiresAt.t)
    ensures f.Stored? && f.expiresAt.NoExpiry? && now >= DefaultExpiry ==> r.None?
    ensures !f.Stored? || f.expiresAt.BadExpiry? ==> r.None?
  {
    if Fresh(f, now) then f.token else None
  }

  /** The record `save_token_to_file(token, expiresIn)` writes at `now`. */
  function SavedFile(token: string, expiresIn: int, now: int): TokenFile
  {
    Stored(Some(token), ExpiresAt(now + expiresIn - ExpiryBuffer), Some(now))
  }

  /**
   * What `get_new_token` returns for a reply of the token endpoint: the token,
   * exactly when the reply is HTTP 200 with a non-empty token; None on any
   * other status, a missing or empty token, an unparseable body or a network error.
   */
  function Exchanged(reply: AuthReply): (r: Option<string>)
    ensures r.Some? <==> reply.AuthHttp? && reply.status == 200 && IsToken(reply.token)
    ensures r.Some? ==> r == reply.token && r.value != ""
  {
    match reply
    case AuthHttp(status, token) => if status == 200 && IsToken(token) then token else None
    case _ => None
  }

  /**
   * What `get_valid_token` returns: the cached token when it is truthy (no
   * exchange), otherwise the exchange's result. It never yields an empty token,
   * and the in-memory token plays no part.
   */
  function ValidToken(f: TokenFile, now: int, reply: AuthReply): (r: Option<string>)
    ensures IsToken(CachedToken(f, now)) ==> r == CachedToken(f, now)
    ensures !IsToken(CachedToken(f, now)) ==> r == Exchanged(reply)
    ensures r.None? || r.value != ""
  {
    var cached := CachedToken(f, now);
    if IsToken(cached) then cached else Exchanged(reply)
  }

  class MastersIndiaAuth {
    /** `self.token` */
    var token: Option<string>
    /** `self.token_expires_at` */
    var tokenExpiresAt: Option<int>
    /** The contents of `auth_token.json`. */
    var file: TokenFile
    /** How many exchanges with the token endpoint this object has made. */
    ghost var exchanges: nat

    constructor (onDisk: TokenFile)
      ensures token == None && tokenExpiresAt == None && file == onDisk && exchanges == 0
    {
      token, tokenExpiresAt, file := None, None, onDisk;
      exchanges := 0;
    }

    /**
     * On a fresh file, adopts its token and expiry and returns the token;
     * otherwise returns None and leaves both fields alone. Never writes the
     * file and never contacts the endpoint.
     */
    method LoadCachedToken(now: int) returns (r: Option<string>)
      modifies this`token, this`tokenExpiresAt
      ensures r == CachedToken(file, now)
      ensures Fresh(file, now) ==> token == file.token && tokenExpiresAt == ExpiryInstant(file.expiresAt)
      ensures !Fresh(file, now) ==> token == old(token) && tokenExpiresAt == old(tokenExpiresAt)
    {
      r := None;
      if file.Stored? {
        var expiresAt := ExpiryInstant(file.expiresAt);
        if expiresAt.Some? && now < expiresAt.value {
          token := file.token;
          tokenExpiresAt := expiresAt;
          r := token;
        }
      }
    }

    /** Writes the record with `expires_at = now + expiresIn - 300`; a failed write changes nothing. */
    method SaveTokenToFile(t: string, expiresIn: int, now: int, writeOk: bool)
      modifies this`file
      ensures file == if writeOk then SavedFile(t, expiresIn, now) else old(file)
    {
      if writeOk {
        file := SavedFile(t, expiresIn, now);
      }
    }

    /**
     * One exchange with the token endpoint. On success the token is saved
     * with the default lifetime and adopted with an in-memory expiry one
     * hour ahead; on any failure nothing changes.
     */
    method GetNewToken(now: int, attempt: Attempt) returns (r: Option<string>)
      modifies this
      ensures r == Exchanged(attempt.reply)
      ensures exchanges == old(exchanges) + 1
      ensures r.Some? ==> token == r && tokenExpiresAt == Some(now + AssumedLifetime)
      ensures r.Some? ==> file == if attempt.writeOk then SavedFile(r.value, AssumedLifetime, now) else old(file)
      ensures r.None? ==> token == old(token) && tokenExpiresAt == old(tokenExpiresAt) && file == old(file)
    {
      exchanges := exchanges + 1;
      r := None;
      if attempt.reply.AuthHttp? && attempt.reply.status == 200 {
        var t := attempt.reply.token;
        if IsToken(t) {
          SaveTokenToFile(t.value, AssumedLifetime, now, attempt.writeOk);
          token := t;
          tokenExpiresAt := Some(now + AssumedLifetime);
          r := t;
        }
      }
    }

    /**
     * The cached token when the file holds a fresh, non-empty one, with no
     * exchange and no write; otherwise exactly what one exchange gives, with
     * the state `get_new_token` leaves. When nothing is returned, the fields
     * hold what `load_cached_token` left in them.
     */
    method GetValidToken(now: int, attempt: Attempt) returns (r: Option<string>)
      modifies this
      ensures r == ValidToken(old(file), now, attempt.reply)
      ensures IsToken(CachedToken(old(file), now)) ==>
                exchanges == old(exchanges) && file == old(file) &&
                token == r && tokenExpiresAt == ExpiryInstant(old(file).expiresAt)
      ensures !IsToken(CachedToken(old(file), now)) ==> exchanges == old(exchanges) + 1
      ensures !IsToken(CachedToken(old(file), now)) && r.Some? ==>
                token == r && tokenExpiresAt == Some(now + AssumedLifetime) &&
                file == if attempt.writeOk then SavedFile(r.value, AssumedLifetime, now) else old(file)
      ensures r.None? ==>
                file == old(file) &&
                token == (if Fresh(old(file), now) then old(file).token else old(token)) &&
                tokenExpiresAt == (if Fresh(old(file), now) then ExpiryInstant(old(file).expiresAt) else old(tokenExpiresAt))
    {
      var cached := LoadCachedToken(now);
      if IsToken(cached) {
        return cached;
      }
      r := GetNewToken(now, attempt);
    }

    /**
     * The JWT headers for a valid token; None stands for the exception raised
     * when there is none. The state changes as in `get_valid_token`.
     */
    method GetAuthHeaders(now: int, attempt: Attempt) returns (h: Option<Headers>)
      modifies this
      ensures h == HeadersFor(ValidToken(old(file), now, attempt.reply))
      ensures IsToken(CachedToken(old(file), now)) ==>
                exchanges == old(exchanges) && file == old(file) &&
                token == CachedToken(old(file), now) && tokenExpiresAt == ExpiryInstant(old(file).expiresAt)
      ensures !IsToken(CachedToken(old(file), now)) ==> exchanges == old(exchanges) + 1
      ensures !IsToken(CachedToken(old(file), now)) && h.Some? ==>
                var t := Exchanged(attempt.reply).value;
                token == Some(t) && tokenExpiresAt == Some(now + AssumedLifetime) &&
                file == if attempt.writeOk then SavedFile(t, AssumedLifetime, now) else old(file)
      ensures h.None? ==>
                file == old(file) &&
                token == (if Fresh(old(file), now) then old(file).token else old(token)) &&
                tokenExpiresAt == (if Fresh(old(file), now) then ExpiryInstant(old(file).expiresAt) else old(tokenExpiresAt))
    {
      var t := GetValidToken(now, attempt);
      h := HeadersFor(t);
    }
  }

  /** `get_token()` on the shared instance: `get_valid_token`, with its effect on the instance. */
  method GetToken(auth: MastersIndiaAuth, now: int, attempt: Attempt) returns (r: Option<string>)
    modifies auth
    ensures r == ValidToken(old(auth.file), now, attempt.reply)
    ensures IsToken(CachedToken(old(auth.file), now)) ==>
              auth.exchanges == old(auth.exchanges) && auth.file == old(auth.file) &&
              auth.token == r && auth.tokenExpiresAt == ExpiryInstant(old(auth.file).expiresAt)
    ensures !IsToken(CachedToken(old(auth.file), now)) ==> auth.exchanges == old(auth.exchanges) + 1
    ensures !IsToken(CachedToken(old(auth.file), now)) && r.Some? ==>
              auth.token == r && auth.tokenExpiresAt == Some(now + AssumedLifetime) &&
              auth.file == if attempt.writeOk then SavedFile(r.value, AssumedLifetime, now) else old(auth.file)
    ensures r.None? ==>
              auth.file == old(auth.file) &&
              auth.token == (if Fresh(old(auth.file), now) then old(auth.file).token else old(auth.token)) &&
              auth.tokenExpiresAt ==
                (if Fresh(old(auth.file), now) then ExpiryInstant(old(auth.file).expiresAt) else old(auth.tokenExpiresAt))
  {
    r := auth.GetValidToken(now, attempt);
  }

  /** `force_refresh_token()`: always one exchange, whatever the file holds, with `get_new_token`'s effect. */
  method ForceRefreshToken(auth: MastersIndiaAuth, now: int, attempt: Attempt) returns (r: Option<string>)
    modifies auth
    ensures r == Exchanged(attempt.reply)
    ensures auth.exchanges == old(auth.exchanges) + 1
    ensures r.Some? ==> auth.token == r && auth.tokenExpiresAt == Some(now + AssumedLifetime)
    ensures r.Some? ==> auth.file == if attempt.writeOk then SavedFile(r.value, AssumedLifetime, now) else old(auth.file)
    ensures r.None? ==>
              auth.token == old(auth.token) && auth.tokenExpiresAt == old(auth.tokenExpiresAt) && auth.file == old(auth.file)
  {
    r := auth.GetNewToken(now, attempt);
  }

  /**
   * Two `get_valid_token` calls in a row, at `t0` and at `later`. When the
   * first misses the cache and its exchange and write succeed, the second
   * returns the same token with no further exchange, provided it comes before
   * `t0 + 3300`. When the first hits the cache and the file is still fresh at
   * `later`, neither call exchanges.
   */
  method ValidTokenTwice(onDisk: TokenFile, t0: int, later: int, first: Attempt, second: Attempt)
    returns (a: Option<string>, b: Option<string>, ghost made: nat)
    ensures a == ValidToken(onDisk, t0, first.reply)
    ensures !IsToken(CachedToken(onDisk, t0)) && a.Some? && first.writeOk && later < t0 + AssumedLifetime - ExpiryBuffer ==>
              b == a && made == 1
    ensures IsToken(CachedToken(onDisk, t0)) && IsToken(CachedToken(onDisk, later)) ==> b == a && made == 0
    ensures made <= 2
  {
    var auth := new MastersIndiaAuth(onDisk);
    a := auth.GetValidToken(t0, first);
    b := auth.GetValidToken(later, second);
    made := auth.exchanges;
  }

  /**
   * A token obtained at `t0` and written to the file is returned again by
   * `get_valid_token` at any time before `t0 + 3300`, with no second exchange,
   * whatever the endpoint would answer.
   */
  method CachedAfterExchange(onDisk: TokenFile, t0: int, tok: string, later: int, second: Attempt)
    returns (first: Option<string>, again: Option<string>, ghost made: nat)
    requires tok != "" && later < t0 + AssumedLifetime - ExpiryBuffer
    ensures first == Some(tok) && again == Some(tok) && made == 1
  {
    var auth := new MastersIndiaAuth(onDisk);
    first := auth.GetNewToken(t0, Attempt(AuthHttp(200, Some(tok)), true));
    again := auth.GetValidToken(later, second);
    made := auth.exchanges;
  }

  /**
   * From `t0 + 3300` on, the same file no longer counts: `get_valid_token`
   * makes a second exchange and returns what it gives.
   */
  method RefreshedAfterBuffer(onDisk: TokenFile, t0: int, tok: string, later: int, second: Attempt)
    returns (first: Option<string>, again: Option<string>, ghost made: nat)
    requires tok != "" && later >= t0 + AssumedLifetime - ExpiryBuffer
    ensures first == Some(tok) && again == Exchanged(second.reply) && made == 2
  {
    var auth := new MastersIndiaAuth(onDisk);
    first := auth.GetNewToken(t0, Attempt(AuthHttp(200, Some(tok)), true));
    again := auth.GetValidToken(later, second);
    made := auth.exchanges;
  }

  /** The file `save_token_to_file(t, 3600)` writes at `t0` is fresh exactly until `t0 + 3300` (55 minutes). */
  lemma SavedFileFreshFor55Minutes(t: string, t0: int, now: int)
    ensures Fresh(SavedFile(t, AssumedLifetime, t0), now) <==> now < t0 + 3300
  {
  }
}
