/**
 * The authentication service: a token kept only in the file `jwt_token.json`,
 * stamped with the time it was obtained and taken to expire 23 hours later.
 * Loading falls through to a new exchange on a missing, unreadable or expired
 * file. Time is in whole seconds and passed in as `now`.
 */
module AuthService {
  import opened Optional
  import opened Upstream

  const TokenExpiryHours := 23
  /** The assumed token lifetime in seconds. */
  const TokenLifetime := TokenExpiryHours * 3600

  /** The `timestamp` entry of the file. */
  datatype Stamp =
    | NoStamp           // absent, null or the empty text
    | BadStamp          // a value `datetime.fromisoformat` rejects
    | StampedAt(t: int)

  datatype JwtRecord = JwtRecord(token: Option<string>, timestamp: Stamp, username: Option<string>, status: Option<string>)

  /** The file `jwt_token.json` as the service finds it. */
  datatype JwtFile =
    | NoFile
    | Unreadable        // not JSON, or not a JSON object
    | Stored(rec: JwtRecord)

  /**
   * `is_token_expired`: a record is expired unless it carries a parseable
   * timestamp from which at most 23 hours have passed (a timestamp in the
   * future counts as not expired).
   */
  function IsTokenExpired(rec: JwtRecord, now: int): (expired: bool)
    ensures expired <==> !(rec.timestamp.StampedAt? && now <= rec.timestamp.t + 82800)
  {
    match rec.timestamp
    case StampedAt(t) => now - t > TokenLifetime
    case _ => true
  }

  /** The record `get_jwt_token` writes after a 200 reply at `now`. */
  function Written(token: Option<string>, now: int, identity: string): JwtRecord
  {
    JwtRecord(token, StampedAt(now), Some(identity), Some("success"))
  }

  /** A token, the file after the call, and how many exchanges the call made. */
  datatype Step = Step(token: Option<string>, file: JwtFile, exchanges: nat)

  /**
   * `get_jwt_token`: one exchange. A 200 reply is written to the file and its
   * token returned as it is, even when absent; when the write fails, or on any
   * other reply, the result is None, and a non-200 reply leaves the file alone.
   */
  function Fetch(f: JwtFile, now: int, identity: string, a: Attempt): (r: Step)
    ensures r.exchanges == 1
    ensures a.reply.AuthHttp? && a.reply.status == 200 && a.writeOk ==>
              r.token == a.reply.token && r.file == Stored(Written(a.reply.token, now, identity))
    ensures !(a.reply.AuthHttp? && a.reply.status == 200 && a.writeOk) ==> r.token.None? && r.file == f
    ensures r.token.Some? ==> r.file.Stored? && r.file.rec.token == r.token && r.file.rec.timestamp == StampedAt(now)
  {
    match a.reply
    case AuthHttp(status, token) =>
      if status == 200 && a.writeOk then Step(token, Stored(Written(token, now, identity)), 1)
      else Step(None, f, 1)
    case _ => Step(None, f, 1)
  }

  /**
   * `load_jwt_token`: no exchange exactly when the file holds an unexpired
   * record, whose token is then returned as stored (even empty or absent);
   * otherwise the result is exactly `get_jwt_token`'s.
   */
  function Load(f: JwtFile, now: int, identity: string, a: Attempt): (r: Step)
    ensures r.exchanges == 0 <==> f.Stored? && !IsTokenExpired(f.rec, now)
    ensures r.exchanges == 0 ==> r.token == f.rec.token && r.file == f
    ensures r.exchanges != 0 ==> r == Fetch(f, now, identity, a)
  {
    if f.Stored? && !IsTokenExpired(f.rec, now) then Step(f.rec.token, f, 0)
    else Fetch(f, now, identity, a)
  }

  /** Exactly 23 hours after its timestamp a record is still valid; one second later it is expired. */
  lemma ExpiryBoundary(rec: JwtRecord, t: int)
    requires rec.timestamp == StampedAt(t)
    ensures !IsTokenExpired(rec, t + TokenLifetime)
    ensures IsTokenExpired(rec, t + TokenLifetime + 1)
  {
  }

  /**
   * A token written by a successful exchange at `t0` is loaded back, with no
   * exchange and the file unchanged, at any time up to `t0` + 23 hours; after
   * that loading exchanges again.
   */
  lemma FetchThenLoad(f: JwtFile, t0: int, identity: string, tok: string, later: int, b: Attempt)
    ensures var written := Fetch(f, t0, identity, Attempt(AuthHttp(200, Some(tok)), true)).file;
            later <= t0 + TokenLifetime ==> Load(written, later, identity, b) == Step(Some(tok), written, 0)
    ensures var written := Fetch(f, t0, identity, Attempt(AuthHttp(200, Some(tok)), true)).file;
            later > t0 + TokenLifetime ==> Load(written, later, identity, b) == Fetch(written, later, identity, b)
  {
  }

  /** The module's state: the contents of `jwt_token.json`. */
  class JwtTokenStore {
    /** The username written into the file (the configured credential, not modelled). */
    const identity: string
    var file: JwtFile
    /** How many exchanges with the token endpoint have been made. */
    ghost var exchanges: nat

    constructor (identity: string, onDisk: JwtFile)
      ensures this.identity == identity && file == onDisk && exchanges == 0
    {
      this.identity := identity;
      file := onDisk;
      exchanges := 0;
    }

    /** `get_jwt_token()`. */
    method GetJwtToken(now: int, a: Attempt) returns (token: Option<string>)
      modifies this
      ensures token == Fetch(old(file), now, identity, a).token
      ensures file == Fetch(old(file), now, identity, a).file
      ensures exchanges == old(exchanges) + 1
    {
      exchanges := exchanges + 1;
      token := None;
      if a.reply.AuthHttp? && a.reply.status == 200 {
        if a.writeOk {
          file := Stored(Written(a.reply.token, now, identity));
          token := a.reply.token;
        }
      }
    }

    /** `load_jwt_token()`. */
    method LoadJwtToken(now: int, a: Attempt) returns (token: Option<string>)
      modifies this
      ensures token == Load(old(file), now, identity, a).token
      ensures file == Load(old(file), now, identity, a).file
      ensures exchanges == old(exchanges) + Load(old(file), now, identity, a).exchanges
    {
      match file {
        case Stored(rec) =>
          if IsTokenExpired(rec, now) {
            token := GetJwtToken(now, a);
          } else {
            token := rec.token;
          }
        case _ =>
          token := GetJwtToken(now, a);
      }
    }

    /** `get_auth_headers()`: None exactly when the loaded token is falsy. */
    method GetAuthHeaders(now: int, a: Attempt) returns (h: Option<Headers>)
      modifies this
      ensures h == HeadersFor(Load(old(file), now, identity, a).token)
      ensures file == Load(old(file), now, identity, a).file
      ensures exchanges == old(exchanges) + Load(old(file), now, identity, a).exchanges
    {
      var token := LoadJwtToken(now, a);
      h := HeadersFor(token);
    }
  }
}
