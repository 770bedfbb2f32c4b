/**
 * The application-level Basic credential check (app/middleware/index.js):
 * the `Authorization` header is split on spaces, its first piece must be
 * exactly `Basic`, the second is base64-decoded and split on ':' into a
 * username and a password, which must equal the environment's API_USER and
 * API_PASS. Every outcome is `next()`, one of two 401 responses, or — when
 * the header is just `Basic` — a TypeError thrown by `Buffer.from(undefined)`.
 */
module AppBasicAuth {
  import opened Wrappers
  import opened Js
  import opened Http
  import Utf8
  import Base64

  /** `process.env.API_USER` and `process.env.API_PASS`; `None` when unset. */
  datatype Env = Env(apiUser: Option<string>, apiPass: Option<string>)

  const Challenge: string := "Basic realm=\"Restricted Area\""

  /** The TypeError `Buffer.from(undefined, 'base64')` throws. */
  const UndefinedPayloadError: string :=
    "The first argument must be of type string or an instance of Buffer, ArrayBuffer, or Array or an Array-like Object. Received undefined"

  datatype Outcome =
    | Next(user: string)          // `req.user = username; next()`
    | Reject(response: Response)  // a 401 written to the response; `next` not called
    | Threw(message: string)      // a synchronous exception, left to Express's error handler

  /** `res.status(401).json({ message: 'Forbidden' })`, after setting the challenge or not. */
  function Forbidden(challenge: bool): Response
  {
    Response(401, if challenge then Some(Challenge) else None,
             JsonBody(JObj(map["message" := JStr("Forbidden")])))
  }

  /** The inner `decodeBase64`: `Buffer.from(str, 'base64').toString('utf-8')`. */
  function DecodeBase64(s: string): (decoded: string)
    ensures |decoded| <= 3 * |s| / 4
  {
    Utf8.Decode(Base64.Decode(s))
  }

  /** A payload a client encoded from text decodes back to that text. */
  lemma DecodeBase64Inverts(t: string)
    ensures DecodeBase64(Base64.Encode(Utf8.Encode(t))) == t
  {
    Base64.DecodeEncode(Utf8.Encode(t));
    Utf8.DecodeEncode(t);
  }

  /**
   * `const [username, password] = decoded.split(':')`: the first and second
   * ':'-separated fields; the password is `undefined` without a ':' and any
   * further fields are dropped.
   */
  function Credentials(decoded: string): (c: (string, Option<string>))
    ensures ':' !in c.0
    ensures c.1.Some? ==> ':' !in c.1.value
    ensures c.1.None? <==> ':' !in decoded
  {
    var fields := Split(decoded, ':');
    (fields[0], if |fields| > 1 then Some(fields[1]) else None)
  }

  /** The header's first space-separated piece. */
  function Scheme(header: string): string
  {
    Split(header, ' ')[0]
  }

  /** `username === API_USER && password === API_PASS` (`undefined === undefined` holds). */
  predicate Matches(c: (string, Option<string>), env: Env)
  {
    env.apiUser == Some(c.0) && c.1 == env.apiPass
  }

  function BasicAuth(header: Option<string>, env: Env): (o: Outcome)
    // no header, or an empty one: 401 with the challenge
    ensures (header.None? || header == Some("")) ==> o == Reject(Forbidden(true))
    // a scheme other than exactly `Basic`: 401 without the challenge
    ensures (header.Some? && header.value != "" && Scheme(header.value) != "Basic") <==>
            o == Reject(Forbidden(false))
    // `Basic` with nothing after it: the decoder throws
    ensures o.Threw? <==> header.Some? && Split(header.value, ' ') == ["Basic"]
    // accepted exactly when the decoded pair matches the configured one
    ensures o.Next? <==>
            header.Some? && |Split(header.value, ' ')| >= 2 && Scheme(header.value) == "Basic" &&
            Matches(Credentials(DecodeBase64(Split(header.value, ' ')[1])), env)
    ensures o.Next? ==> env.apiUser == Some(o.user)
    // every other outcome is the challenging 401
    ensures o.Reject? ==> o.response == Forbidden(true) || o.response == Forbidden(false)
  {
    if header.None? || header.value == "" then Reject(Forbidden(true))
    else
      var auth := Split(header.value, ' ');
      if auth[0] != "Basic" then Reject(Forbidden(false))
      else if |auth| < 2 then Threw(UndefinedPayloadError)
      else
        var c := Credentials(DecodeBase64(auth[1]));
        if Matches(c, env) then Next(c.0) else Reject(Forbidden(true))
  }

  /** The header a client builds for a username and password. */
  function EncodeHeader(user: string, pass: string): string
  {
    "Basic " + Base64.Encode(Utf8.Encode(user + ":" + pass))
  }

  /** A header's pieces when it is `Basic ` followed by a base64 payload. */
  lemma SplitBasicHeader(payload: string)
    requires ' ' !in payload
    ensures Split("Basic " + payload, ' ') == ["Basic", payload]
  {
    assert "Basic " + payload == "Basic" + [' '] + payload;
    SplitAtSep("Basic", payload, ' ');
    SplitWithoutSep(payload, ' ');
  }

  /** Any text after a second ':' is ignored: only two fields are read. */
  lemma TrailingFieldsIgnored(user: string, pass: string, rest: string)
    requires ':' !in user && ':' !in pass
    ensures Credentials(user + ":" + pass + ":" + rest) == (user, Some(pass))
  {
    var s := user + ":" + pass + ":" + rest;
    assert s == user + [':'] + (pass + [':'] + rest);
    SplitAtSep(user, pass + [':'] + rest, ':');
    SplitAtSep(pass, rest, ':');
  }

  /**
   * Round trip: the header a client encodes from the configured pair is
   * accepted, and `req.user` becomes the username — provided neither part
   * contains a ':', which the decoder would treat as a field separator.
   */
  lemma AcceptsConfiguredPair(user: string, pass: string)
    requires ':' !in user && ':' !in pass
    ensures BasicAuth(Some(EncodeHeader(user, pass)), Env(Some(user), Some(pass))) == Next(user)
  {
    var plain := user + ":" + pass;
    var payload := Base64.Encode(Utf8.Encode(plain));
    SplitBasicHeader(payload);
    Base64.DecodeEncode(Utf8.Encode(plain));
    Utf8.DecodeEncode(plain);
    assert DecodeBase64(payload) == plain;
    assert plain == user + [':'] + pass;
    SplitAtSep(user, pass, ':');
    SplitWithoutSep(pass, ':');
  }

  /**
   * A password containing ':' can never be presented: the decoder keeps
   * only the text before it, so the configured pair is then always refused.
   */
  lemma ColonInPasswordNeverMatches(header: Option<string>, user: string, pass: string)
    requires ':' in pass
    ensures !BasicAuth(header, Env(Some(user), Some(pass))).Next?
  {
  }

  /**
   * When API_PASS is unset, a payload that is just the username — with no
   * ':' at all — is accepted, because the missing password is `undefined`
   * and so is the configured one.
   */
  lemma UnsetPasswordAcceptsBareUser(user: string)
    requires ':' !in user
    ensures BasicAuth(Some("Basic " + Base64.Encode(Utf8.Encode(user))), Env(Some(user), None)) == Next(user)
  {
    var payload := Base64.Encode(Utf8.Encode(user));
    SplitBasicHeader(payload);
    Base64.DecodeEncode(Utf8.Encode(user));
    Utf8.DecodeEncode(user);
    SplitWithoutSep(user, ':');
  }

  /** When API_USER is unset nothing is accepted: the username is always a string. */
  lemma UnsetUserRejectsAll(header: Option<string>, pass: Option<string>)
    ensures !BasicAuth(header, Env(None, pass)).Next?
  {
  }
}
