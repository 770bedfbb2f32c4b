/**
 * The table-based Basic check (app/middleware/basic_auth.js): the
 * `basic-auth` parser yields the presented name and password, or nothing,
 * and `isValidUser` looks the name up in a fixed table of one user.
 */
module TableBasicAuth {
  import opened Wrappers
  import opened Js
  import opened Http

  /** What the `basic-auth` parser returns for a well-formed header. */
  datatype Credentials = Credentials(name: string, pass: string)

  /** The table `validUsers`. */
  const ValidUsers: map<string, string> := map["allowed" := "secretpassword"]

  /**
   * `validUsers[username]`. Names the table does not hold read as
   * `undefined`; so do the names of inherited properties such as
   * "constructor" or "__proto__", in the sense that what they yield is an
   * object, which is never `===` to a string password.
   */
  function Lookup(name: string): Option<string>
  {
    if name in ValidUsers then Some(ValidUsers[name]) else None
  }

  /** `validUsers[username] === password`: only ("allowed", "secretpassword") passes. */
  function IsValidUser(name: string, pass: string): (ok: bool)
    ensures ok <==> name == "allowed" && pass == "secretpassword"
    ensures Lookup(name).None? ==> !ok
  {
    Lookup(name) == Some(pass)
  }

  datatype Outcome = Next | Reject(response: Response)

  /** The single refusal: 401, the challenge, and "Authentication required.". */
  const Refusal: Response :=
    Response(401, Some("Basic realm=\"Restricted Area\""),
             JsonBody(JObj(map["message" := JStr("Authentication required.")])))

  /** `basicAuthMiddleware`: `next()` for the one valid pair, the refusal otherwise. */
  function BasicAuthMiddleware(parsed: Option<Credentials>): (o: Outcome)
    ensures o.Next? <==> parsed == Some(Credentials("allowed", "secretpassword"))
    ensures o.Reject? ==> o.response == Refusal
  {
    if parsed.None? || !IsValidUser(parsed.value.name, parsed.value.pass) then Reject(Refusal)
    else Next
  }

  /** Missing credentials and wrong credentials are answered identically. */
  lemma MissingAndWrongAlike(wrong: Credentials)
    requires wrong != Credentials("allowed", "secretpassword")
    ensures BasicAuthMiddleware(None) == BasicAuthMiddleware(Some(wrong)) == Reject(Refusal)
  {
  }
}
